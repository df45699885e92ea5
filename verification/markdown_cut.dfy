/** Cutting a normalized text into blocks, and blocks into retrieval units with their heading prefix. */
module MarkdownCut {
  import opened Basics
  import opened TextLines
  import opened MarkdownBlocks

  // ----- blocks, as groups of lines -----

  function Flush(current: seq<string>): seq<seq<string>> {
    if TrimLines(current) == [] then [] else [TrimLines(current)]
  }

  /** What one line does: the blocks it completes, the scanner state and the pending lines after it. */
  datatype Turn = Turn(done: seq<seq<string>>, scan: Scan, current: seq<string>)

  function TurnOn(scan: Scan, current: seq<string>, line: string): Turn {
    var scan' := Advance(scan, line);
    if scan.Inside? then
      if scan'.Outside? then Turn(Flush(current + [line]), Outside, []) else Turn([], scan, current + [line])
    else if scan'.Inside? then Turn(Flush(current), scan', [line])
    else if Heading(line).Some? then Turn(Flush(current) + [[line]], Outside, [])
    else if IsBlank(line) then Turn(Flush(current), Outside, [])
    else Turn([], Outside, current + [line])
  }

  function BlocksFrom(lines: seq<string>, scan: Scan, current: seq<string>): seq<seq<string>>
    decreases |lines|
  {
    if lines == [] then Flush(current)
    else
      var turn := TurnOn(scan, current, lines[0]);
      turn.done + BlocksFrom(lines[1..], turn.scan, turn.current)
  }

  function Blocks(lines: seq<string>): seq<seq<string>> {
    BlocksFrom(lines, Outside, [])
  }

  function JoinAll(groups: seq<seq<string>>): seq<string> {
    if groups == [] then [] else [Join(groups[0])] + JoinAll(groups[1..])
  }

  lemma {:induction false} JoinAllAppend(xs: seq<seq<string>>, ys: seq<seq<string>>)
    ensures JoinAll(xs + ys) == JoinAll(xs) + JoinAll(ys)
  {
    if xs == [] {
      assert xs + ys == ys;
    } else {
      JoinAllAppend(xs[1..], ys);
      assert (xs + ys)[1..] == xs[1..] + ys;
    }
  }

  /** The flush closure: the pending lines become a block unless all of them are blank. */
  method FlushBlock(blocks: seq<string>, current: seq<string>) returns (out: seq<string>)
    requires forall k :: 0 <= k < |current| ==> OneLine(current[k])
    ensures out == blocks + JoinAll(Flush(current))
  {
    var first, last := OuterRange(current);
    if first == last {
      assert TrimLines(current) == [];
      return blocks;
    }
    var group := current[first..last];
    assert Flush(current) == [group] && JoinAll([group]) == [Join(group)];
    out := blocks + [Join(group)];
  }

  lemma HeadingAfterFlush(blocks: seq<string>, current: seq<string>, line: string)
    ensures blocks + JoinAll(Flush(current)) + [line] == blocks + JoinAll(Flush(current) + [[line]])
  {
    JoinAllAppend(Flush(current), [[line]]);
    assert [[line]][1..] == [] && JoinAll([[line]]) == [line];
  }

  lemma MoreLines(current: seq<string>, line: string)
    requires Lines(current) && OneLine(line)
    ensures Lines(current + [line]) && Lines([line])
  {
  }

  /** One turn of the loop in markdownBlocks. */
  method CutLine(blocks: seq<string>, current: seq<string>, scan: Scan, line: string)
    returns (blocks': seq<string>, current': seq<string>, scan': Scan)
    requires Lines(current) && OneLine(line)
    ensures Lines(current')
    ensures var turn := TurnOn(scan, current, line);
            blocks' == blocks + JoinAll(turn.done) && current' == turn.current && scan' == turn.scan
  {
    blocks', current', scan' := blocks, current, scan;
    MoreLines(current, line);
    if scan.Inside? {
      current' := current + [line];
      if ClosesFence(line, scan.fence) {
        scan' := Outside;
        blocks' := FlushBlock(blocks, current');
        current' := [];
      }
    } else if FenceStart(line).Some? {
      blocks' := FlushBlock(blocks, current);
      current' := [line];
      scan' := Inside(FenceStart(line).value);
    } else if Heading(line).Some? {
      blocks' := FlushBlock(blocks, current);
      current' := [];
      blocks' := blocks' + [line];
      HeadingAfterFlush(blocks, current, line);
    } else if IsBlank(line) {
      blocks' := FlushBlock(blocks, current);
      current' := [];
    } else {
      current' := current + [line];
    }
  }

  lemma CutStep(lines: seq<string>, i: nat, scan: Scan, current: seq<string>, blocks: seq<string>)
    requires i < |lines|
    ensures var turn := TurnOn(scan, current, lines[i]);
            blocks + JoinAll(BlocksFrom(lines[i..], scan, current))
            == blocks + JoinAll(turn.done) + JoinAll(BlocksFrom(lines[i + 1..], turn.scan, turn.current))
  {
    var turn := TurnOn(scan, current, lines[i]);
    assert lines[i..][1..] == lines[i + 1..];
    JoinAllAppend(turn.done, BlocksFrom(lines[i + 1..], turn.scan, turn.current));
  }

  method CutBlocks(content: string) returns (blocks: seq<string>)
    ensures blocks == JoinAll(Blocks(Split(content)))
  {
    var lines := Split(content);
    SplitGivesLines(content);
    blocks := [];
    var current: seq<string> := [];
    var scan := Outside;
    for i := 0 to |lines|
      invariant Lines(current)
      invariant blocks + JoinAll(BlocksFrom(lines[i..], scan, current)) == JoinAll(Blocks(lines))
    {
      CutStep(lines, i, scan, current, blocks);
      blocks, current, scan := CutLine(blocks, current, scan, lines[i]);
    }
    assert lines[|lines|..] == [];
    blocks := FlushBlock(blocks, current);
  }

  // ----- no line is lost -----

  function NonBlank(lines: seq<string>): seq<string> {
    if lines == [] then [] else (if IsBlank(lines[0]) then [] else [lines[0]]) + NonBlank(lines[1..])
  }

  function Flatten(groups: seq<seq<string>>): seq<string> {
    if groups == [] then [] else groups[0] + Flatten(groups[1..])
  }

  lemma {:induction false} NonBlankAppend(xs: seq<string>, ys: seq<string>)
    ensures NonBlank(xs + ys) == NonBlank(xs) + NonBlank(ys)
  {
    if xs == [] {
      assert xs + ys == ys;
    } else {
      NonBlankAppend(xs[1..], ys);
      ConsAppend(xs, ys);
      Assoc(if IsBlank(xs[0]) then [] else [xs[0]], NonBlank(xs[1..]), NonBlank(ys));
    }
  }

  lemma {:induction false} FlattenAppend(xs: seq<seq<string>>, ys: seq<seq<string>>)
    ensures Flatten(xs + ys) == Flatten(xs) + Flatten(ys)
  {
    if xs == [] {
      assert xs + ys == ys;
    } else {
      FlattenAppend(xs[1..], ys);
      ConsAppend(xs, ys);
      Assoc(xs[0], Flatten(xs[1..]), Flatten(ys));
    }
  }

  lemma {:induction false} AllBlank(lines: seq<string>)
    requires forall i :: 0 <= i < |lines| ==> IsBlank(lines[i])
    ensures NonBlank(lines) == []
  {
    if lines != [] {
      AllBlank(lines[1..]);
    }
  }

  lemma FlattenOne(group: seq<string>)
    ensures Flatten([group]) == group
  {
    assert [group][1..] == [];
  }

  lemma FlushKeepsNonBlank(current: seq<string>)
    ensures NonBlank(Flatten(Flush(current))) == NonBlank(current)
  {
    var start := DropBlankStart(current);
    DropBlankStartFacts(current);
    DropBlankEndFacts(start);
    var n, m := |current| - |start|, |TrimLines(current)|;
    assert current[..n] + start == current && start[..m] + start[m..] == start;
    NonBlankAppend(current[..n], start);
    NonBlankAppend(start[..m], start[m..]);
    AllBlank(current[..n]);
    AllBlank(start[m..]);
    FlattenOne(start[..m]);
  }

  lemma FlushHeadingKeepsNonBlank(current: seq<string>, line: string)
    requires !IsBlank(line)
    ensures NonBlank(Flatten(Flush(current) + [[line]])) == NonBlank(current) + [line]
  {
    FlushKeepsNonBlank(current);
    FlattenAppend(Flush(current), [[line]]);
    assert Flatten([[line]]) == [line] by { assert [[line]][1..] == []; }
    NonBlankAppend(Flatten(Flush(current)), [line]);
    NonBlankOne(line);
  }

  lemma NonBlankOne(line: string)
    ensures NonBlank([line]) == if IsBlank(line) then [] else [line]
  {
    assert [line][1..] == [];
  }

  lemma TurnKeepsLines(scan: Scan, current: seq<string>, line: string)
    requires OneLine(line)
    ensures var turn := TurnOn(scan, current, line);
            NonBlank(Flatten(turn.done)) + NonBlank(turn.current) == NonBlank(current) + NonBlank([line])
  {
    var scan' := Advance(scan, line);
    NonBlankOne(line);
    if scan.Inside? {
      NonBlankAppend(current, [line]);
      FlushKeepsNonBlank(current + [line]);
    } else if scan'.Inside? {
      FlushKeepsNonBlank(current);
    } else if Heading(line).Some? {
      HeadingIsNotBlank(line);
      FlushHeadingKeepsNonBlank(current, line);
    } else if IsBlank(line) {
      FlushKeepsNonBlank(current);
    } else {
      NonBlankAppend(current, [line]);
    }
  }

  lemma Shift(d: seq<string>, a: seq<string>, r: seq<string>, b: seq<string>, l: seq<string>)
    requires d + a == b + l
    ensures d + (a + r) == b + (l + r)
  {
    assert d + (a + r) == (d + a) + r && (b + l) + r == b + (l + r);
  }

  lemma KeepsLinesCompose(done: seq<seq<string>>, more: seq<seq<string>>, before: seq<string>, after: seq<string>,
                          line: string, rest: seq<string>)
    requires NonBlank(Flatten(done)) + NonBlank(after) == NonBlank(before) + NonBlank([line])
    requires NonBlank(Flatten(more)) == NonBlank(after) + NonBlank(rest)
    ensures NonBlank(Flatten(done + more)) == NonBlank(before) + NonBlank([line] + rest)
  {
    FlattenAppend(done, more);
    NonBlankAppend(Flatten(done), Flatten(more));
    NonBlankAppend([line], rest);
    Shift(NonBlank(Flatten(done)), NonBlank(after), NonBlank(rest), NonBlank(before), NonBlank([line]));
  }

  /** Every non-blank line of the text is in exactly one block, in order, and nothing else is. */
  lemma {:induction false} BlocksKeepLines(lines: seq<string>, scan: Scan, current: seq<string>)
    requires Lines(lines)
    ensures NonBlank(Flatten(BlocksFrom(lines, scan, current))) == NonBlank(current) + NonBlank(lines)
    decreases |lines|
  {
    if lines == [] {
      FlushKeepsNonBlank(current);
    } else {
      var turn := TurnOn(scan, current, lines[0]);
      TurnKeepsLines(scan, current, lines[0]);
      BlocksKeepLines(lines[1..], turn.scan, turn.current);
      KeepsLinesCompose(turn.done, BlocksFrom(lines[1..], turn.scan, turn.current), current, turn.current,
                        lines[0], lines[1..]);
      assert [lines[0]] + lines[1..] == lines;
    }
  }

  lemma HeadingIsNotBlank(line: string)
    ensures Heading(line).Some? && OneLine(line) ==> !IsBlank(line)
  {
    if OneLine(line) {
      SplitLine(line, "");
      TrimBlankIff(line);
    }
  }

  // ----- a closed fence is one block -----

  function TurnAll(lines: seq<string>, scan: Scan, current: seq<string>): Turn
    decreases |lines|
  {
    if lines == [] then Turn([], scan, current)
    else
      var turn := TurnOn(scan, current, lines[0]);
      var more := TurnAll(lines[1..], turn.scan, turn.current);
      Turn(turn.done + more.done, more.scan, more.current)
  }

  lemma TurnScans(scan: Scan, current: seq<string>, line: string)
    ensures TurnOn(scan, current, line).scan == Advance(scan, line)
  {
  }

  lemma {:induction false} BlocksAppend(xs: seq<string>, ys: seq<string>, scan: Scan, current: seq<string>)
    ensures var t := TurnAll(xs, scan, current);
            && BlocksFrom(xs + ys, scan, current) == t.done + BlocksFrom(ys, t.scan, t.current)
            && t.scan == ScanAll(scan, xs)
    decreases |xs|
  {
    if xs == [] {
      assert xs + ys == ys;
    } else {
      var turn := TurnOn(scan, current, xs[0]);
      TurnScans(scan, current, xs[0]);
      assert (xs + ys)[0] == xs[0] && (xs + ys)[1..] == xs[1..] + ys;
      BlocksAppend(xs[1..], ys, turn.scan, turn.current);
      var more := TurnAll(xs[1..], turn.scan, turn.current);
      Assoc(turn.done, more.done, BlocksFrom(ys, more.scan, more.current));
    }
  }

  lemma BlocksWhole(xs: seq<string>, scan: Scan, current: seq<string>)
    ensures BlocksFrom(xs, scan, current) == TurnAll(xs, scan, current).done + Flush(TurnAll(xs, scan, current).current)
  {
    BlocksAppend(xs, [], scan, current);
    assert xs + [] == xs;
  }

  lemma {:induction false} CodeIsPending(inner: seq<string>, f: Fence, current: seq<string>)
    requires forall i :: 0 <= i < |inner| ==> !ClosesFence(inner[i], f)
    ensures TurnAll(inner, Inside(f), current) == Turn([], Inside(f), current + inner)
    decreases |inner|
  {
    if inner == [] {
      assert current + inner == current;
    } else {
      CodeIsPending(inner[1..], f, current + [inner[0]]);
      assert current + [inner[0]] + inner[1..] == current + inner;
    }
  }

  lemma {:induction false} BlankClosesNothing(line: string, f: Fence)
    requires IsBlank(line) && !IsSpace(f.marker)
    ensures !ClosesFence(line, f)
  {
    if line != "" && (line[0] == ' ' || line[0] == '\t') {
      BlankClosesNothing(line[1..], f);
    }
  }

  lemma TightGroup(lines: seq<string>)
    requires lines != [] && !IsBlank(lines[0]) && !IsBlank(lines[|lines| - 1])
    ensures Flush(lines) == [lines]
  {
    TrimLinesIsTight(lines);
  }

  /**
   Wherever a fence is opened outside any other and closed again, the opening line, the lines inside
   verbatim and the closing line are one block, and the text before and after is cut as if it stood alone.
   */
  lemma ClosedFenceIsOneBlock(pre: seq<string>, open: string, inner: seq<string>, close: string, post: seq<string>)
    requires ScanAll(Outside, pre) == Outside && FenceStart(open).Some?
    requires forall i :: 0 <= i < |inner| ==> !ClosesFence(inner[i], FenceStart(open).value)
    requires ClosesFence(close, FenceStart(open).value)
    ensures Blocks(pre + ([open] + (inner + ([close] + post)))) ==
              Blocks(pre) + [[open] + inner + [close]] + Blocks(post)
  {
    var f := FenceStart(open).value;
    var before := TurnAll(pre, Outside, []);
    BlocksAppend(pre, [open] + (inner + ([close] + post)), Outside, []);
    BlocksWhole(pre, Outside, []);
    FencedBlocks(open, inner, close, post, before.current);
    var group := [[open] + inner + [close]];
    Assoc(before.done, Flush(before.current) + group, Blocks(post));
    Assoc(before.done, Flush(before.current), group);
  }

  lemma FencedBlocks(open: string, inner: seq<string>, close: string, post: seq<string>, current: seq<string>)
    requires FenceStart(open).Some?
    requires forall i :: 0 <= i < |inner| ==> !ClosesFence(inner[i], FenceStart(open).value)
    requires ClosesFence(close, FenceStart(open).value)
    ensures BlocksFrom([open] + (inner + ([close] + post)), Outside, current) ==
              Flush(current) + [[open] + inner + [close]] + Blocks(post)
  {
    var f := FenceStart(open).value;
    var group := [open] + inner + [close];
    assert ([open] + (inner + ([close] + post)))[1..] == inner + ([close] + post);
    BlocksAppend(inner, [close] + post, Inside(f), [open]);
    CodeIsPending(inner, f, [open]);
    assert ([close] + post)[1..] == post;
    if IsBlank(open) { BlankIsNoFence(open); }
    if IsBlank(close) { BlankClosesNothing(close, f); }
    TightGroup(group);
    assert BlocksFrom([close] + post, Inside(f), [open] + inner) == [group] + Blocks(post);
  }

  // ----- the heading test discards headings only -----

  lemma {:induction false} UnindentIsLead(line: string)
    ensures |Unindent(line)| <= |line| && Unindent(line) == line[|line| - |Unindent(line)|..]
    ensures Unindent(line) != "" && !IsSpace(Unindent(line)[0]) ==> Lead(line) == |line| - |Unindent(line)|
  {
    if line != "" && (line[0] == ' ' || line[0] == '\t') {
      UnindentIsLead(line[1..]);
    }
  }

  lemma FenceIsNoHeading(line: string)
    requires OneLine(line) && FenceStart(line).Some?
    ensures Heading(line).None? && !IsBlank(line)
  {
    UnindentIsLead(line);
    TrimBlankIff(line);
    SplitLine(line, "");
    assert !IsSpace(line[Lead(line)]) && !IsBlank(line);
    assert Trim(line)[0] == Unindent(line)[0];
  }

  lemma {:induction false} JoinHasText(lines: seq<string>)
    requires lines != [] && !IsBlank(lines[|lines| - 1])
    ensures !IsBlank(Join(lines))
  {
    if |lines| > 1 {
      JoinHasText(lines[1..]);
      var rest := Join(lines[1..]);
      var i :| 0 <= i < |rest| && !IsSpace(rest[i]);
      assert Join(lines)[|lines[0]| + 1 + i] == rest[i];
    }
  }

  lemma TrimTwice(s: string)
    ensures Trim(Trim(s)) == Trim(s)
  {
    if Trim(s) != "" {
      TrimIs(Trim(s), 0, |Trim(s)|);
    }
  }

  lemma EndIsBeyond(s: string, i: nat)
    requires i < |s| && !IsSpace(s[i])
    ensures End(s) > i && Lead(s) <= i
  {
  }

  lemma LeadIsEarly(s: string, first: string)
    requires |first| <= |s| && (forall k :: 0 <= k < |first| ==> s[k] == first[k]) && !IsBlank(first)
    ensures Lead(s) == Lead(first) < |first|
  {
    TrimBlankIff(first);
    var a := Lead(first);
    assert s[a] == first[a];
    assert forall k :: 0 <= k < a ==> IsSpace(s[k]);
    EndIsBeyond(s, a);
  }

  lemma SliceAcross(first: string, rest: string, a: nat, e: nat)
    requires a <= |first| && |first| + 1 <= e <= |first| + 1 + |rest|
    ensures var s := first + "\n" + rest; s[a..e] == first[a..] + "\n" + s[|first| + 1..e]
  {
  }

  /** With text on a later line, trimming touches the first line only on its left. */
  lemma TrimKeepsFirstLine(first: string, rest: string, s: string)
    requires !IsBlank(first) && !IsBlank(rest) && s == first + "\n" + rest
    ensures End(s) > |first| + 1
    ensures Trim(s) == first[Lead(first)..] + "\n" + s[|first| + 1..End(s)]
  {
    var i :| 0 <= i < |rest| && !IsSpace(rest[i]);
    assert s[|first| + 1 + i] == rest[i];
    EndIsBeyond(s, |first| + 1 + i);
    LeadIsEarly(s, first);
    SliceAcross(first, rest, Lead(first), End(s));
  }

  lemma TailOf(s: string, a: nat, b: nat)
    requires a < b <= |s| && (forall i :: b <= i < |s| ==> IsSpace(s[i])) && !IsSpace(s[a]) && !IsSpace(s[b - 1])
    ensures Trim(s[a..]) == s[a..b]
  {
    var t := s[a..];
    var n := b - a;
    assert forall i :: n <= i < |t| ==> t[i] == s[a + i];
    assert t[n - 1] == s[b - 1];
    TrimIs(t, 0, n);
    assert t[0..n] == s[a..b];
  }

  lemma TrimUntrimmed(s: string)
    requires !IsBlank(s)
    ensures Trim(s[Lead(s)..]) == Trim(s)
  {
    TrimBlankIff(s);
    TailOf(s, Lead(s), End(s));
  }

  /** The first line of a trimmed block is the block's first line, up to white space. */
  lemma FirstLineOfTrimmed(group: seq<string>)
    requires group != [] && Lines(group) && !IsBlank(group[0]) && !IsBlank(group[|group| - 1])
    ensures Trim(Split(Trim(Join(group)))[0]) == Trim(group[0]) && Trim(Join(group)) != ""
  {
    var first := group[0];
    JoinHasText(group);
    TrimBlankIff(Join(group));
    if |group| == 1 {
      SplitLine(Trim(first), "");
      TrimTwice(first);
    } else {
      JoinHasText(group[1..]);
      TrimKeepsFirstLine(first, Join(group[1..]), Join(group));
      SplitLine(first[Lead(first)..], Join(group)[|first| + 1..End(Join(group))]);
      TrimUntrimmed(first);
    }
  }

  /** A block is a heading line, or text whose first line is no heading; it has text either way. */
  predicate SoundBlock(group: seq<string>) {
    && group != [] && Lines(group) && !IsBlank(group[0]) && !IsBlank(group[|group| - 1])
    && (Heading(group[0]).Some? ==> |group| == 1)
  }

  /** The pending lines always start with a line that is neither blank nor a heading. */
  predicate SoundPending(current: seq<string>) {
    Lines(current) && (current != [] ==> !IsBlank(current[0]) && Heading(current[0]).None?)
  }

  predicate AllSound(groups: seq<seq<string>>) {
    forall i :: 0 <= i < |groups| ==> SoundBlock(groups[i])
  }

  lemma TrimmedIsSound(current: seq<string>)
    requires SoundPending(current) && DropBlankEnd(current) != []
    ensures SoundBlock(DropBlankEnd(current))
  {
    DropBlankEndFacts(current);
    var block := DropBlankEnd(current);
    assert block[0] == current[0];
  }

  lemma FlushIsSound(current: seq<string>)
    requires SoundPending(current)
    ensures AllSound(Flush(current))
  {
    assert DropBlankStart(current) == current;
    if TrimLines(current) != [] {
      TrimmedIsSound(current);
    }
  }

  lemma PendingGrows(current: seq<string>, line: string)
    requires SoundPending(current) && OneLine(line)
    requires current == [] ==> !IsBlank(line) && Heading(line).None?
    ensures SoundPending(current + [line])
  {
    assert current != [] ==> (current + [line])[0] == current[0];
  }

  lemma HeadingBlockIsSound(line: string)
    requires OneLine(line) && Heading(line).Some?
    ensures SoundBlock([line])
  {
    HeadingIsNotBlank(line);
  }

  lemma InsideIsSound(scan: Scan, current: seq<string>, line: string)
    requires scan.Inside? && SoundPending(current) && OneLine(line) && current != []
    ensures var turn := TurnOn(scan, current, line);
            AllSound(turn.done) && SoundPending(turn.current) && (turn.scan.Inside? ==> turn.current != [])
  {
    PendingGrows(current, line);
    FlushIsSound(current + [line]);
  }

  lemma FenceIsSound(current: seq<string>, line: string)
    requires SoundPending(current) && OneLine(line) && FenceStart(line).Some?
    ensures var turn := TurnOn(Outside, current, line);
            AllSound(turn.done) && SoundPending(turn.current) && turn.current != []
  {
    FlushIsSound(current);
    FenceIsNoHeading(line);
  }

  lemma SoundMore(groups: seq<seq<string>>, block: seq<string>)
    requires AllSound(groups) && SoundBlock(block)
    ensures AllSound(groups + [block])
  {
  }

  lemma HeadingIsSound(current: seq<string>, line: string)
    requires SoundPending(current) && OneLine(line) && FenceStart(line).None? && Heading(line).Some?
    ensures var turn := TurnOn(Outside, current, line);
            AllSound(turn.done) && turn.current == [] && turn.scan.Outside?
  {
    FlushIsSound(current);
    HeadingBlockIsSound(line);
    SoundMore(Flush(current), [line]);
  }

  lemma TextIsSound(current: seq<string>, line: string)
    requires SoundPending(current) && OneLine(line) && FenceStart(line).None? && Heading(line).None?
    ensures var turn := TurnOn(Outside, current, line);
            AllSound(turn.done) && SoundPending(turn.current) && turn.scan.Outside?
  {
    FlushIsSound(current);
    if !IsBlank(line) {
      PendingGrows(current, line);
    }
  }

  lemma TurnIsSound(scan: Scan, current: seq<string>, line: string)
    requires SoundPending(current) && OneLine(line) && (scan.Inside? ==> current != [])
    ensures var turn := TurnOn(scan, current, line);
            AllSound(turn.done) && SoundPending(turn.current) && (turn.scan.Inside? ==> turn.current != [])
  {
    if scan.Inside? {
      InsideIsSound(scan, current, line);
    } else if FenceStart(line).Some? {
      FenceIsSound(current, line);
    } else if Heading(line).Some? {
      HeadingIsSound(current, line);
    } else {
      TextIsSound(current, line);
    }
  }

  lemma {:induction false} BlocksAreSound(lines: seq<string>, scan: Scan, current: seq<string>)
    requires Lines(lines) && SoundPending(current) && (scan.Inside? ==> current != [])
    ensures AllSound(BlocksFrom(lines, scan, current))
    decreases |lines|
  {
    if lines == [] {
      FlushIsSound(current);
    } else {
      var turn := TurnOn(scan, current, lines[0]);
      TurnIsSound(scan, current, lines[0]);
      BlocksAreSound(lines[1..], turn.scan, turn.current);
    }
  }

  /** The test SplitMarkdown makes on a whole trimmed block is true exactly for the single heading lines. */
  lemma HeadingTestIsExact(lines: seq<string>, i: nat)
    requires Lines(lines) && i < |Blocks(lines)|
    ensures var group := Blocks(lines)[i];
            && Trim(Join(group)) != ""
            && Heading(Trim(Join(group))) == Heading(group[0])
            && (Heading(group[0]).Some? ==> group == [group[0]])
  {
    BlocksAreSound(lines, Outside, []);
    assert SoundBlock(Blocks(lines)[i]);
    FirstLineOfTrimmed(Blocks(lines)[i]);
    SplitLine(Blocks(lines)[i][0], "");
  }
}
