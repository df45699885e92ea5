/** From the lines of a text to its chunks: no line of text is lost on the way. */
module LinesInChunks {
  import opened TextLines
  import opened MarkdownBlocks
  import opened MarkdownCut
  import opened MarkdownUnits
  import opened ChunkPacking

  /** The lines that have to be kept: those with text, but for the headings outside of fences. */
  function BodyLines(lines: seq<string>, scan: Scan): seq<string> {
    if lines == [] then []
    else (if IsBody(scan, lines[0]) then [lines[0]] else []) + BodyLines(lines[1..], Advance(scan, lines[0]))
  }

  predicate IsBody(scan: Scan, line: string) {
    !IsBlank(line) && (LabelOf(scan, line).Plain? ==> Heading(line).None?)
  }

  // ----- the text blocks hold the body lines -----

  /** The blocks that become units. */
  function TextGroups(groups: seq<seq<string>>): seq<seq<string>> {
    if groups == [] then []
    else (if groups[0] != [] && Heading(groups[0][0]).None? then [groups[0]] else []) + TextGroups(groups[1..])
  }

  lemma {:induction false} TextGroupsAppend(xs: seq<seq<string>>, ys: seq<seq<string>>)
    ensures TextGroups(xs + ys) == TextGroups(xs) + TextGroups(ys)
  {
    if xs == [] {
      assert xs + ys == ys;
    } else {
      TextGroupsAppend(xs[1..], ys);
      ConsAppend(xs, ys);
      Assoc(if xs[0] != [] && Heading(xs[0][0]).None? then [xs[0]] else [], TextGroups(xs[1..]), TextGroups(ys));
    }
  }

  lemma TextGroupsOne(group: seq<string>)
    ensures TextGroups([group]) == if group != [] && Heading(group[0]).None? then [group] else []
  {
    assert [group][1..] == [];
  }

  /** Pending lines start with text, so what is flushed is a text block. */
  lemma FlushIsText(current: seq<string>)
    requires SoundPending(current)
    ensures TextGroups(Flush(current)) == Flush(current)
  {
    if current != [] {
      DropBlankEndFacts(current);
      assert DropBlankStart(current) == current;
      TextGroupsOne(TrimLines(current));
    }
  }

  /** What the blocks of some lines keep of them. */
  function TextLinesOf(groups: seq<seq<string>>): seq<string> {
    NonBlank(Flatten(TextGroups(groups)))
  }

  lemma TextLinesAppend(xs: seq<seq<string>>, ys: seq<seq<string>>)
    ensures TextLinesOf(xs + ys) == TextLinesOf(xs) + TextLinesOf(ys)
  {
    TextGroupsAppend(xs, ys);
    FlattenAppend(TextGroups(xs), TextGroups(ys));
    NonBlankAppend(Flatten(TextGroups(xs)), Flatten(TextGroups(ys)));
  }

  lemma FlushKeepsText(current: seq<string>)
    requires SoundPending(current)
    ensures TextLinesOf(Flush(current)) == NonBlank(current)
  {
    FlushIsText(current);
    FlushKeepsNonBlank(current);
  }

  lemma HeadingGivesNoText(current: seq<string>, line: string)
    requires SoundPending(current) && Heading(line).Some?
    ensures TextLinesOf(Flush(current) + [[line]]) == NonBlank(current)
  {
    TextLinesAppend(Flush(current), [[line]]);
    TextGroupsOne([line]);
    FlushKeepsText(current);
  }

  lemma TurnKeepsBody(scan: Scan, current: seq<string>, line: string)
    requires OneLine(line) && SoundPending(current) && (scan.Inside? ==> current != [])
    ensures var turn := TurnOn(scan, current, line);
            TextLinesOf(turn.done) + NonBlank(turn.current) ==
              NonBlank(current) + (if IsBody(scan, line) then [line] else [])
  {
    NonBlankOne(line);
    NonBlankAppend(current, [line]);
    if scan.Inside? {
      PendingGrows(current, line);
      FlushKeepsText(current + [line]);
    } else {
      TurnOutside(current, line);
    }
  }

  lemma TurnOutside(current: seq<string>, line: string)
    requires OneLine(line) && SoundPending(current)
    ensures var turn := TurnOn(Outside, current, line);
            TextLinesOf(turn.done) + NonBlank(turn.current) ==
              NonBlank(current) + (if IsBody(Outside, line) then [line] else [])
  {
    NonBlankOne(line);
    NonBlankAppend(current, [line]);
    FlushKeepsText(current);
    if FenceStart(line).Some? {
      FenceIsNoHeading(line);
    } else if Heading(line).Some? {
      HeadingGivesNoText(current, line);
    }
  }

  lemma BodyOfFirst(done: seq<seq<string>>, more: seq<seq<string>>, before: seq<string>, after: seq<string>,
                    first: seq<string>, rest: seq<string>)
    requires TextLinesOf(done) + NonBlank(after) == NonBlank(before) + first
    requires TextLinesOf(more) == NonBlank(after) + rest
    ensures TextLinesOf(done + more) == NonBlank(before) + (first + rest)
  {
    TextLinesAppend(done, more);
    Shift(TextLinesOf(done), NonBlank(after), rest, NonBlank(before), first);
  }

  /** The text blocks hold exactly the body lines, in order. */
  lemma {:induction false} BlocksKeepBody(lines: seq<string>, scan: Scan, current: seq<string>)
    requires Lines(lines) && SoundPending(current) && (scan.Inside? ==> current != [])
    ensures TextLinesOf(BlocksFrom(lines, scan, current)) == NonBlank(current) + BodyLines(lines, scan)
    decreases |lines|
  {
    if lines == [] {
      FlushKeepsText(current);
    } else {
      var turn := TurnOn(scan, current, lines[0]);
      TurnIsSound(scan, current, lines[0]);
      TurnScans(scan, current, lines[0]);
      TurnKeepsBody(scan, current, lines[0]);
      BlocksKeepBody(lines[1..], turn.scan, turn.current);
      BodyOfFirst(turn.done, BlocksFrom(lines[1..], turn.scan, turn.current), current, turn.current,
                  if IsBody(scan, lines[0]) then [lines[0]] else [], BodyLines(lines[1..], turn.scan));
    }
  }

  // ----- a trimmed block has the lines of the block -----

  /** A block as a unit shows it: all lines as they are, but for white space before the first and after the last. */
  function Shaved(group: seq<string>): (shown: seq<string>)
    requires group != []
    ensures |shown| == |group|
  {
    ShaveFirst(ShaveLast(group))
  }

  function ShaveFirst(group: seq<string>): seq<string>
    requires group != []
  {
    [group[0][Lead(group[0])..]] + group[1..]
  }

  function ShaveLast(group: seq<string>): seq<string>
    requires group != []
  {
    group[..|group| - 1] + [group[|group| - 1][..End(group[|group| - 1])]]
  }

  function Shown(groups: seq<seq<string>>): seq<string> {
    if groups == [] then [] else (if groups[0] == [] then [] else Shaved(groups[0])) + Shown(groups[1..])
  }

  lemma PrefixOfBoth(head: string, rest: string, n: nat)
    requires n <= |rest|
    ensures (head + rest)[..|head| + n] == head + rest[..n]
  {
  }

  lemma {:induction false} ShavedLast(group: seq<string>)
    requires group != [] && !IsBlank(group[|group| - 1])
    ensures Join(group)[..End(Join(group))] == Join(ShaveLast(group))
  {
    if |group| > 1 {
      var first, rest := group[0], group[1..];
      ShavedLast(rest);
      JoinHasText(rest);
      TrimBlankIff(Join(rest));
      EndOfTail(first + "\n", Join(rest));
      assert ShaveLast(group) == [first] + ShaveLast(rest);
      assert Join(group) == first + "\n" + Join(rest);
      PrefixOfBoth(first + "\n", Join(rest), End(Join(rest)));
    }
  }

  lemma {:induction false} EndOfTail(head: string, rest: string)
    requires !IsBlank(rest)
    ensures End(head + rest) == |head| + End(rest)
  {
    var s, n := head + rest, |rest| - 1;
    assert s[|s| - 1] == rest[n];
    if IsSpace(rest[n]) {
      assert forall i :: 0 <= i < n ==> rest[..n][i] == rest[i];
      EndOfTail(head, rest[..n]);
      assert s[..|s| - 1] == head + rest[..n];
    }
  }

  lemma ShavedFirst(group: seq<string>)
    requires group != [] && !IsBlank(group[0])
    ensures Join(group)[Lead(Join(group))..] == Join(ShaveFirst(group))
  {
    LeadIsEarly(Join(group), group[0]);
    assert ShaveFirst(group)[1..] == group[1..];
  }

  lemma CutFirst(group: seq<string>)
    requires SoundBlock(group)
    ensures !IsBlank(ShaveLast(group)[0])
    ensures forall k :: 0 <= k < |group| - 1 ==> ShaveLast(group)[k] == group[k]
  {
    var last := group[|group| - 1];
    if |group| == 1 {
      TrimBlankIff(last);
      LeadOfFront(last, End(last));
    }
  }

  lemma TrimIsShaved(group: seq<string>)
    requires SoundBlock(group)
    ensures Trim(Join(group)) == Join(Shaved(group))
  {
    var text := Join(group);
    JoinHasText(group);
    TrimBlankIff(text);
    LeadOfFront(text, End(text));
    ShavedLast(group);
    CutFirst(group);
    ShavedFirst(ShaveLast(group));
    assert text[..End(text)][Lead(text)..] == text[Lead(text)..End(text)];
  }

  lemma ShavedLines(group: seq<string>)
    requires group != [] && Lines(group)
    ensures Lines(Shaved(group))
  {
    var cut, last := ShaveLast(group), group[|group| - 1];
    assert OneLine(last[..End(last)]);
    assert Lines(cut) && OneLine(cut[0][Lead(cut[0])..]);
    assert forall k :: 1 <= k < |cut| ==> ShaveFirst(cut)[k] == cut[k];
  }

  /** Trimming what a block's lines join to touches no line but the first and the last. */
  lemma TrimmedBlock(group: seq<string>)
    requires SoundBlock(group)
    ensures Split(Trim(Join(group))) == Shaved(group)
  {
    TrimIsShaved(group);
    ShavedLines(group);
    SplitJoin(Shaved(group));
  }

  lemma LeadOfFront(s: string, e: nat)
    requires Lead(s) < e <= |s|
    ensures Lead(s[..e]) == Lead(s)
  {
    assert s[..e][Lead(s)] == s[Lead(s)];
    assert forall i :: 0 <= i < Lead(s) ==> s[..e][i] == s[i];
    EndIsBeyond(s[..e], Lead(s));
  }

  // ----- the lines of the joined units -----

  function PathLines(path: seq<string>): seq<string> {
    if path == [] then [] else Split(JoinWith(path, " / "))
  }

  /** The lines of all units, joined: before each text block its path, between two of them an empty line. */
  function Page(groups: seq<seq<string>>, path: seq<string>): seq<string>
    requires AllDecided(groups)
    decreases |groups|
  {
    if groups == [] then []
    else
      assert Decided(groups[0]);
      var item := ItemOf(groups[0]);
      var rest := Page(groups[1..], PathNext(path, item));
      if item.Section? then rest
      else PathLines(path) + Shaved(groups[0]) + (if TextGroups(groups[1..]) == [] then [] else [""] + rest)
  }

  lemma {:induction false} SplitAtBreak(a: string, b: string)
    ensures Split(a + "\n" + b) == Split(a) + Split(b)
  {
    if a == "" {
      assert a + "\n" + b == "\n" + b && ("\n" + b)[1..] == b;
    } else {
      assert (a + "\n" + b)[1..] == a[1..] + "\n" + b && (a + "\n" + b)[0] == a[0];
      SplitAtBreak(a[1..], b);
    }
  }

  lemma SplitUnit(path: seq<string>, block: string)
    ensures Split(Prefix(path) + block) == PathLines(path) + Split(block)
  {
    if path == [] {
      assert Prefix(path) + block == block;
    } else {
      SplitAtBreak(JoinWith(path, " / "), block);
      assert Prefix(path) + block == JoinWith(path, " / ") + "\n" + block;
    }
  }

  lemma SplitUnits(first: string, rest: seq<string>)
    ensures Split(JoinWith([first] + rest, GAP)) ==
              Split(first) + (if rest == [] then [] else [""] + Split(JoinWith(rest, GAP)))
  {
    JoinFirst(first, rest);
    if rest != [] {
      var more := JoinWith(rest, GAP);
      assert first + GAP + more == first + "\n" + ("" + "\n" + more);
      SplitAtBreak(first, "" + "\n" + more);
      SplitAtBreak("", more);
    }
  }

  /** The units of these blocks, joined, are the page of these blocks. */
  predicate Laid(groups: seq<seq<string>>, path: seq<string>)
    requires AllDecided(groups)
  {
    var units := UnitsFrom(JoinAll(groups), path);
    && (units == [] <==> TextGroups(groups) == [])
    && (units != [] ==> Split(JoinWith(units, GAP)) == Page(groups, path))
  }

  lemma LaidText(groups: seq<seq<string>>, path: seq<string>)
    requires AllDecided(groups) && groups != [] && SoundBlock(groups[0]) && ItemOf(groups[0]).Text?
    requires Laid(groups[1..], path)
    ensures Laid(groups, path)
  {
    var text, units := ItemOf(groups[0]).text, UnitsFrom(JoinAll(groups[1..]), path);
    assert Decided(groups[0]);
    UnitsOfFirst(groups[0], JoinAll(groups[1..]), path);
    SplitUnits(Prefix(path) + text, units);
    SplitUnit(path, text);
    TrimmedBlock(groups[0]);
  }

  lemma HeadingGivesNothing(groups: seq<seq<string>>, path: seq<string>)
    requires AllDecided(groups) && groups != [] && ItemOf(groups[0]).Section?
    ensures UnitsFrom(JoinAll(groups), path) == UnitsFrom(JoinAll(groups[1..]), PathNext(path, ItemOf(groups[0])))
    ensures TextGroups(groups) == TextGroups(groups[1..])
    ensures Page(groups, path) == Page(groups[1..], PathNext(path, ItemOf(groups[0])))
  {
    assert Decided(groups[0]);
    UnitsOfFirst(groups[0], JoinAll(groups[1..]), path);
  }

  lemma LaidHeading(groups: seq<seq<string>>, path: seq<string>)
    requires AllDecided(groups) && groups != [] && ItemOf(groups[0]).Section?
    requires Laid(groups[1..], PathNext(path, ItemOf(groups[0])))
    ensures Laid(groups, path)
  {
    var next := PathNext(path, ItemOf(groups[0]));
    HeadingGivesNothing(groups, path);
    assert UnitsFrom(JoinAll(groups), path) == UnitsFrom(JoinAll(groups[1..]), next);
  }

  /** The units, joined, are the path lines and the text blocks line by line: nothing else is in them. */
  lemma {:induction false} LinesOfUnits(groups: seq<seq<string>>, path: seq<string>)
    requires AllDecided(groups) && AllSound(groups)
    ensures Laid(groups, path)
    decreases |groups|
  {
    if groups != [] {
      assert Decided(groups[0]) && SoundBlock(groups[0]);
      var item := ItemOf(groups[0]);
      LinesOfUnits(groups[1..], PathNext(path, item));
      if item.Text? {
        LaidText(groups, path);
      } else {
        LaidHeading(groups, path);
      }
    }
  }

  // ----- in order -----

  /** All of `xs` is in `ys`, in order. */
  predicate InOrder(xs: seq<string>, ys: seq<string>)
    decreases |ys|
  {
    xs == [] || (ys != [] && ((xs[0] == ys[0] && InOrder(xs[1..], ys[1..])) || InOrder(xs, ys[1..])))
  }

  lemma {:induction false} InOrderAfter(before: seq<string>, xs: seq<string>, ys: seq<string>)
    requires InOrder(xs, ys)
    ensures InOrder(xs, before + ys)
  {
    if before == [] {
      assert before + ys == ys;
    } else {
      InOrderAfter(before[1..], xs, ys);
      ConsAppend(before, ys);
    }
  }

  lemma {:induction false} InOrderAppend(same: seq<string>, xs: seq<string>, ys: seq<string>)
    requires InOrder(xs, ys)
    ensures InOrder(same + xs, same + ys)
  {
    if same == [] {
      assert same + xs == xs && same + ys == ys;
    } else {
      InOrderAppend(same[1..], xs, ys);
      ConsAppend(same, xs);
      ConsAppend(same, ys);
    }
  }

  lemma TextPageShows(groups: seq<seq<string>>, path: seq<string>)
    requires AllDecided(groups) && groups != [] && ItemOf(groups[0]).Text?
    requires InOrder(Shown(TextGroups(groups[1..])), Page(groups[1..], path))
    ensures InOrder(Shown(TextGroups(groups)), Page(groups, path))
  {
    assert Decided(groups[0]);
    var texts, rest, shaved := TextGroups(groups[1..]), Page(groups[1..], path), Shaved(groups[0]);
    var tail := if texts == [] then [] else [""] + rest;
    if texts != [] {
      InOrderAfter([""], Shown(texts), rest);
    }
    InOrderAppend(shaved, Shown(texts), tail);
    InOrderAfter(PathLines(path), shaved + Shown(texts), shaved + tail);
    Assoc(PathLines(path), shaved, tail);
    assert ([groups[0]] + texts)[1..] == texts;
  }

  lemma {:induction false} PageShowsAll(groups: seq<seq<string>>, path: seq<string>)
    requires AllDecided(groups)
    ensures InOrder(Shown(TextGroups(groups)), Page(groups, path))
    decreases |groups|
  {
    if groups != [] {
      assert Decided(groups[0]);
      PageShowsAll(groups[1..], PathNext(path, ItemOf(groups[0])));
      if ItemOf(groups[0]).Text? {
        TextPageShows(groups, path);
      } else {
        HeadingGivesNothing(groups, path);
      }
    }
  }

  /** Lines without the white space at their ends, blank ones dropped. */
  function Words(lines: seq<string>): seq<string> {
    if lines == [] then [] else Word(Trim(lines[0])) + Words(lines[1..])
  }

  function Word(trimmed: string): seq<string> {
    if trimmed == "" then [] else [trimmed]
  }

  lemma {:induction false} WordsAppend(xs: seq<string>, ys: seq<string>)
    ensures Words(xs + ys) == Words(xs) + Words(ys)
  {
    if xs == [] {
      assert xs + ys == ys;
    } else {
      WordsAppend(xs[1..], ys);
      ConsAppend(xs, ys);
      Assoc(Word(Trim(xs[0])), Words(xs[1..]), Words(ys));
    }
  }

  lemma {:induction false} WordsAreNonBlank(lines: seq<string>)
    ensures Words(NonBlank(lines)) == Words(lines)
  {
    if lines != [] {
      WordsAreNonBlank(lines[1..]);
      TrimBlankIff(lines[0]);
      if !IsBlank(lines[0]) {
        assert ([lines[0]] + NonBlank(lines[1..]))[1..] == NonBlank(lines[1..]);
      } else {
        assert [] + NonBlank(lines[1..]) == NonBlank(lines[1..]);
      }
    }
  }

  lemma EndIsLength(s: string)
    requires s != "" && !IsSpace(s[|s| - 1])
    ensures End(s) == |s|
  {
  }

  lemma TrimFront(s: string)
    requires !IsBlank(s)
    ensures Trim(s[..End(s)]) == Trim(s)
  {
    TrimBlankIff(s);
    var t := s[..End(s)];
    LeadOfFront(s, End(s));
    EndIsLength(t);
    assert t[Lead(t)..|t|] == s[Lead(s)..End(s)];
  }

  lemma ShavedWords(group: seq<string>)
    requires SoundBlock(group)
    ensures Words(Shaved(group)) == Words(group)
  {
    CutFirst(group);
    ShavedLastWords(group);
    ShavedFirstWords(ShaveLast(group));
  }

  lemma SameFirstWord(x: string, y: string, rest: seq<string>)
    requires Trim(x) == Trim(y)
    ensures Words([x] + rest) == Words([y] + rest)
  {
    assert ([x] + rest)[1..] == rest == ([y] + rest)[1..];
  }

  lemma {:induction false} SameLastWord(group: seq<string>, cut: string)
    requires group != [] && Trim(cut) == Trim(group[|group| - 1])
    ensures Words(group[..|group| - 1] + [cut]) == Words(group)
    decreases |group|
  {
    var shaved := group[..|group| - 1] + [cut];
    if |group| == 1 {
      assert shaved[1..] == [] == group[1..];
    } else {
      SameLastWord(group[1..], cut);
      assert shaved[0] == group[0] && shaved[1..] == group[1..][..|group| - 2] + [cut];
    }
  }

  lemma ShavedLastWords(group: seq<string>)
    requires group != [] && !IsBlank(group[|group| - 1])
    ensures Words(ShaveLast(group)) == Words(group)
  {
    TrimFront(group[|group| - 1]);
    SameLastWord(group, group[|group| - 1][..End(group[|group| - 1])]);
  }

  lemma ShavedFirstWords(group: seq<string>)
    requires group != [] && !IsBlank(group[0])
    ensures Words(ShaveFirst(group)) == Words(group)
  {
    var first, rest := group[0], group[1..];
    TrimUntrimmed(first);
    SameFirstWord(first[Lead(first)..], first, rest);
    assert [first] + rest == group;
  }

  lemma {:induction false} ShownWords(groups: seq<seq<string>>)
    requires AllSound(groups)
    ensures Words(Shown(groups)) == Words(Flatten(groups))
  {
    if groups != [] {
      assert SoundBlock(groups[0]);
      ShownWords(groups[1..]);
      ShavedWords(groups[0]);
      WordsAppend(Shaved(groups[0]), Shown(groups[1..]));
      WordsAppend(groups[0], Flatten(groups[1..]));
    }
  }

  lemma {:induction false} InOrderWords(xs: seq<string>, ys: seq<string>)
    requires InOrder(xs, ys)
    ensures InOrder(Words(xs), Words(ys))
    decreases |ys|
  {
    if xs != [] {
      var mine := Word(Trim(ys[0]));
      if xs[0] == ys[0] && InOrder(xs[1..], ys[1..]) {
        InOrderWords(xs[1..], ys[1..]);
        InOrderAppend(mine, Words(xs[1..]), Words(ys[1..]));
      } else {
        InOrderWords(xs, ys[1..]);
        InOrderAfter(mine, Words(xs), Words(ys[1..]));
      }
    }
  }

  lemma {:induction false} TextGroupsAreSound(groups: seq<seq<string>>)
    requires AllSound(groups)
    ensures AllSound(TextGroups(groups))
  {
    if groups != [] {
      TextGroupsAreSound(groups[1..]);
    }
  }

  // ----- the whole -----

  /** The chunks of a text, windows put back together and joined as units are joined. */
  function JoinedChunks(text: string): string {
    GroupsTile(UnitsOf(text), 0, 0);
    JoinWith(Meanings(UnitsOf(text), Groups(UnitsOf(text))), GAP)
  }

  /**
   Every line of a text with anything on it, unless it is a heading outside of any fence, comes back from the
   chunks, in order: its block's first line without the white space before it, the last without that after
   it, and all the others as they are. What comes back besides are path lines and empty lines.
   */
  lemma NoLineIsLost(text: string)
    requires text != ""
    ensures var groups := Blocks(Split(text));
            && TextLinesOf(groups) == BodyLines(Split(text), Outside)
            && InOrder(Shown(TextGroups(groups)), Split(JoinedChunks(text)))
            && Words(Shown(TextGroups(groups))) == Words(BodyLines(Split(text), Outside))
            && (TextGroups(groups) != [] ==> AllDecided(groups) && Split(JoinedChunks(text)) == Page(groups, []))
  {
    var groups := Blocks(Split(text));
    SplitGivesLines(text);
    BlocksAreDecided(Split(text));
    BlocksAreSound(Split(text), Outside, []);
    BlocksKeepBody(Split(text), Outside, []);
    LinesOfUnits(groups, []);
    PageShowsAll(groups, []);
    TextGroupsAreSound(groups);
    ShownWords(TextGroups(groups));
    WordsAreNonBlank(Flatten(TextGroups(groups)));
    ChunksOfText(text);
  }

  /** Read line by line: the body lines are among the chunks' lines, in order, up to white space at their ends. */
  lemma BodyLinesAreInTheChunks(text: string)
    requires text != ""
    ensures InOrder(Words(BodyLines(Split(text), Outside)), Words(Split(JoinedChunks(text))))
  {
    NoLineIsLost(text);
    InOrderWords(Shown(TextGroups(Blocks(Split(text)))), Split(JoinedChunks(text)));
  }
}
