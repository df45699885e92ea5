/**
 The fence-aware line scanner of the Markdown chunker: which lines belong to a fenced code block,
 how blank lines are collapsed around them, and how the text is cut into blocks.
 */
module MarkdownBlocks {
  import opened Basics
  import opened TextLines

  // ----- one line -----

  datatype Fence = Fence(marker: char, length: nat)

  function Unindent(line: string): string {
    if line != "" && (line[0] == ' ' || line[0] == '\t') then Unindent(line[1..]) else line
  }

  function RunLength(s: string, c: char): (n: nat)
    ensures n <= |s|
  {
    if s != "" && s[0] == c then 1 + RunLength(s[1..], c) else 0
  }

  function FenceStart(line: string): Option<Fence> {
    var t := Unindent(line);
    if |t| < 3 || (t[0] != '`' && t[0] != '~') then None
    else if RunLength(t, t[0]) >= 3 then Some(Fence(t[0], RunLength(t, t[0])))
    else None
  }

  predicate ClosesFence(line: string, f: Fence) {
    var t := Unindent(line);
    && |t| >= f.length && t != "" && t[0] == f.marker
    && RunLength(t, f.marker) >= f.length
    && IsBlank(t[RunLength(t, f.marker)..])
  }

  type Level = n: nat | 1 <= n <= 6 witness 1

  datatype HeadingLine = HeadingLine(level: Level, title: string)

  function Hashes(line: string, limit: nat): (n: nat)
    ensures n <= limit && n <= |line|
  {
    if limit > 0 && line != "" && line[0] == '#' then 1 + Hashes(line[1..], limit - 1) else 0
  }

  /** The heading test on an already trimmed first line. */
  function HeadingOf(line: string): (h: Option<HeadingLine>)
    ensures h.Some? ==> h.value.title != ""
  {
    var level := Hashes(line, 6);
    if level == 0 || level >= |line| || line[level] != ' ' then None
    else if Trim(line[level..]) == "" then None
    else Some(HeadingLine(level, Trim(line[level..])))
  }

  function Heading(block: string): Option<HeadingLine> {
    HeadingOf(Trim(Split(block)[0]))
  }

  // ----- the scanner -----

  datatype Scan = Outside | Inside(fence: Fence)

  function Advance(scan: Scan, line: string): Scan {
    match scan
    case Inside(f) => if ClosesFence(line, f) then Outside else scan
    case Outside => if FenceStart(line).Some? then Inside(FenceStart(line).value) else Outside
  }

  function ScanAll(scan: Scan, lines: seq<string>): Scan
    decreases |lines|
  {
    if lines == [] then scan else ScanAll(Advance(scan, lines[0]), lines[1..])
  }

  datatype Label = Plain | Opening | Code

  function LabelOf(scan: Scan, line: string): Label {
    if scan.Inside? then Code else if FenceStart(line).Some? then Opening else Plain
  }

  /** Every line with its place relative to the fences. */
  function Labelled(lines: seq<string>, scan: Scan): seq<(string, Label)> {
    if lines == [] then []
    else [(lines[0], LabelOf(scan, lines[0]))] + Labelled(lines[1..], Advance(scan, lines[0]))
  }

  // ----- collapsing blank lines -----

  function DropBlankStart(lines: seq<string>): seq<string> {
    if lines != [] && IsBlank(lines[0]) then DropBlankStart(lines[1..]) else lines
  }

  function DropBlankEnd(lines: seq<string>): seq<string> {
    if lines != [] && IsBlank(lines[|lines| - 1]) then DropBlankEnd(lines[..|lines| - 1]) else lines
  }

  function TrimLines(lines: seq<string>): seq<string> {
    DropBlankEnd(DropBlankStart(lines))
  }

  function CollapseFrom(lines: seq<string>, scan: Scan, afterBlank: bool): seq<string> {
    if lines == [] then []
    else
      var line := lines[0];
      var plainBlank := LabelOf(scan, line).Plain? && IsBlank(line);
      (if plainBlank && afterBlank then [] else [line]) + CollapseFrom(lines[1..], Advance(scan, line), plainBlank)
  }

  function Collapse(lines: seq<string>): seq<string> {
    CollapseFrom(TrimLines(lines), Outside, false)
  }

  /** The same on labelled lines: it may look at labels but never recomputes them. */
  function CollapseLabelled(lines: seq<(string, Label)>, afterBlank: bool): seq<(string, Label)> {
    if lines == [] then []
    else
      var plainBlank := lines[0].1.Plain? && IsBlank(lines[0].0);
      (if plainBlank && afterBlank then [] else [lines[0]]) + CollapseLabelled(lines[1..], plainBlank)
  }

  /** The two loops that collapseOuterBlankLines and joinTrimmedBlankLines share. */
  method OuterRange(lines: seq<string>) returns (first: nat, last: nat)
    ensures first <= last <= |lines| && lines[first..last] == TrimLines(lines)
  {
    first, last := 0, |lines|;
    while first < last && IsBlank(lines[first])
      invariant 0 <= first <= last == |lines|
      invariant DropBlankStart(lines) == DropBlankStart(lines[first..])
    {
      assert lines[first..][1..] == lines[first + 1..];
      first := first + 1;
    }
    ghost var body := lines[first..];
    assert DropBlankStart(lines) == body == lines[first..last];
    while last > first && IsBlank(lines[last - 1])
      invariant first <= last <= |lines|
      invariant DropBlankEnd(body) == DropBlankEnd(lines[first..last])
    {
      assert lines[first..last][..last - first - 1] == lines[first..last - 1];
      last := last - 1;
    }
  }

  lemma CollapseStep(body: seq<string>, i: nat, scan: Scan, afterBlank: bool, result: seq<string>)
    requires i < |body|
    ensures var plainBlank := LabelOf(scan, body[i]).Plain? && IsBlank(body[i]);
            result + CollapseFrom(body[i..], scan, afterBlank) ==
              (if plainBlank && afterBlank then result else result + [body[i]])
              + CollapseFrom(body[i + 1..], Advance(scan, body[i]), plainBlank)
  {
    assert body[i..][1..] == body[i + 1..];
  }

  method CollapseOuterBlankLines(lines: seq<string>) returns (text: string)
    ensures text == Join(Collapse(lines))
  {
    var first, last := OuterRange(lines);
    if first == last {
      assert TrimLines(lines) == [] && Collapse(lines) == [];
      return "";
    }
    var body := lines[first..last];
    var result: seq<string> := [];
    var scan := Outside;
    var previousBlank := false;
    for i := 0 to |body|
      invariant result + CollapseFrom(body[i..], scan, previousBlank) == CollapseFrom(body, Outside, false)
    {
      var line := body[i];
      ghost var scan0 := scan;
      CollapseStep(body, i, scan, previousBlank, result);
      if scan.Inside? {
        result := result + [line];
        if ClosesFence(line, scan.fence) {
          scan := Outside;
        }
        previousBlank := false;
      } else if FenceStart(line).Some? {
        result := result + [line];
        scan := Inside(FenceStart(line).value);
        previousBlank := false;
      } else if IsBlank(line) {
        if !previousBlank {
          result := result + [line];
        }
        previousBlank := true;
      } else {
        previousBlank := false;
        result := result + [line];
      }
      assert scan == Advance(scan0, line);
      assert previousBlank == (LabelOf(scan0, line).Plain? && IsBlank(line));
    }
    assert body[|body|..] == [] && result == CollapseFrom(body, Outside, false) == Collapse(lines);
    text := Join(result);
  }

  /** Collapsing commutes with labelling: no surviving line changes sides of a fence. */
  lemma {:induction false} CollapseKeepsLabels(lines: seq<string>, scan: Scan, afterBlank: bool)
    ensures Labelled(CollapseFrom(lines, scan, afterBlank), scan) == CollapseLabelled(Labelled(lines, scan), afterBlank)
    decreases |lines|
  {
    if lines != [] {
      var line := lines[0];
      var plainBlank := LabelOf(scan, line).Plain? && IsBlank(line);
      var rest := CollapseFrom(lines[1..], Advance(scan, line), plainBlank);
      CollapseKeepsLabels(lines[1..], Advance(scan, line), plainBlank);
      assert Labelled(lines, scan)[1..] == Labelled(lines[1..], Advance(scan, line));
      if plainBlank && afterBlank {
        assert CollapseFrom(lines, scan, afterBlank) == rest;
      } else {
        assert CollapseFrom(lines, scan, afterBlank)[1..] == rest;
      }
    }
  }

  lemma {:induction false} CollapseFromIdempotent(lines: seq<string>, scan: Scan, afterBlank: bool)
    ensures CollapseFrom(CollapseFrom(lines, scan, afterBlank), scan, afterBlank) ==
              CollapseFrom(lines, scan, afterBlank)
    decreases |lines|
  {
    if lines != [] {
      var line := lines[0];
      var plainBlank := LabelOf(scan, line).Plain? && IsBlank(line);
      var rest := CollapseFrom(lines[1..], Advance(scan, line), plainBlank);
      CollapseFromIdempotent(lines[1..], Advance(scan, line), plainBlank);
      if plainBlank && afterBlank {
        assert CollapseFrom(lines, scan, afterBlank) == rest;
        assert Advance(scan, line) == scan;
      } else {
        assert ([line] + rest)[1..] == rest;
      }
    }
  }

  predicate Tight(lines: seq<string>) {
    lines != [] ==> !IsBlank(lines[0]) && !IsBlank(lines[|lines| - 1])
  }

  lemma {:induction false} DropBlankEndFacts(lines: seq<string>)
    ensures var r := DropBlankEnd(lines);
            && |r| <= |lines| && r == lines[..|r|]
            && (r != [] ==> !IsBlank(r[|r| - 1]))
            && (forall i :: |r| <= i < |lines| ==> IsBlank(lines[i]))
  {
    if lines != [] && IsBlank(lines[|lines| - 1]) {
      DropBlankEndFacts(lines[..|lines| - 1]);
    }
  }

  lemma {:induction false} DropBlankStartFacts(lines: seq<string>)
    ensures var r := DropBlankStart(lines);
            && |r| <= |lines| && r == lines[|lines| - |r|..]
            && (r != [] ==> !IsBlank(r[0]))
            && (forall i :: 0 <= i < |lines| - |r| ==> IsBlank(lines[i]))
  {
    if lines != [] && IsBlank(lines[0]) {
      DropBlankStartFacts(lines[1..]);
    }
  }

  lemma TrimLinesIsTight(lines: seq<string>)
    ensures Tight(TrimLines(lines))
    ensures Tight(lines) ==> TrimLines(lines) == lines
  {
    DropBlankStartFacts(lines);
    DropBlankEndFacts(DropBlankStart(lines));
  }

  /** Both ends of a tight text survive collapsing. */
  lemma {:induction false} CollapseKeepsEnds(lines: seq<string>, scan: Scan, afterBlank: bool)
    requires lines != [] && !IsBlank(lines[|lines| - 1])
    ensures var r := CollapseFrom(lines, scan, afterBlank);
            && r != [] && r[|r| - 1] == lines[|lines| - 1]
            && (!IsBlank(lines[0]) ==> r[0] == lines[0])
    decreases |lines|
  {
    if |lines| > 1 {
      CollapseKeepsEnds(lines[1..], Advance(scan, lines[0]), LabelOf(scan, lines[0]).Plain? && IsBlank(lines[0]));
    }
  }

  /** Collapsing twice is collapsing once. */
  lemma CollapseIdempotent(lines: seq<string>)
    ensures Collapse(Collapse(lines)) == Collapse(lines)
  {
    var body := TrimLines(lines);
    TrimLinesIsTight(lines);
    if body != [] {
      CollapseKeepsEnds(body, Outside, false);
    }
    TrimLinesIsTight(Collapse(lines));
    CollapseFromIdempotent(body, Outside, false);
  }

  /** The same for the text that is passed on, which is split into lines again. */
  lemma CollapsedTextIsStable(lines: seq<string>)
    requires Lines(lines)
    ensures Join(Collapse(Split(Join(Collapse(lines))))) == Join(Collapse(lines))
  {
    if Collapse(lines) == [] {
      assert DropBlankStart([""]) == DropBlankStart([""][1..]);
    } else {
      CollapseGivesLines(lines);
      SplitJoin(Collapse(lines));
      CollapseIdempotent(lines);
    }
  }

  /** Trimming the outer blank lines and collapsing the inner ones leaves every label as it was. */
  lemma CollapseKeepsFences(lines: seq<string>)
    ensures Labelled(Collapse(lines), Outside) == CollapseLabelled(Labelled(TrimLines(lines), Outside), false)
    ensures exists first, last :: 0 <= first <= last <= |lines| == |Labelled(lines, Outside)|
              && TrimLines(lines) == lines[first..last]
              && Labelled(TrimLines(lines), Outside) == Labelled(lines, Outside)[first..last]
  {
    CollapseKeepsLabels(TrimLines(lines), Outside, false);
    DropBlankStartFacts(lines);
    DropBlankEndFacts(DropBlankStart(lines));
    var start := DropBlankStart(lines);
    var first := |lines| - |start|;
    var last := first + |TrimLines(lines)|;
    LabelledBlankStart(lines, first);
    LabelledPrefix(start, |TrimLines(lines)|, Outside);
    assert lines[first..] == start && TrimLines(lines) == lines[first..last];
    assert Labelled(lines, Outside)[first..last] == Labelled(start, Outside)[..last - first];
  }

  lemma {:induction false} LabelledPrefix(lines: seq<string>, n: nat, scan: Scan)
    requires n <= |lines|
    ensures |Labelled(lines, scan)| == |lines| && Labelled(lines[..n], scan) == Labelled(lines, scan)[..n]
    decreases |lines|
  {
    if lines != [] {
      LabelledPrefix(lines[1..], if n > 0 then n - 1 else 0, Advance(scan, lines[0]));
      if n > 0 {
        assert lines[..n][1..] == lines[1..][..n - 1];
      }
    }
  }

  /** Blank lines before the text neither open a fence nor shift a label. */
  lemma {:induction false} LabelledBlankStart(lines: seq<string>, n: nat)
    requires n <= |lines| && forall i :: 0 <= i < n ==> IsBlank(lines[i])
    ensures |Labelled(lines, Outside)| == |lines| && Labelled(lines[n..], Outside) == Labelled(lines, Outside)[n..]
  {
    LabelledPrefix(lines, 0, Outside);
    if n > 0 {
      BlankIsNoFence(lines[0]);
      LabelledBlankStart(lines[1..], n - 1);
      assert lines[1..][n - 1..] == lines[n..];
      assert Labelled(lines, Outside)[n..] == Labelled(lines[1..], Outside)[n - 1..];
    }
  }

  lemma {:induction false} BlankIsNoFence(line: string)
    requires IsBlank(line)
    ensures FenceStart(line).None?
  {
    if line != "" && (line[0] == ' ' || line[0] == '\t') {
      BlankIsNoFence(line[1..]);
    }
  }

  lemma {:induction false} CollapseFromMembers(lines: seq<string>, scan: Scan, afterBlank: bool)
    ensures forall line :: line in CollapseFrom(lines, scan, afterBlank) ==> line in lines
    decreases |lines|
  {
    if lines != [] {
      CollapseFromMembers(lines[1..], Advance(scan, lines[0]), LabelOf(scan, lines[0]).Plain? && IsBlank(lines[0]));
    }
  }

  lemma CollapseGivesLines(lines: seq<string>)
    requires Lines(lines)
    ensures Lines(Collapse(lines))
  {
    DropBlankStartFacts(lines);
    DropBlankEndFacts(DropBlankStart(lines));
    CollapseFromMembers(TrimLines(lines), Outside, false);
    forall i | 0 <= i < |Collapse(lines)| ensures OneLine(Collapse(lines)[i]) {
      assert Collapse(lines)[i] in TrimLines(lines);
    }
  }
}
