/** From the raw content of an article to its chunks: what is dropped on the way, and that nothing else is. */
module ContentLines {
  import opened TextLines
  import opened MarkdownBlocks
  import opened MarkdownCut
  import opened MarkdownNormalize
  import opened FrontMatter
  import opened LinesInChunks

  // ----- collapsing drops repeated blank lines and nothing else -----

  predicate PlainBlank(line: (string, Label)) {
    line.1.Plain? && IsBlank(line.0)
  }

  /** The first n lines but for each ordinary blank line that comes directly after another. */
  function Thinned(lines: seq<(string, Label)>, n: nat): seq<string>
    requires n <= |lines|
  {
    if n == 0 then []
    else
      Thinned(lines, n - 1)
      + (if n >= 2 && PlainBlank(lines[n - 1]) && PlainBlank(lines[n - 2]) then [] else [lines[n - 1].0])
  }

  lemma {:induction false} LabelledFrom(lines: seq<string>, scan: Scan, i: nat)
    requires i <= |lines|
    ensures |Labelled(lines, scan)| == |lines|
    ensures Labelled(lines, scan)[i..] == Labelled(lines[i..], ScanAll(scan, lines[..i]))
    decreases |lines|
  {
    if i == 0 {
      assert lines[0..] == lines && lines[..0] == [];
      if lines != [] {
        LabelledFrom(lines[1..], Advance(scan, lines[0]), 0);
      }
    } else {
      LabelledFrom(lines[1..], Advance(scan, lines[0]), i - 1);
      assert lines[1..][i - 1..] == lines[i..] && lines[..i][1..] == lines[1..][..i - 1];
    }
  }

  lemma ScanMore(lines: seq<string>, scan: Scan, i: nat)
    requires i < |lines|
    ensures ScanAll(scan, lines[..i + 1]) == Advance(ScanAll(scan, lines[..i]), lines[i])
  {
    ScanAppend(scan, lines[..i], lines[i]);
    assert lines[..i + 1] == lines[..i] + [lines[i]];
  }

  lemma {:induction false} ScanAppend(scan: Scan, lines: seq<string>, line: string)
    ensures ScanAll(scan, lines + [line]) == Advance(ScanAll(scan, lines), line)
    decreases |lines|
  {
    if lines == [] {
      assert lines + [line] == [line] && [line][1..] == [];
    } else {
      assert (lines + [line])[0] == lines[0] && (lines + [line])[1..] == lines[1..] + [line];
      ScanAppend(Advance(scan, lines[0]), lines[1..], line);
    }
  }

  lemma {:induction false} ThinnedFrom(lines: seq<string>, scan: Scan, i: nat)
    requires i <= |lines| == |Labelled(lines, scan)|
    ensures var ls := Labelled(lines, scan);
            Thinned(ls, i) + CollapseFrom(lines[i..], ScanAll(scan, lines[..i]), i > 0 && PlainBlank(ls[i - 1]))
            == Thinned(ls, |lines|)
    decreases |lines| - i
  {
    var ls := Labelled(lines, scan);
    if i == |lines| {
      assert lines[i..] == [] && Thinned(ls, i) + [] == Thinned(ls, i);
    } else {
      ThinnedFrom(lines, scan, i + 1);
      LabelledFrom(lines, scan, i);
      ScanMore(lines, scan, i);
      assert lines[i..][0] == lines[i] && lines[i..][1..] == lines[i + 1..];
      assert ls[i] == ls[i..][0] == (lines[i], LabelOf(ScanAll(scan, lines[..i]), lines[i]));
      var rest := CollapseFrom(lines[i + 1..], ScanAll(scan, lines[..i + 1]), PlainBlank(ls[i]));
      if i > 0 && PlainBlank(ls[i - 1]) && PlainBlank(ls[i]) {
        assert [] + rest == rest;
        assert Thinned(ls, i) + [] == Thinned(ls, i);
      } else {
        Assoc(Thinned(ls, i), [lines[i]], rest);
      }
    }
  }

  /** Collapsing takes off the blank lines at both ends, and then each ordinary blank line after another. */
  lemma CollapseThins(lines: seq<string>)
    ensures var ls := Labelled(TrimLines(lines), Outside); Collapse(lines) == Thinned(ls, |ls|)
  {
    var body := TrimLines(lines);
    LabelledFrom(body, Outside, 0);
    ThinnedFrom(body, Outside, 0);
    assert body[0..] == body && body[..0] == [] && [] + Collapse(lines) == Collapse(lines);
  }

  lemma OuterBlankLinesGo(lines: seq<string>) returns (first: nat, last: nat)
    ensures first <= last <= |lines| && TrimLines(lines) == lines[first..last]
    ensures forall i :: 0 <= i < first || last <= i < |lines| ==> IsBlank(lines[i])
    ensures first < last ==> !IsBlank(lines[first]) && !IsBlank(lines[last - 1])
  {
    var start := DropBlankStart(lines);
    DropBlankStartFacts(lines);
    DropBlankEndFacts(start);
    first := |lines| - |start|;
    last := first + |TrimLines(lines)|;
    assert forall i :: 0 <= i < |start| ==> start[i] == lines[first + i];
    forall i | last <= i < |lines| ensures IsBlank(lines[i]) {
      assert start[i - first] == lines[i];
    }
  }

  // ----- collapsing keeps every line with text -----

  lemma {:induction false} CollapseKeepsBody(lines: seq<string>, scan: Scan, afterBlank: bool)
    ensures BodyLines(CollapseFrom(lines, scan, afterBlank), scan) == BodyLines(lines, scan)
    decreases |lines|
  {
    if lines != [] {
      var line := lines[0];
      var blank := LabelOf(scan, line).Plain? && IsBlank(line);
      var rest := CollapseFrom(lines[1..], Advance(scan, line), blank);
      CollapseKeepsBody(lines[1..], Advance(scan, line), blank);
      if blank && afterBlank {
        assert CollapseFrom(lines, scan, afterBlank) == rest && Advance(scan, line) == scan;
        assert [] + BodyLines(lines[1..], scan) == BodyLines(lines[1..], scan);
      } else {
        assert CollapseFrom(lines, scan, afterBlank) == [line] + rest && ([line] + rest)[1..] == rest;
      }
    }
  }

  lemma {:induction false} BlankStartHasNoBody(lines: seq<string>)
    ensures BodyLines(DropBlankStart(lines), Outside) == BodyLines(lines, Outside)
  {
    if lines != [] && IsBlank(lines[0]) {
      BlankIsNoFence(lines[0]);
      BlankStartHasNoBody(lines[1..]);
      assert [] + BodyLines(lines[1..], Outside) == BodyLines(lines[1..], Outside);
    }
  }

  lemma {:induction false} BlankEndHasNoBody(lines: seq<string>, blank: string, scan: Scan)
    requires IsBlank(blank)
    ensures BodyLines(lines + [blank], scan) == BodyLines(lines, scan)
    decreases |lines|
  {
    if lines == [] {
      assert lines + [blank] == [blank] && [blank][1..] == [];
    } else {
      BlankEndHasNoBody(lines[1..], blank, Advance(scan, lines[0]));
      assert (lines + [blank])[0] == lines[0] && (lines + [blank])[1..] == lines[1..] + [blank];
    }
  }

  lemma {:induction false} DropEndKeepsBody(lines: seq<string>, scan: Scan)
    ensures BodyLines(DropBlankEnd(lines), scan) == BodyLines(lines, scan)
  {
    if lines != [] && IsBlank(lines[|lines| - 1]) {
      var front, last := lines[..|lines| - 1], lines[|lines| - 1];
      DropEndKeepsBody(front, scan);
      BlankEndHasNoBody(front, last, scan);
      assert front + [last] == lines;
    }
  }

  /** The lines that have to be kept are the same before and after collapsing. */
  lemma CollapsedBody(lines: seq<string>)
    ensures BodyLines(Collapse(lines), Outside) == BodyLines(lines, Outside)
  {
    BlankStartHasNoBody(lines);
    DropEndKeepsBody(DropBlankStart(lines), Outside);
    CollapseKeepsBody(TrimLines(lines), Outside, false);
  }

  // ----- the whole -----

  /** What is left of the lines of an article: those after its front matter, or all, without a byte order mark. */
  predicate Remains(lines: seq<string>, rest: seq<string>)
    requires lines != []
  {
    if Opens(lines) && exists i :: 1 <= i < |lines| && Closing(lines[i]) then
      exists close :: 1 <= close < |lines| && Closing(lines[close])
        && (forall i :: 1 <= i < close ==> !Closing(lines[i]))
        && rest == lines[close + 1..]
    else
      && |rest| == |lines| && rest[1..] == lines[1..]
      && rest[0] == if lines[0] != "" && lines[0][0] == '\U{FEFF}' then lines[0][1..] else lines[0]
  }

  lemma BodyRemains(lines: seq<string>, rest: seq<string>)
    requires lines != [] && Remains(lines, rest)
    ensures Body(lines) == rest
  {
    if Opens(lines) && exists i :: 1 <= i < |lines| && Closing(lines[i]) {
      var close :| 1 <= close < |lines| && Closing(lines[close]) && (forall i :: 1 <= i < close ==> !Closing(lines[i]))
                   && rest == lines[close + 1..];
      FrontMatterIsDropped(lines, close);
    } else {
      OtherTextStays(lines);
      assert forall i :: 1 <= i < |lines| ==> rest[i] == rest[1..][i - 1] == lines[1..][i - 1] == lines[i];
    }
  }

  /** The cleaned lines: code and fences as they are, ordinary lines cleaned. */
  ghost predicate Cleaned(rest: seq<string>, clean: seq<string>) {
    && |clean| == |rest| == |Labelled(rest, Outside)|
    && forall i :: 0 <= i < |rest| ==>
         clean[i] == if Labelled(rest, Outside)[i].1.Plain? then Clean(rest[i]) else rest[i]
  }

  lemma NormalLinesAre(lines: seq<string>, ends: seq<string>, rest: seq<string>)
    requires Ended(lines, ends) && Remains(lines, rest)
    ensures Cleaned(rest, NormalLines(Written(lines, ends)))
  {
    LinesAreRead(lines, ends);
    BodyRemains(lines, rest);
    LabelledFrom(rest, Outside, 0);
    forall i | 0 <= i < |rest|
      ensures |NormalFrom(rest, Outside)| == |rest|
      ensures NormalFrom(rest, Outside)[i] == if Labelled(rest, Outside)[i].1.Plain? then Clean(rest[i]) else rest[i]
    {
      CodeIsVerbatim(rest, Outside, i);
    }
  }

  /**
   From an article's content, whatever its line ends, to its chunks: after its front matter, if it has one, every
   line is cleaned or, as code, left as it is, and every one of these lines with text, but for headings outside of
   fences, is among the lines of the chunks, in order, up to white space at its ends. An article that gets no
   chunk has no such line.
   */
  lemma ContentIsInTheChunks(lines: seq<string>, ends: seq<string>, rest: seq<string>)
    requires Ended(lines, ends) && Remains(lines, rest)
    ensures var content := Written(lines, ends);
            var clean, text := NormalLines(content), NormalText(content);
            && Cleaned(rest, clean)
            && (text == "" ==> BodyLines(clean, Outside) == [])
            && (text != "" ==> InOrder(Words(BodyLines(clean, Outside)), Words(Split(JoinedChunks(text)))))
  {
    var content := Written(lines, ends);
    NormalLinesAre(lines, ends, rest);
    if NormalText(content) != "" {
      TextIsInTheChunks(content);
    } else {
      EmptyTextHasNoBody(content);
    }
  }

  lemma TextIsInTheChunks(content: string)
    requires NormalText(content) != ""
    ensures InOrder(Words(BodyLines(NormalLines(content), Outside)), Words(Split(JoinedChunks(NormalText(content)))))
  {
    NormalTextLines(content);
    CollapsedBody(NormalLines(content));
    assert Collapse(NormalLines(content)) != [];
    BodyLinesAreInTheChunks(NormalText(content));
  }

  lemma EmptyTextHasNoBody(content: string)
    requires NormalText(content) == ""
    ensures BodyLines(NormalLines(content), Outside) == []
  {
    NormalTextLines(content);
    CollapsedBody(NormalLines(content));
    if Collapse(NormalLines(content)) != [] {
      assert Split("") == [""] && [""][1..] == [];
    }
  }
}
