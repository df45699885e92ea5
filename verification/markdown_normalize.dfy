/** NormalizeMarkdown: line ends, front matter, and cleaning of the lines outside fenced code. */
module MarkdownNormalize {
  import opened Basics
  import opened TextLines
  import opened MarkdownBlocks

  // ----- line ends and front matter -----

  /** "\r\n" becomes "\n", then every "\r" left becomes "\n". */
  function CrLfToLf(s: string): string {
    if |s| < 2 then s
    else if s[0] == '\r' && s[1] == '\n' then "\n" + CrLfToLf(s[2..])
    else [s[0]] + CrLfToLf(s[1..])
  }

  function CrToLf(s: string): string {
    if s == "" then "" else [if s[0] == '\r' then '\n' else s[0]] + CrToLf(s[1..])
  }

  const BYTE_ORDER_MARK := '\U{FEFF}'

  function WithoutMark(line: string): string {
    if line != "" && line[0] == BYTE_ORDER_MARK then line[1..] else line
  }

  predicate EndsFrontMatter(line: string) {
    Trim(line) == "---" || Trim(line) == "..."
  }

  /** How many of the lines come before the first closing marker. */
  function ClosingAt(lines: seq<string>): (n: nat)
    ensures n <= |lines|
    ensures n < |lines| ==> EndsFrontMatter(lines[n])
    ensures forall i :: 0 <= i < n ==> !EndsFrontMatter(lines[i])
  {
    if lines == [] || EndsFrontMatter(lines[0]) then 0 else 1 + ClosingAt(lines[1..])
  }

  /** Front matter is dropped only when it is opened on the first line and closed later; an unclosed one stays. */
  function Body(lines: seq<string>): seq<string>
    requires lines != []
  {
    var close := 1 + ClosingAt(lines[1..]);
    var marked := lines[0 := WithoutMark(lines[0])];
    if Trim(marked[0]) == "---" && close < |lines| then lines[close + 1..] else marked
  }

  method StripFrontMatter(lines: seq<string>) returns (body: seq<string>)
    requires lines != []
    ensures body == Body(lines)
  {
    var marked := lines[0 := WithoutMark(lines[0])];
    if Trim(marked[0]) != "---" {
      return marked;
    }
    for index := 1 to |marked|
      invariant forall i :: 1 <= i < index ==> !EndsFrontMatter(lines[i])
    {
      if EndsFrontMatter(marked[index]) {
        assert lines[1..][index - 1] == lines[index];
        return marked[index + 1..];
      }
    }
    body := marked;
  }

  // ----- one line of ordinary text -----

  function IndexOf(s: string, c: char): (n: nat)
    ensures n <= |s| && (n < |s| ==> s[n] == c)
  {
    if s == "" || s[0] == c then 0 else 1 + IndexOf(s[1..], c)
  }

  /** The length of the image ![...](...) the text starts with, if it does. */
  function ImageLength(s: string): (n: Option<nat>)
    ensures n.Some? ==> 0 < n.value <= |s|
  {
    if |s| < 2 || s[..2] != "![" then None
    else
      var close := 2 + IndexOf(s[2..], ']');
      if close + 1 >= |s| || s[close + 1] != '(' then None
      else
        var end := close + 2 + IndexOf(s[close + 2..], ')');
        if end >= |s| then None else Some(end + 1)
  }

  function RemoveImages(s: string): string
    decreases |s|
  {
    if s == "" then ""
    else if ImageLength(s).Some? then RemoveImages(s[ImageLength(s).value..])
    else [s[0]] + RemoveImages(s[1..])
  }

  predicate IsGap(c: char) {
    c == ' ' || c == '\t'
  }

  /** Every run of spaces and tabs becomes one space. */
  function Squeeze(s: string, inGap: bool): string {
    if s == "" then ""
    else if IsGap(s[0]) then (if inGap then "" else " ") + Squeeze(s[1..], true)
    else [s[0]] + Squeeze(s[1..], false)
  }

  function TrimRight(s: string): (r: string)
    ensures r <= s && (r != "" ==> r[|r| - 1] != ' ')
  {
    if s != "" && s[|s| - 1] == ' ' then TrimRight(s[..|s| - 1]) else s
  }

  function Clean(line: string): string {
    TrimRight(Squeeze(RemoveImages(line), false))
  }

  /** No tab, no two spaces in a row, no space at the end. */
  predicate Tidy(s: string) {
    && '\t' !in s
    && (forall i :: 0 <= i < |s| - 1 ==> !(s[i] == ' ' && s[i + 1] == ' '))
    && (s != "" ==> s[|s| - 1] != ' ')
  }

  lemma {:induction false} SqueezeFacts(s: string, inGap: bool)
    ensures var r := Squeeze(s, inGap);
            && '\t' !in r && (inGap && r != "" ==> r[0] != ' ')
            && (forall i :: 0 <= i < |r| - 1 ==> !(r[i] == ' ' && r[i + 1] == ' '))
            && (forall c :: c in r ==> c == ' ' || c in s)
  {
    if s != "" {
      SqueezeFacts(s[1..], IsGap(s[0]));
    }
  }

  lemma {:induction false} SqueezeFixes(s: string, inGap: bool)
    requires '\t' !in s && (inGap && s != "" ==> s[0] != ' ')
    requires forall i :: 0 <= i < |s| - 1 ==> !(s[i] == ' ' && s[i + 1] == ' ')
    ensures Squeeze(s, inGap) == s
  {
    if s != "" {
      SqueezeFixes(s[1..], IsGap(s[0]));
    }
  }

  lemma {:induction false} RemoveImagesKeepsChars(s: string)
    ensures forall c :: c in RemoveImages(s) ==> c in s
    decreases |s|
  {
    if s != "" {
      RemoveImagesKeepsChars(if ImageLength(s).Some? then s[ImageLength(s).value..] else s[1..]);
    }
  }

  /** Cleaning gives a tidy line, leaves a tidy line without image alone, and adds no character but spaces. */
  lemma CleanIsTidy(line: string)
    ensures Tidy(Clean(line))
    ensures Tidy(line) && RemoveImages(line) == line ==> Clean(line) == line
    ensures forall c :: c in Clean(line) ==> c == ' ' || c in line
  {
    SqueezeFacts(RemoveImages(line), false);
    RemoveImagesKeepsChars(line);
    if Tidy(line) && RemoveImages(line) == line {
      SqueezeFixes(line, false);
    }
  }

  function Image(name: string, target: string): string {
    "![" + name + "](" + target + ")"
  }

  lemma {:induction false} FirstIndex(s: string, c: char, n: nat)
    requires n < |s| && s[n] == c && forall i :: 0 <= i < n ==> s[i] != c
    ensures IndexOf(s, c) == n
  {
    if n > 0 {
      FirstIndex(s[1..], c, n - 1);
    }
  }

  lemma {:induction false} NoImages(s: string)
    requires '!' !in s
    ensures RemoveImages(s) == s
  {
    if s != "" {
      NoImages(s[1..]);
    }
  }

  lemma TidyStays(s: string)
    requires Tidy(s)
    ensures TrimRight(Squeeze(s, false)) == s
  {
    SqueezeFixes(s, false);
  }

  lemma ImageParts(name: string, target: string, rest: string)
    ensures var s := Image(name, target) + rest;
            && s[..2] == "![" && s[2..] == name + ("](" + target + ")" + rest)
            && s[|name| + 4..] == target + (")" + rest)
            && s[|name| + |target| + 5..] == rest
            && s[|name| + 2] == ']' && s[|name| + 3] == '(' && s[|name| + |target| + 4] == ')'
            && |s| >= |name| + |target| + 5
  {
  }

  lemma RemoveImage(name: string, target: string, rest: string)
    requires ']' !in name && ')' !in target
    ensures RemoveImages(Image(name, target) + rest) == RemoveImages(rest)
  {
    ImageParts(name, target, rest);
    FirstIndex(name + ("](" + target + ")" + rest), ']', |name|);
    FirstIndex(target + (")" + rest), ')', |target|);
    assert ImageLength(Image(name, target) + rest) == Some(|name| + |target| + 5);
  }

  /** "[name](target)": an image without its first character. */
  function Tail(name: string, target: string): string {
    "[" + name + "](" + target + ")"
  }

  lemma TailFacts(name: string, target: string)
    ensures "!" + Tail(name, target) == Image(name, target)
    ensures '!' !in name + target ==> '!' !in Tail(name, target)
    ensures Image(name, target) + "" == Image(name, target)
  {
  }

  /** Removing an image can leave a new one behind, so cleaning is not idempotent: "!![a](b)[c](d)". */
  lemma RemovalIsNotFinal(name: string, target: string, name': string, target': string)
    requires ']' !in name && ')' !in target && ']' !in name' && ')' !in target' && '!' !in name' + target'
    ensures RemoveImages("!" + (Image(name, target) + Tail(name', target'))) == Image(name', target')
    ensures RemoveImages(Image(name', target')) == ""
  {
    TailFacts(name', target');
    NotAnImage(Image(name, target) + Tail(name', target'));
    RemoveImage(name, target, Tail(name', target'));
    NoImages(Tail(name', target'));
    RemoveImage(name', target', "");
  }

  lemma NotAnImage(s: string)
    requires s != "" && s[0] == '!'
    ensures RemoveImages("!" + s) == "!" + RemoveImages(s)
  {
    var t := "!" + s;
    assert t[..2][1] == '!' && t[1..] == s;
    assert ImageLength(t).None?;
  }

  // ----- all lines -----

  function NormalFrom(lines: seq<string>, scan: Scan): seq<string>
    decreases |lines|
  {
    if lines == [] then []
    else [if LabelOf(scan, lines[0]).Plain? then Clean(lines[0]) else lines[0]]
           + NormalFrom(lines[1..], Advance(scan, lines[0]))
  }

  function NormalLines(content: string): seq<string> {
    NormalFrom(Body(Split(CrToLf(CrLfToLf(content)))), Outside)
  }

  function NormalText(content: string): string {
    Join(Collapse(NormalLines(content)))
  }

  lemma NormalStep(lines: seq<string>, i: nat, scan: Scan, done: seq<string>)
    requires i < |lines|
    ensures done + NormalFrom(lines[i..], scan)
            == done + [if LabelOf(scan, lines[i]).Plain? then Clean(lines[i]) else lines[i]]
               + NormalFrom(lines[i + 1..], Advance(scan, lines[i]))
  {
    assert lines[i..][1..] == lines[i + 1..];
    var line := if LabelOf(scan, lines[i]).Plain? then Clean(lines[i]) else lines[i];
    Assoc(done, [line], NormalFrom(lines[i + 1..], Advance(scan, lines[i])));
  }

  method NormalizeMarkdown(content: string) returns (text: string)
    ensures text == NormalText(content)
  {
    var lines := StripFrontMatter(Split(CrToLf(CrLfToLf(content))));
    var normalized: seq<string> := [];
    var scan := Outside;
    for i := 0 to |lines|
      invariant normalized + NormalFrom(lines[i..], scan) == NormalFrom(lines, Outside)
    {
      var line := lines[i];
      NormalStep(lines, i, scan, normalized);
      if scan.Inside? {
        normalized := normalized + [line];
        if ClosesFence(line, scan.fence) {
          scan := Outside;
        }
      } else if FenceStart(line).Some? {
        normalized := normalized + [line];
        scan := Inside(FenceStart(line).value);
      } else {
        normalized := normalized + [Clean(line)];
      }
    }
    assert lines[|lines|..] == [] && normalized + [] == normalized;
    text := CollapseOuterBlankLines(normalized);
  }

  /** Fence lines and everything between them come through verbatim; only ordinary lines are cleaned. */
  lemma {:induction false} CodeIsVerbatim(lines: seq<string>, scan: Scan, i: nat)
    requires i < |lines|
    ensures |NormalFrom(lines, scan)| == |lines| == |Labelled(lines, scan)|
    ensures NormalFrom(lines, scan)[i] == if Labelled(lines, scan)[i].1.Plain? then Clean(lines[i]) else lines[i]
    decreases |lines|
  {
    if |lines| > 1 {
      CodeIsVerbatim(lines[1..], Advance(scan, lines[0]), if i > 0 then i - 1 else 0);
    }
  }

  function Labels(lines: seq<string>, scan: Scan): seq<Label>
    decreases |lines|
  {
    if lines == [] then [] else [LabelOf(scan, lines[0])] + Labels(lines[1..], Advance(scan, lines[0]))
  }

  /** No ordinary line turns into the opening of a fence when it is cleaned. */
  predicate NoNewFence(lines: seq<string>, scan: Scan)
    decreases |lines|
  {
    lines == [] ||
      (&& (LabelOf(scan, lines[0]).Plain? ==> FenceStart(Clean(lines[0])).None?)
       && NoNewFence(lines[1..], Advance(scan, lines[0])))
  }

  /** The later passes see the same fences as the first one exactly when cleaning makes no new fence line. */
  lemma {:induction false} FencesAgreeIff(lines: seq<string>, scan: Scan)
    ensures Labels(NormalFrom(lines, scan), scan) == Labels(lines, scan) <==> NoNewFence(lines, scan)
    decreases |lines|
  {
    if lines != [] {
      var line := if LabelOf(scan, lines[0]).Plain? then Clean(lines[0]) else lines[0];
      var rest := NormalFrom(lines[1..], Advance(scan, lines[0]));
      FencesAgreeIff(lines[1..], Advance(scan, lines[0]));
      assert NormalFrom(lines, scan)[1..] == rest;
      if LabelOf(scan, line) == LabelOf(scan, lines[0]) {
        assert Advance(scan, line) == Advance(scan, lines[0]);
        LabelsOfCons(line, rest, scan);
        LabelsOfCons(lines[0], lines[1..], scan);
      } else {
        assert Labels(NormalFrom(lines, scan), scan)[0] != Labels(lines, scan)[0];
      }
    }
  }

  lemma LabelsOfCons(line: string, rest: seq<string>, scan: Scan)
    ensures Labels([line] + rest, scan)[0] == LabelOf(scan, line)
    ensures Labels([line] + rest, scan)[1..] == Labels(rest, Advance(scan, line))
  {
    assert ([line] + rest)[1..] == rest;
  }

  lemma {:induction false} RunOf(s: string, c: char)
    requires forall i :: 0 <= i < |s| ==> s[i] == c
    ensures RunLength(s, c) == |s|
  {
    if s != "" {
      RunOf(s[1..], c);
    }
  }

  lemma BackquotesOpen()
    ensures FenceStart("```").Some?
  {
    RunOf("```", '`');
    assert Unindent("```") == "```";
  }

  /** It can happen: an image in front of three backquotes hides a fence from the first pass only. */
  lemma HiddenFenceExample()
    ensures var line := Image("a", "b") + "```"; FenceStart(line).None? && FenceStart(Clean(line)).Some?
  {
    RemoveImage("a", "b", "```");
    NoImages("```");
    TidyStays("```");
    BackquotesOpen();
  }

  lemma {:induction false} NormalGivesLines(lines: seq<string>, scan: Scan)
    requires Lines(lines)
    ensures Lines(NormalFrom(lines, scan))
    decreases |lines|
  {
    if lines != [] {
      CleanIsTidy(lines[0]);
      NormalGivesLines(lines[1..], Advance(scan, lines[0]));
    }
  }

  /** The text handed to the block cutter has exactly the collapsed lines; collapsing it again changes nothing. */
  lemma NormalTextLines(content: string)
    ensures Collapse(NormalLines(content)) != [] ==> Split(NormalText(content)) == Collapse(NormalLines(content))
    ensures Join(Collapse(Split(NormalText(content)))) == NormalText(content)
  {
    var raw := Split(CrToLf(CrLfToLf(content)));
    SplitGivesLines(CrToLf(CrLfToLf(content)));
    assert Lines(Body(raw));
    NormalGivesLines(Body(raw), Outside);
    CollapseGivesLines(NormalLines(content));
    CollapsedTextIsStable(NormalLines(content));
    if Collapse(NormalLines(content)) != [] {
      SplitJoin(Collapse(NormalLines(content)));
    }
  }
}
