/** What NormalizeMarkdown makes of line ends, front matter and ordinary lines, said of the raw text. */
module FrontMatter {
  import opened Basics
  import opened TextLines
  import opened MarkdownBlocks
  import opened MarkdownNormalize

  // ----- line ends -----

  /** Lines with the line ends between them. */
  function Written(lines: seq<string>, ends: seq<string>): string
    requires |lines| == |ends| + 1
  {
    if ends == [] then lines[0] else lines[0] + ends[0] + Written(lines[1..], ends[1..])
  }

  predicate IsLineEnd(end: string) {
    end == "\n" || end == "\r\n" || end == "\r"
  }

  /** Line ends of any kind, but no bare "\r" directly before a "\n", with which it would read as one end. */
  predicate Ended(lines: seq<string>, ends: seq<string>) {
    && |lines| == |ends| + 1
    && (forall i :: 0 <= i < |ends| ==> IsLineEnd(ends[i]))
    && (forall i :: 0 <= i < |lines| ==> '\n' !in lines[i] && '\r' !in lines[i])
    && (forall i :: 0 <= i < |ends| - 1 ==> !(ends[i] == "\r" && lines[i + 1] == "" && ends[i + 1] == "\n"))
  }

  function Unified(s: string): string {
    CrToLf(CrLfToLf(s))
  }

  lemma UnifyEnd(end: string, rest: string)
    requires IsLineEnd(end) && !(end == "\r" && rest != "" && rest[0] == '\n')
    ensures Unified(end + rest) == "\n" + Unified(rest)
  {
    if end == "\r\n" {
      assert (end + rest)[2..] == rest;
      assert ("\n" + CrLfToLf(rest))[1..] == CrLfToLf(rest);
    } else {
      var s := end + rest;
      assert s[1..] == rest && s[0] == end[0];
      assert CrLfToLf(s) == [end[0]] + CrLfToLf(rest) by {
        if rest == "" { assert s == [end[0]]; }
      }
      assert ([end[0]] + CrLfToLf(rest))[1..] == CrLfToLf(rest);
    }
  }

  lemma {:induction false} UnifyLine(line: string, rest: string)
    requires '\r' !in line
    ensures Unified(line + rest) == line + Unified(rest)
  {
    if line == "" {
      assert line + rest == rest;
    } else {
      var s := line + rest;
      assert s[0] == line[0] && s[1..] == line[1..] + rest;
      UnifyLine(line[1..], rest);
      assert CrLfToLf(s) == [line[0]] + CrLfToLf(s[1..]) by {
        if |s| == 1 { assert s[1..] == "" && s == [line[0]]; }
      }
      assert ([line[0]] + CrLfToLf(s[1..]))[1..] == CrLfToLf(s[1..]);
    }
  }

  lemma WrittenStarts(lines: seq<string>, ends: seq<string>)
    requires Ended(lines, ends)
    ensures var s := Written(lines, ends); s != "" && s[0] == '\n' ==> lines[0] == "" && ends != [] && ends[0] == "\n"
  {
    if lines[0] != "" {
      assert Written(lines, ends)[0] == lines[0][0];
    } else if ends != [] {
      assert Written(lines, ends)[0] == ends[0][0];
    }
  }

  /** Whatever line ends a text is written with, the same lines are read. */
  lemma {:induction false} LinesAreRead(lines: seq<string>, ends: seq<string>)
    requires Ended(lines, ends)
    ensures Split(Unified(Written(lines, ends))) == lines
    decreases |ends|
  {
    if ends == [] {
      LastLineIsRead(lines[0]);
      assert lines == [lines[0]];
    } else {
      var rest := Written(lines[1..], ends[1..]);
      LinesAreRead(lines[1..], ends[1..]);
      WrittenStarts(lines[1..], ends[1..]);
      FirstLineIsRead(lines[0], ends[0], rest);
      assert lines == [lines[0]] + lines[1..];
    }
  }

  lemma LastLineIsRead(line: string)
    requires '\n' !in line && '\r' !in line
    ensures Split(Unified(line)) == [line]
  {
    UnifyLine(line, "");
    assert line + "" == line && Unified("") == "";
    SplitLine(line, "");
  }

  lemma FirstLineIsRead(line: string, end: string, rest: string)
    requires '\n' !in line && '\r' !in line && IsLineEnd(end) && !(end == "\r" && rest != "" && rest[0] == '\n')
    ensures Split(Unified(line + end + rest)) == [line] + Split(Unified(rest))
  {
    UnifyLine(line, end + rest);
    UnifyEnd(end, rest);
    Assoc(line, end, rest);
    SplitLine(line, Unified(rest));
    Assoc(line, "\n", Unified(rest));
  }

  // ----- front matter -----

  /** The first line is "---" between white space, a byte order mark before it not counting. */
  predicate Opens(lines: seq<string>)
    requires lines != []
  {
    var first := lines[0];
    Trim(if first != "" && first[0] == '\U{FEFF}' then first[1..] else first) == "---"
  }

  predicate Closing(line: string) {
    Trim(line) == "---" || Trim(line) == "..."
  }

  lemma TailLines(lines: seq<string>)
    requires lines != []
    ensures forall i :: 0 <= i < |lines| - 1 ==> lines[1..][i] == lines[i + 1]
  {
  }

  /** An opened front matter ends at the first line that closes it, and exactly the lines after that remain. */
  lemma FrontMatterIsDropped(lines: seq<string>, close: nat)
    requires lines != [] && Opens(lines)
    requires 1 <= close < |lines| && Closing(lines[close]) && forall i :: 1 <= i < close ==> !Closing(lines[i])
    ensures Body(lines) == lines[close + 1..]
  {
    TailLines(lines);
    assert ClosingAt(lines[1..]) == close - 1;
  }

  /** Without front matter, or with one that is never closed, every line stays in its place; only the mark goes. */
  lemma OtherTextStays(lines: seq<string>)
    requires lines != [] && (!Opens(lines) || forall i :: 1 <= i < |lines| ==> !Closing(lines[i]))
    ensures |Body(lines)| == |lines| && forall i :: 1 <= i < |lines| ==> Body(lines)[i] == lines[i]
    ensures lines[0] != "" && lines[0][0] == '\U{FEFF}' ==> Body(lines)[0] == lines[0][1..]
    ensures lines[0] == "" || lines[0][0] != '\U{FEFF}' ==> Body(lines) == lines
  {
    TailLines(lines);
    assert Opens(lines) ==> ClosingAt(lines[1..]) == |lines| - 1;
  }

  // ----- an ordinary line -----

  predicate AllGaps(s: string) {
    forall i :: 0 <= i < |s| ==> IsGap(s[i])
  }

  predicate NoGap(s: string) {
    forall i :: 0 <= i < |s| ==> !IsGap(s[i])
  }

  /** Text without gaps stays, the gap after it becomes one space, and so on. */
  lemma SqueezeShape(text: string, gap: string, rest: string)
    requires NoGap(text) && AllGaps(gap) && gap != "" && (rest != "" ==> !IsGap(rest[0]))
    ensures Squeeze(text + (gap + rest), false) == text + (" " + Squeeze(rest, false))
  {
    SqueezeText(text, gap + rest);
    SqueezeGap(gap[1..], rest);
    assert (gap + rest)[1..] == gap[1..] + rest;
  }

  lemma {:induction false} SqueezeText(text: string, rest: string)
    requires NoGap(text)
    ensures Squeeze(text + rest, false) == text + Squeeze(rest, false)
  {
    if text == "" {
      assert text + rest == rest && text + Squeeze(rest, false) == Squeeze(rest, false);
    } else {
      assert (text + rest)[0] == text[0] && (text + rest)[1..] == text[1..] + rest;
      SqueezeText(text[1..], rest);
      assert [text[0]] + (text[1..] + Squeeze(rest, false)) == text + Squeeze(rest, false);
    }
  }

  lemma {:induction false} SqueezeGap(gap: string, rest: string)
    requires AllGaps(gap) && (rest != "" ==> !IsGap(rest[0]))
    ensures Squeeze(gap + rest, true) == Squeeze(rest, false)
  {
    if gap == "" {
      assert gap + rest == rest;
    } else {
      assert (gap + rest)[0] == gap[0] && (gap + rest)[1..] == gap[1..] + rest;
      SqueezeGap(gap[1..], rest);
      assert "" + Squeeze(rest, false) == Squeeze(rest, false);
    }
  }

  /** Exactly the spaces at the end go. */
  lemma {:induction false} TrimRightShape(s: string)
    ensures var r := TrimRight(s);
            r <= s && (r != "" ==> r[|r| - 1] != ' ') && forall i :: |r| <= i < |s| ==> s[i] == ' '
  {
    if s != "" && s[|s| - 1] == ' ' {
      TrimRightShape(s[..|s| - 1]);
    }
  }

  lemma NoImageHere(s: string)
    requires s != "" && s[0] != '!'
    ensures RemoveImages(s) == [s[0]] + RemoveImages(s[1..])
  {
    assert |s| >= 2 ==> s[..2][0] == s[0];
  }

  /** An image goes as a whole, and text without '!' before it stays. */
  lemma {:induction false} RemoveShape(text: string, name: string, target: string, rest: string)
    requires '!' !in text && ']' !in name && ')' !in target
    ensures RemoveImages(text + (Image(name, target) + rest)) == text + RemoveImages(rest)
  {
    var image := Image(name, target) + rest;
    if text == "" {
      assert text + image == image && text + RemoveImages(rest) == RemoveImages(rest);
      RemoveImage(name, target, rest);
    } else {
      var s := text + image;
      assert s[0] == text[0] && s[1..] == text[1..] + image;
      NoImageHere(s);
      RemoveShape(text[1..], name, target, rest);
      assert [text[0]] + (text[1..] + RemoveImages(rest)) == text + RemoveImages(rest);
    }
  }
}
