/** Which lines open a fence, which close it, and which are headings: said of the characters of a line. */
module FenceLines {
  import opened Basics
  import opened TextLines
  import opened MarkdownBlocks

  // ----- the shape of a line -----

  /** The same character n times. */
  function Repeated(c: char, n: nat): string {
    seq(n, _ => c)
  }

  predicate Indent(s: string) {
    forall i :: 0 <= i < |s| ==> s[i] == ' ' || s[i] == '\t'
  }

  /** A line as its indentation, a longest run of one other character, and what follows. */
  predicate Shaped(indent: string, c: char, n: nat, rest: string) {
    Indent(indent) && c != ' ' && c != '\t' && n >= 1 && (rest == "" || rest[0] != c)
  }

  function Line(indent: string, c: char, n: nat, rest: string): string {
    indent + (Repeated(c, n) + rest)
  }

  lemma {:induction false} UnindentLine(indent: string, tail: string)
    requires Indent(indent) && (tail == "" || (tail[0] != ' ' && tail[0] != '\t'))
    ensures Unindent(indent + tail) == tail
  {
    if indent == "" {
      assert indent + tail == tail;
    } else {
      assert (indent + tail)[0] == indent[0] && (indent + tail)[1..] == indent[1..] + tail;
      UnindentLine(indent[1..], tail);
    }
  }

  lemma {:induction false} RunOfLine(c: char, n: nat, rest: string)
    requires rest == "" || rest[0] != c
    ensures RunLength(Repeated(c, n) + rest, c) == n
  {
    if n == 0 {
      assert Repeated(c, 0) + rest == rest;
    } else {
      assert (Repeated(c, n) + rest)[0] == c && (Repeated(c, n) + rest)[1..] == Repeated(c, n - 1) + rest;
      RunOfLine(c, n - 1, rest);
    }
  }

  lemma LineParts(indent: string, c: char, n: nat, rest: string)
    requires Shaped(indent, c, n, rest)
    ensures var t := Unindent(Line(indent, c, n, rest));
            && t == Repeated(c, n) + rest && t != "" && t[0] == c && RunLength(t, c) == n && t[n..] == rest
  {
    UnindentLine(indent, Repeated(c, n) + rest);
    RunOfLine(c, n, rest);
  }

  /** Every line has such a shape, unless it is nothing but indentation. */
  lemma {:induction false} LineHasShape(line: string) returns (indent: string, c: char, n: nat, rest: string)
    ensures Indent(line) || (Shaped(indent, c, n, rest) && line == Line(indent, c, n, rest))
  {
    indent, c, n, rest := "", 'x', 1, "";
    if line != "" && (line[0] == ' ' || line[0] == '\t') {
      indent, c, n, rest := LineHasShape(line[1..]);
      indent := [line[0]] + indent;
    } else if line != "" {
      c := line[0];
      n := RunLength(line, c);
      rest := line[n..];
      RunIs(line, c);
      assert line == Repeated(c, n) + rest;
    }
  }

  lemma {:induction false} RunIs(s: string, c: char)
    ensures s[..RunLength(s, c)] == Repeated(c, RunLength(s, c))
    ensures RunLength(s, c) < |s| ==> s[RunLength(s, c)] != c
  {
    if s != "" && s[0] == c {
      RunIs(s[1..], c);
      assert s[..RunLength(s, c)] == [c] + s[1..][..RunLength(s[1..], c)];
    }
  }

  // ----- fences -----

  /** A fence opens with three or more backquotes or tildes, whatever follows them. */
  lemma FenceStartIs(indent: string, c: char, n: nat, rest: string)
    requires Shaped(indent, c, n, rest)
    ensures FenceStart(Line(indent, c, n, rest)) == if (c == '`' || c == '~') && n >= 3 then Some(Fence(c, n)) else None
  {
    LineParts(indent, c, n, rest);
  }

  /** It is closed by at least as many of the same character with nothing but white space after them. */
  lemma ClosesFenceIff(indent: string, c: char, n: nat, rest: string, f: Fence)
    requires Shaped(indent, c, n, rest)
    ensures ClosesFence(Line(indent, c, n, rest), f) <==> c == f.marker && n >= f.length && IsBlank(rest)
  {
    LineParts(indent, c, n, rest);
    if c == f.marker {
      assert Unindent(Line(indent, c, n, rest))[RunLength(Unindent(Line(indent, c, n, rest)), f.marker)..] == rest;
    }
  }

  /** A line of white space does neither. */
  lemma IndentIsNoFence(line: string, f: Fence)
    requires Indent(line)
    ensures FenceStart(line).None? && !ClosesFence(line, f)
  {
    UnindentLine(line, "");
    assert line + "" == line;
  }

  /** So a fence of four backquotes stays open over a line of three. */
  lemma ShorterRunStaysInside(indent: string, c: char, n: nat, m: nat, rest: string)
    requires Shaped(indent, c, n, rest) && n < m
    ensures Advance(Inside(Fence(c, m)), Line(indent, c, n, rest)) == Inside(Fence(c, m))
  {
    ClosesFenceIff(indent, c, n, rest, Fence(c, m));
  }

  /** A line of code is any line from an opening one on, up to and with the first that closes it. */
  lemma {:induction false} InsideUntilClosed(lines: seq<string>, f: Fence, i: nat)
    requires i < |lines| && forall k :: 0 <= k < i ==> !ClosesFence(lines[k], f)
    ensures |Labelled(lines, Inside(f))| == |lines| && Labelled(lines, Inside(f))[i] == (lines[i], Code)
    ensures ScanAll(Inside(f), lines[..i + 1]) == if ClosesFence(lines[i], f) then Outside else Inside(f)
  {
    assert lines[..i + 1][1..] == lines[1..][..i];
    if i > 0 {
      InsideUntilClosed(lines[1..], f, i - 1);
      assert lines[1..][..i - 1 + 1] == lines[1..][..i];
    } else {
      assert lines[1..][..0] == [];
      LabelledLength(lines[1..], Advance(Inside(f), lines[0]));
    }
  }

  lemma {:induction false} LabelledLength(lines: seq<string>, scan: Scan)
    ensures |Labelled(lines, scan)| == |lines|
    decreases |lines|
  {
    if lines != [] {
      LabelledLength(lines[1..], Advance(scan, lines[0]));
    }
  }

  // ----- headings -----

  lemma {:induction false} HashesOfLine(n: nat, rest: string, limit: nat)
    requires rest == "" || rest[0] != '#'
    ensures Hashes(Repeated('#', n) + rest, limit) == if n <= limit then n else limit
  {
    if n > 0 && limit > 0 {
      assert (Repeated('#', n) + rest)[0] == '#' && (Repeated('#', n) + rest)[1..] == Repeated('#', n - 1) + rest;
      HashesOfLine(n - 1, rest, limit - 1);
    } else if n == 0 {
      assert Repeated('#', 0) + rest == rest;
    }
  }

  /** A trimmed line is a heading exactly if it starts with one to six hashes, a space and a title, which is trimmed. */
  lemma HeadingOfIs(n: nat, rest: string)
    requires rest == "" || rest[0] != '#'
    ensures HeadingOf(Repeated('#', n) + rest) ==
              if 1 <= n <= 6 && rest != "" && rest[0] == ' ' && !IsBlank(rest)
              then Some(HeadingLine(n, Trim(rest))) else None
  {
    var line := Repeated('#', n) + rest;
    HashesOfLine(n, rest, 6);
    TrimBlankIff(rest);
    if n <= 6 {
      assert line[n..] == rest;
    } else {
      assert line[6] == '#';
    }
  }
}
