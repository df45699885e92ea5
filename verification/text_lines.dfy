/** Lines of text: white space as Go's unicode.IsSpace sees it, trimming, splitting and joining. */
module TextLines {

  predicate IsSpace(c: char) {
    || '\t' <= c <= '\r' || c == ' ' || c == '\U{0085}' || c == '\U{00A0}' || c == '\U{1680}'
    || '\U{2000}' <= c <= '\U{200A}' || c == '\U{2028}' || c == '\U{2029}' || c == '\U{202F}' || c == '\U{205F}'
    || c == '\U{3000}'
  }

  predicate IsBlank(s: string) {
    forall i :: 0 <= i < |s| ==> IsSpace(s[i])
  }

  /** How many white-space characters the string starts with. */
  function Lead(s: string): (n: nat)
    ensures n <= |s| && forall i :: 0 <= i < n ==> IsSpace(s[i])
    ensures n < |s| ==> !IsSpace(s[n])
  {
    if s == "" || !IsSpace(s[0]) then 0 else 1 + Lead(s[1..])
  }

  /** Where the trailing white space starts. */
  function End(s: string): (n: nat)
    ensures n <= |s| && forall i :: n <= i < |s| ==> IsSpace(s[i])
    ensures n > 0 ==> !IsSpace(s[n - 1])
  {
    if s == "" || !IsSpace(s[|s| - 1]) then |s| else End(s[..|s| - 1])
  }

  /** strings.TrimSpace */
  function Trim(s: string): string {
    if Lead(s) < End(s) then s[Lead(s)..End(s)] else ""
  }

  lemma TrimBlankIff(s: string)
    ensures Trim(s) == "" <==> IsBlank(s)
    ensures Trim(s) == "" <==> Lead(s) >= End(s)
  {
    if !IsBlank(s) {
      var i :| 0 <= i < |s| && !IsSpace(s[i]);
      assert Lead(s) <= i < End(s);
    }
  }

  /** What Trim returns is determined by its ends: the middle part between blanks whose ends are not blank. */
  lemma TrimIs(s: string, a: nat, b: nat)
    requires a < b <= |s|
    requires forall i :: 0 <= i < a || b <= i < |s| ==> IsSpace(s[i])
    requires !IsSpace(s[a]) && !IsSpace(s[b - 1])
    ensures Lead(s) == a && End(s) == b && Trim(s) == s[a..b]
  {
    assert Lead(s) == a;
    assert End(s) == b;
  }

  lemma Assoc<T>(a: seq<T>, b: seq<T>, c: seq<T>)
    ensures a + (b + c) == a + b + c
  {
  }

  lemma ConsAppend<T>(xs: seq<T>, ys: seq<T>)
    requires xs != []
    ensures xs + ys != [] && (xs + ys)[0] == xs[0] && (xs + ys)[1..] == xs[1..] + ys
  {
  }

  function Split(s: string): (lines: seq<string>)
    ensures |lines| >= 1
  {
    if s == "" then [""]
    else if s[0] == '\n' then [""] + Split(s[1..])
    else
      var rest := Split(s[1..]);
      [[s[0]] + rest[0]] + rest[1..]
  }

  function JoinWith(parts: seq<string>, sep: string): string {
    if |parts| == 0 then ""
    else if |parts| == 1 then parts[0]
    else parts[0] + sep + JoinWith(parts[1..], sep)
  }

  function Join(lines: seq<string>): string {
    JoinWith(lines, "\n")
  }

  predicate OneLine(s: string) {
    '\n' !in s
  }

  predicate Lines(lines: seq<string>) {
    forall i :: 0 <= i < |lines| ==> OneLine(lines[i])
  }

  lemma {:induction false} SplitGivesLines(s: string)
    ensures Lines(Split(s))
  {
    if s != "" {
      SplitGivesLines(s[1..]);
    }
  }

  lemma {:induction false} JoinSplit(s: string)
    ensures Join(Split(s)) == s
  {
    if s != "" {
      JoinSplit(s[1..]);
      var rest := Split(s[1..]);
      if s[0] == '\n' {
        assert ([""] + rest)[1..] == rest;
      } else {
        assert ([[s[0]] + rest[0]] + rest[1..])[1..] == rest[1..];
      }
    }
  }

  lemma {:induction false} SplitLine(line: string, rest: string)
    requires OneLine(line)
    ensures Split(line) == [line]
    ensures Split(line + "\n" + rest) == [line] + Split(rest)
  {
    if line == "" {
      assert line + "\n" + rest == "\n" + rest;
    } else {
      SplitLine(line[1..], rest);
      assert (line + "\n" + rest)[1..] == line[1..] + "\n" + rest;
      assert line == [line[0]] + line[1..];
    }
  }

  /** Lines survive being joined and split again. */
  lemma {:induction false} SplitJoin(lines: seq<string>)
    requires lines != [] && Lines(lines)
    ensures Split(Join(lines)) == lines
  {
    if |lines| == 1 {
      SplitLine(lines[0], "");
    } else {
      SplitJoin(lines[1..]);
      SplitLine(lines[0], Join(lines[1..]));
    }
  }

  lemma {:induction false} JoinAppend(xs: seq<string>, ys: seq<string>, sep: string)
    requires xs != [] && ys != []
    ensures JoinWith(xs + ys, sep) == JoinWith(xs, sep) + sep + JoinWith(ys, sep)
  {
    if |xs| == 1 {
      assert (xs + ys)[1..] == ys;
    } else {
      JoinAppend(xs[1..], ys, sep);
      assert (xs + ys)[1..] == xs[1..] + ys;
    }
  }
}
