/** SQL LIKE with escape character '!', and the escaping of user text for it. */
module LikePatterns {
  import opened TextLines

  /** The weight a collation gives a character: two characters are the same to it when their weights are. */
  type Collation = char -> int

  predicate Same(s: string, t: string, w: Collation) {
    |s| == |t| && forall i :: 0 <= i < |s| ==> w(s[i]) == w(t[i])
  }

  /**
   s LIKE p ESCAPE '!'. The escape character takes the next one literally; alone at the end it is itself.
   An underscore stands for one character, a percent sign for any number.
   */
  predicate Like(s: string, p: string, w: Collation)
    decreases |p|, |s|
  {
    if p == "" then s == ""
    else if p[0] == '!' && |p| > 1 then s != "" && w(s[0]) == w(p[1]) && Like(s[1..], p[2..], w)
    else if p[0] == '_' then s != "" && Like(s[1..], p[1..], w)
    else if p[0] == '%' then Like(s, p[1..], w) || (s != "" && Like(s[1..], p, w))
    else s != "" && w(s[0]) == w(p[0]) && Like(s[1..], p[1..], w)
  }

  predicate IsSpecial(c: char) {
    c == '!' || c == '%' || c == '_'
  }

  function Escaped(value: string): string {
    if value == "" then ""
    else (if IsSpecial(value[0]) then "!" else "") + [value[0]] + Escaped(value[1..])
  }

  lemma EscapeStep(value: string, i: nat, text: string)
    requires i < |value|
    ensures text + Escaped(value[i..]) ==
              (if IsSpecial(value[i]) then text + "!" else text) + [value[i]] + Escaped(value[i + 1..])
  {
    assert value[i..][0] == value[i] && value[i..][1..] == value[i + 1..];
    var mark := if IsSpecial(value[i]) then "!" else "";
    assert text + mark == if IsSpecial(value[i]) then text + "!" else text;
    assert text + (mark + [value[i]] + Escaped(value[i + 1..])) == text + mark + [value[i]] + Escaped(value[i + 1..]);
  }

  method EscapeLike(value: string) returns (text: string)
    ensures text == Escaped(value)
  {
    text := "";
    for i := 0 to |value|
      invariant text + Escaped(value[i..]) == Escaped(value)
    {
      EscapeStep(value, i, text);
      if IsSpecial(value[i]) {
        text := text + "!";
      }
      text := text + [value[i]];
    }
    assert value[|value|..] == "" && text + "" == text;
  }

  /** Escaped text followed by any pattern matches that text, literally, followed by what the pattern matches. */
  lemma {:induction false} EscapedThen(value: string, p: string, s: string, w: Collation)
    ensures Like(s, Escaped(value) + p, w) <==>
              |value| <= |s| && Same(s[..|value|], value, w) && Like(s[|value|..], p, w)
    decreases |value|
  {
    if value == "" {
      assert Escaped(value) + p == p && s[0..] == s;
    } else {
      EscapedHead(value, p, s, w);
      if s != "" {
        EscapedThen(value[1..], p, s[1..], w);
        if |value| <= |s| {
          assert s[..|value|][1..] == s[1..][..|value| - 1] && s[|value|..] == s[1..][|value| - 1..];
        }
      }
    }
  }

  lemma EscapedHead(value: string, p: string, s: string, w: Collation)
    requires value != ""
    ensures Like(s, Escaped(value) + p, w) <==>
              s != "" && w(s[0]) == w(value[0]) && Like(s[1..], Escaped(value[1..]) + p, w)
  {
    var rest := Escaped(value[1..]) + p;
    if IsSpecial(value[0]) {
      TakenLiterally(value[0], rest, s, w);
      assert Escaped(value) + p == "!" + [value[0]] + rest;
    } else {
      assert Escaped(value) + p == [value[0]] + rest;
    }
  }

  lemma TakenLiterally(c: char, rest: string, s: string, w: Collation)
    ensures Like(s, "!" + [c] + rest, w) <==> s != "" && w(s[0]) == w(c) && Like(s[1..], rest, w)
  {
    var q := "!" + [c] + rest;
    assert q[0] == '!' && q[1] == c && q[2..] == rest;
  }

  /** Escaped text alone matches the text itself and nothing else: no character of it acts as a wildcard. */
  lemma EscapedMatchesItself(value: string, s: string, w: Collation)
    ensures Like(s, Escaped(value), w) <==> Same(s, value, w)
  {
    EscapedThen(value, "", s, w);
    assert Escaped(value) + "" == Escaped(value);
    if |value| == |s| {
      assert s[..|value|] == s;
    }
  }

  lemma {:induction false} PercentIsAnySuffix(p: string, s: string, w: Collation)
    ensures Like(s, "%" + p, w) <==> exists k :: 0 <= k <= |s| && Like(s[k..], p, w)
    decreases |s|
  {
    var q := "%" + p;
    assert q[1..] == p && s[0..] == s;
    if s != "" {
      PercentIsAnySuffix(p, s[1..], w);
      if Like(s[1..], q, w) {
        var k :| 0 <= k <= |s| - 1 && Like(s[1..][k..], p, w);
        assert s[1..][k..] == s[k + 1..];
      }
      if k :| 1 <= k <= |s| && Like(s[k..], p, w) {
        assert s[1..][k - 1..] == s[k..];
      }
    }
  }

  lemma PercentAlone(s: string, w: Collation)
    ensures Like(s, "%", w)
  {
    PercentIsAnySuffix("", s, w);
    assert "%" + "" == "%" && s[|s|..] == "";
  }

  predicate OccursAt(value: string, s: string, i: nat, w: Collation) {
    i + |value| <= |s| && Same(s[i..i + |value|], value, w)
  }

  /** The title search: exactly the titles that contain the text. */
  lemma ContainsIff(value: string, s: string, w: Collation)
    ensures Like(s, "%" + Escaped(value) + "%", w) <==> exists i: nat :: OccursAt(value, s, i, w)
  {
    PercentIsAnySuffix(Escaped(value) + "%", s, w);
    assert "%" + (Escaped(value) + "%") == "%" + Escaped(value) + "%";
    forall k | 0 <= k <= |s| ensures Like(s[k..], Escaped(value) + "%", w) <==> OccursAt(value, s, k, w) {
      EscapedThen(value, "%", s[k..], w);
      if k + |value| <= |s| {
        assert s[k..][..|value|] == s[k..k + |value|];
        PercentAlone(s[k..][|value|..], w);
      }
    }
  }

  /** The slug family of a base: exactly the slugs that start with the base and a dash. */
  lemma FamilyIff(base: string, s: string, w: Collation)
    ensures Like(s, Escaped(base) + "-%", w) <==> |base| < |s| && Same(s[..|base| + 1], base + "-", w)
  {
    EscapedThen(base + "-", "%", s, w);
    EscapedAppend(base, "-");
    assert Escaped("-") == "-" + Escaped("");
    assert Escaped(base) + "-%" == Escaped(base + "-") + "%";
    if |base| < |s| {
      PercentAlone(s[|base| + 1..], w);
    }
  }

  lemma {:induction false} EscapedAppend(a: string, b: string)
    ensures Escaped(a + b) == Escaped(a) + Escaped(b)
  {
    if a == "" {
      assert a + b == b;
    } else {
      EscapedAppend(a[1..], b);
      ConsAppend(a, b);
      Assoc((if IsSpecial(a[0]) then "!" else "") + [a[0]], Escaped(a[1..]), Escaped(b));
    }
  }

  /** Without escaping the same query would match more: an underscore would stand for any character. */
  lemma UnescapedMatchesMore(s: string, w: Collation)
    requires |s| == 1
    ensures Like(s, "_", w) && (Like(s, Escaped("_"), w) <==> w(s[0]) == w('_'))
  {
    assert "_"[1..] == "" && s[1..] == "";
    EscapedMatchesItself("_", s, w);
  }

  /** An underscore takes exactly one character, and the rest has to match the rest. */
  lemma UnderscoreIsOne(s: string, p: string, w: Collation)
    ensures Like(s, "_" + p, w) <==> s != "" && Like(s[1..], p, w)
  {
    assert ("_" + p)[1..] == p;
  }
}
