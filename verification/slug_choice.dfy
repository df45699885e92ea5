/** The slug of an imported article: the first of base, base-2, base-3, ... that one query has not found taken. */
module SlugChoice {
  import opened Basics
  import opened Decimals
  import opened TextLines
  import opened LikePatterns

  const LONGEST: nat := 180
  const TRIES: nat := 100

  // ----- the base -----

  /** strings.Trim(s, "-") */
  function TrimDash(s: string): (r: string)
    ensures |r| <= |s| && (r != "" ==> r[0] != '-' && r[|r| - 1] != '-')
    ensures forall c :: c in r ==> c in s
    decreases |s|
  {
    if s != "" && s[0] == '-' then TrimDash(s[1..])
    else if s != "" && s[|s| - 1] == '-' then TrimDash(s[..|s| - 1])
    else s
  }

  function Lowered(s: string, lower: char -> char): (r: string)
    ensures |r| == |s| && forall i :: 0 <= i < |s| ==> r[i] == lower(s[i])
  {
    seq(|s|, i requires 0 <= i < |s| => lower(s[i]))
  }

  function TrimSlug(value: string, lower: char -> char): string {
    var slug := TrimDash(Lowered(Trim(value), lower));
    if |slug| > LONGEST then TrimDash(slug[..LONGEST]) else slug
  }

  /** What is asked of the lower-casing of characters: once is enough, and plain slugs stay as they are. */
  ghost predicate LowerCases(lower: char -> char) {
    && (forall c :: lower(lower(c)) == lower(c))
    && (forall c :: 'a' <= c <= 'z' || '0' <= c <= '9' || c == '-' ==> lower(c) == c)
  }

  /** A slug that trims to nothing is replaced by one made of the time in seconds. */
  function BaseOf(slug: string, seconds: nat, lower: char -> char): string {
    var base := TrimSlug(slug, lower);
    if base == "" then "article-" + Decimal(seconds) else base
  }

  predicate SpaceAtAnEnd(s: string) {
    s != "" && (IsSpace(s[0]) || IsSpace(s[|s| - 1]))
  }

  // ----- the candidates -----

  function Suffix(i: nat): string {
    "-" + Decimal(i + 1)
  }

  lemma SuffixLength(i: nat)
    requires i < TRIES
    ensures 2 <= |Suffix(i)| <= 4 && (i == 1 ==> |Suffix(i)| == 2) && (i == 99 ==> |Suffix(i)| == 4)
    ensures forall k :: 1 <= k < |Suffix(i)| ==> '0' <= Suffix(i)[k] <= '9'
  {
    DecimalIsDigits(i + 1);
    assert i + 1 >= 10 ==> |Decimal(i + 1)| == |Decimal((i + 1) / 10)| + 1;
    assert i + 1 >= 100 ==> |Decimal((i + 1) / 10)| == |Decimal((i + 1) / 100)| + 1;
    assert forall k :: 1 <= k < |Suffix(i)| ==> Suffix(i)[k] == Decimal(i + 1)[k - 1];
  }

  /** How much of the stem is left in a numbered candidate. */
  function Kept(stem: string, i: nat): int {
    if |stem| + |Suffix(i)| > LONGEST then LONGEST - |Suffix(i)| else |stem|
  }

  /** The stem is the base trimmed once more; it is cut so that the whole stays within 180 characters. */
  function Candidate(base: string, stem: string, i: nat): string
    requires i < TRIES
  {
    if i == 0 then base
    else
      SuffixLength(i);
      stem[..Kept(stem, i)] + Suffix(i)
  }

  // ----- the query and the loop -----

  /** slug = base OR slug LIKE escaped(base)-% */
  predicate InFamily(slug: string, base: string, w: Collation) {
    Same(slug, base, w) || Like(slug, Escaped(base) + "-%", w)
  }

  function TakenByPrefix(slugs: set<string>, base: string, w: Collation): set<string> {
    set s | s in slugs && InFamily(s, base, w)
  }

  function FirstFrom(base: string, stem: string, taken: set<string>, i: nat): Option<string>
    requires i <= TRIES
    decreases TRIES - i
  {
    if i == TRIES then None
    else if Candidate(base, stem, i) !in taken then Some(Candidate(base, stem, i))
    else FirstFrom(base, stem, taken, i + 1)
  }

  function Chosen(base: string, stem: string, slugs: set<string>, w: Collation): Option<string> {
    FirstFrom(base, stem, TakenByPrefix(slugs, base, w), 0)
  }

  /** The candidate of one turn of the loop. */
  method TryNumber(base: string, lower: char -> char, i: nat) returns (candidate: string)
    requires i < TRIES
    ensures candidate == Candidate(base, TrimSlug(base, lower), i)
  {
    candidate := base;
    if i > 0 {
      var suffix := "-" + Decimal(i + 1);
      candidate := TrimSlug(base, lower);
      SuffixLength(i);
      if |candidate| + |suffix| > LONGEST {
        candidate := candidate[..LONGEST - |suffix|];
      }
      assert candidate == TrimSlug(base, lower)[..Kept(TrimSlug(base, lower), i)];
      candidate := candidate + suffix;
    }
  }

  method UniqueArticleSlug(slug: string, seconds: nat, lower: char -> char, slugs: set<string>, w: Collation)
    returns (chosen: Option<string>)
    ensures var base := BaseOf(slug, seconds, lower);
            chosen == Chosen(base, TrimSlug(base, lower), slugs, w)
  {
    var base := TrimSlug(slug, lower);
    if base == "" {
      base := "article-" + Decimal(seconds);
    }
    chosen := FirstFree(base, lower, TakenByPrefix(slugs, base, w));
  }

  method FirstFree(base: string, lower: char -> char, taken: set<string>) returns (chosen: Option<string>)
    ensures chosen == FirstFrom(base, TrimSlug(base, lower), taken, 0)
  {
    ghost var stem := TrimSlug(base, lower);
    for i := 0 to TRIES
      invariant FirstFrom(base, stem, taken, i) == FirstFrom(base, stem, taken, 0)
    {
      var candidate := TryNumber(base, lower, i);
      if candidate !in taken {
        return Some(candidate);
      }
    }
    chosen := None;
  }

  lemma {:induction false} FirstFromIs(base: string, stem: string, taken: set<string>, i: nat, j: nat) returns (k: nat)
    requires i <= j < TRIES && Candidate(base, stem, j) !in taken
    ensures i <= k <= j && FirstFrom(base, stem, taken, i) == Some(Candidate(base, stem, k))
    ensures Candidate(base, stem, k) !in taken
    decreases j - i
  {
    if Candidate(base, stem, i) !in taken {
      k := i;
    } else {
      k := FirstFromIs(base, stem, taken, i + 1, j);
    }
  }

  lemma {:induction false} ChosenIsCandidate(base: string, stem: string, taken: set<string>, i: nat)
    requires i <= TRIES && FirstFrom(base, stem, taken, i).Some?
    ensures exists k: nat :: k < TRIES && FirstFrom(base, stem, taken, i).value == Candidate(base, stem, k)
    ensures FirstFrom(base, stem, taken, i).value !in taken
    decreases TRIES - i
  {
    if Candidate(base, stem, i) in taken {
      ChosenIsCandidate(base, stem, taken, i + 1);
    }
  }

  // ----- what trimming leaves -----

  lemma {:induction false} TrimDashKeeps(s: string)
    requires s != "" ==> s[0] != '-' && s[|s| - 1] != '-'
    ensures TrimDash(s) == s
  {
  }

  predicate Settled(s: string, lower: char -> char) {
    forall i :: 0 <= i < |s| ==> lower(s[i]) == s[i]
  }

  lemma TrimDashSettles(s: string, lower: char -> char)
    requires Settled(s, lower)
    ensures Settled(TrimDash(s), lower)
  {
    forall i | 0 <= i < |TrimDash(s)| ensures lower(TrimDash(s)[i]) == TrimDash(s)[i] {
      assert TrimDash(s)[i] in s;
    }
  }

  predicate NoDashAtAnEnd(s: string) {
    s != "" ==> s[0] != '-' && s[|s| - 1] != '-'
  }

  lemma TrimSlugFacts(value: string, lower: char -> char)
    requires LowerCases(lower)
    ensures var r := TrimSlug(value, lower);
            |r| <= LONGEST && |r| <= |Trim(value)| && NoDashAtAnEnd(r) && Settled(r, lower)
  {
    var low := Lowered(Trim(value), lower);
    TrimDashSettles(low, lower);
    if |TrimDash(low)| > LONGEST {
      TrimDashSettles(TrimDash(low)[..LONGEST], lower);
    }
  }

  lemma FallbackFacts(seconds: nat, lower: char -> char)
    requires LowerCases(lower)
    ensures var base := "article-" + Decimal(seconds);
            base != "" && NoDashAtAnEnd(base) && Settled(base, lower)
  {
    DecimalIsDigits(seconds);
    var base, digits := "article-" + Decimal(seconds), Decimal(seconds);
    assert digits[|digits| - 1] in digits;
    forall i | 0 <= i < |base| ensures lower(base[i]) == base[i] {
      assert i >= 8 ==> base[i] in digits;
    }
  }

  lemma BaseFacts(slug: string, seconds: nat, lower: char -> char)
    requires LowerCases(lower)
    ensures var base := BaseOf(slug, seconds, lower);
            base != "" && NoDashAtAnEnd(base) && Settled(base, lower)
  {
    TrimSlugFacts(slug, lower);
    FallbackFacts(seconds, lower);
  }

  lemma TrimmedAgain(base: string, lower: char -> char)
    requires LowerCases(lower) && NoDashAtAnEnd(base) && Settled(base, lower) && !SpaceAtAnEnd(base)
               && |base| <= LONGEST
    ensures TrimSlug(base, lower) == base
  {
    TrimDashKeeps(base);
    if base != "" {
      TrimIs(base, 0, |base|);
    }
    assert Lowered(base, lower) == base;
  }

  /** Trimming the base again changes it, and then shortens it, exactly when white space is at one of its ends. */
  lemma StemIff(slug: string, seconds: nat, lower: char -> char)
    requires LowerCases(lower) && |BaseOf(slug, seconds, lower)| <= LONGEST
    ensures var base := BaseOf(slug, seconds, lower);
            var stem := TrimSlug(base, lower);
            base != "" && (stem == base <==> !SpaceAtAnEnd(base)) && (stem != base ==> |stem| < |base|)
  {
    var base := BaseOf(slug, seconds, lower);
    BaseFacts(slug, seconds, lower);
    TrimSlugFacts(base, lower);
    if !SpaceAtAnEnd(base) {
      TrimmedAgain(base, lower);
    }
  }

  /** A slug that is in order already is its own base; only one that trims to nothing is replaced. */
  lemma BaseIsTheSlug(slug: string, seconds: nat, lower: char -> char)
    requires LowerCases(lower)
    ensures TrimSlug(slug, lower) != "" ==> BaseOf(slug, seconds, lower) == TrimSlug(slug, lower)
    ensures slug != "" && NoDashAtAnEnd(slug) && Settled(slug, lower) && !SpaceAtAnEnd(slug) && |slug| <= LONGEST ==>
              BaseOf(slug, seconds, lower) == slug
    ensures IsBlank(slug) ==> BaseOf(slug, seconds, lower) == "article-" + Decimal(seconds)
  {
    if slug != "" && NoDashAtAnEnd(slug) && Settled(slug, lower) && !SpaceAtAnEnd(slug) && |slug| <= LONGEST {
      TrimmedAgain(slug, lower);
    }
    TrimBlankIff(slug);
  }
}
