/** When the unique index of the table, which compares by collation, accepts the chosen slug. */
module SlugAcceptance {
  import opened Basics
  import opened Decimals
  import opened LikePatterns
  import opened SlugChoice
  import opened SlugNewness

  /** Whatever is stored, no stored slug is the same as the chosen one to the collation. */
  ghost predicate AlwaysAccepted(base: string, stem: string, w: Collation) {
    forall slugs: set<string>, s: string ::
      Chosen(base, stem, slugs, w).Some? && s in slugs ==> !Same(s, Chosen(base, stem, slugs, w).value, w)
  }

  /** The collation takes no other character for this one. */
  ghost predicate Alone(c: char, w: Collation) {
    forall d: char :: w(d) == w(c) ==> d == c
  }

  /** All characters a candidate of the base can have are alone. */
  ghost predicate AllAlone(base: string, w: Collation) {
    && (forall i :: 0 <= i < |base| ==> Alone(base[i], w))
    && Alone('-', w) && (forall c :: '0' <= c <= '9' ==> Alone(c, w))
  }

  lemma {:induction false} ChosenExactly(base: string, stem: string, taken: set<string>, from: nat, i: nat)
    requires from <= i < TRIES && Candidate(base, stem, i) !in taken
    requires forall j :: from <= j < i ==> Candidate(base, stem, j) in taken
    ensures FirstFrom(base, stem, taken, from) == Some(Candidate(base, stem, i))
    decreases i - from
  {
    if from < i {
      ChosenExactly(base, stem, taken, from + 1, i);
    }
  }

  lemma Refused(base: string, stem: string, slugs: set<string>, i: nat, look: string, w: Collation)
    requires i < TRIES && Candidate(base, stem, i) !in slugs
    requires forall j :: 0 <= j < i ==> Candidate(base, stem, j) in TakenByPrefix(slugs, base, w)
    requires look in slugs && Same(look, Candidate(base, stem, i), w)
    ensures !AlwaysAccepted(base, stem, w)
  {
    ChosenExactly(base, stem, TakenByPrefix(slugs, base, w), 0, i);
    assert Chosen(base, stem, slugs, w) == Some(Candidate(base, stem, i));
  }

  /** The earlier candidates and a look-alike of candidate i are stored: i is chosen and refused. */
  lemma LookAlikeRefused(base: string, stem: string, i: nat, look: string, w: Collation)
    requires i < TRIES && Same(look, Candidate(base, stem, i), w) && look != Candidate(base, stem, i)
    requires forall j :: 0 <= j < i ==>
               Candidate(base, stem, j) != Candidate(base, stem, i) && InFamily(Candidate(base, stem, j), base, w)
    ensures !AlwaysAccepted(base, stem, w)
  {
    var slugs := (set j: nat | j < i :: Candidate(base, stem, j)) + {look};
    forall j | 0 <= j < i ensures Candidate(base, stem, j) in TakenByPrefix(slugs, base, w) {
      assert Candidate(base, stem, j) in slugs;
    }
    Refused(base, stem, slugs, i, look, w);
  }

  lemma ReplacedIsSame(s: string, k: nat, d: char, w: Collation)
    requires k < |s| && w(d) == w(s[k]) && d != s[k]
    ensures Same(s[k := d], s, w) && s[k := d] != s
  {
    assert s[k := d][k] == d;
  }

  lemma Uncut(base: string, i: nat)
    requires 0 < |base| <= LONGEST_SAFE && 0 < i < TRIES
    ensures Candidate(base, base, i)[..|base|] == base && Candidate(base, base, i)[|base|..] == Suffix(i)
  {
    SuffixLength(i);
    assert base[..|base|] == base;
  }

  lemma SuffixInjective(i: nat, j: nat)
    requires Suffix(i) == Suffix(j)
    ensures i == j
  {
    assert Suffix(i)[1..] == Decimal(i + 1) && Suffix(j)[1..] == Decimal(j + 1);
    DecimalInjective(i + 1, j + 1);
  }

  lemma Numbered(base: string, i: nat, j: nat)
    requires 0 < |base| <= LONGEST_SAFE && j < i < TRIES
    ensures Candidate(base, base, j) != Candidate(base, base, i)
  {
    Uncut(base, i);
    SuffixLength(i);
    if j > 0 {
      Uncut(base, j);
      if Suffix(i) == Suffix(j) {
        SuffixInjective(i, j);
      }
    } else {
      assert base[|base|..] == "";
    }
  }

  /** Any character of any candidate that is not alone spoils acceptance. */
  lemma NotAloneIsRefused(base: string, i: nat, k: nat, d: char, w: Collation)
    requires 0 < |base| <= LONGEST_SAFE && DashIsNoDigit(w) && i < TRIES
    requires k < |Candidate(base, base, i)| && w(d) == w(Candidate(base, base, i)[k])
               && d != Candidate(base, base, i)[k]
    ensures !AlwaysAccepted(base, base, w)
  {
    AllInFamilyIff(base, base, w);
    ReplacedIsSame(Candidate(base, base, i), k, d, w);
    forall j | 0 <= j < i ensures Candidate(base, base, j) != Candidate(base, base, i) {
      Numbered(base, i, j);
    }
    LookAlikeRefused(base, base, i, Candidate(base, base, i)[k := d], w);
  }

  /** Digit v is the last character of candidate 10 + v. */
  lemma DigitOccurs(base: string, v: nat)
    requires 0 < |base| <= LONGEST_SAFE && v < 10
    ensures var c := Candidate(base, base, 9 + v); |c| == |base| + 3 && c[|base| + 2] == Digit(v)
  {
    assert Decimal(10 + v) == Decimal((10 + v) / 10) + [Digit((10 + v) % 10)];
    assert Decimal(1) == [Digit(1)];
    assert Suffix(9 + v) == "-" + Decimal(10 + v);
  }

  lemma DigitOf(c: char) returns (v: nat)
    requires '0' <= c <= '9'
    ensures v < 10 && Digit(v) == c
  {
    v := c as nat - '0' as nat;
  }

  lemma AllAloneIsNeeded(base: string, w: Collation)
    requires 0 < |base| <= LONGEST_SAFE && DashIsNoDigit(w) && !AllAlone(base, w)
    ensures !AlwaysAccepted(base, base, w)
  {
    if k :| 0 <= k < |base| && !Alone(base[k], w) {
      var d :| w(d) == w(base[k]) && d != base[k];
      NotAloneIsRefused(base, 0, k, d, w);
    } else if !Alone('-', w) {
      var d :| w(d) == w('-') && d != '-';
      CandidateShape(base, base, 1);
      SuffixLength(1);
      NotAloneIsRefused(base, 1, |base|, d, w);
    } else {
      var c :| '0' <= c <= '9' && !Alone(c, w);
      var d :| w(d) == w(c) && d != c;
      var v := DigitOf(c);
      DigitOccurs(base, v);
      NotAloneIsRefused(base, 9 + v, |base| + 2, d, w);
    }
  }

  /** Even where a dash counts as a digit, the second or third candidate meets a look-alike. */
  lemma DashAsDigitIsRefused(base: string, stem: string, d: char, w: Collation)
    requires Stemmed(base, stem) && '0' <= d <= '9' && w(d) == w('-')
    ensures !AlwaysAccepted(base, stem, w)
  {
    SmallSuffixes();
    CandidateShape(base, stem, 1);
    CandidateShape(base, stem, 2);
    var c1, c2, m := Candidate(base, stem, 1), Candidate(base, stem, 2), Kept(stem, 1);
    assert |c1| == |c2| == m + 2 && c1[m + 1] == '2' && c2[m + 1] == '3';
    if c1 != base {
      DashReplaced(base, stem, 1, m, d, w);
    } else {
      DashReplaced(base, stem, 2, m, d, w);
    }
  }

  lemma SmallSuffixes()
    ensures Suffix(1) == "-2" && Suffix(2) == "-3"
  {
    assert Decimal(2) == "2" && Decimal(3) == "3";
  }

  /** Candidate 1 or 2 with a digit in the place of its dash, when all candidates before it are seen. */
  lemma DashReplaced(base: string, stem: string, i: nat, m: nat, d: char, w: Collation)
    requires 1 <= i <= 2 && m < |Candidate(base, stem, i)| && Candidate(base, stem, i)[m] == '-'
    requires d != '-' && w(d) == w('-')
    requires Candidate(base, stem, i) != base && (i == 2 ==> Candidate(base, stem, 1) == base)
    ensures !AlwaysAccepted(base, stem, w)
  {
    var c := Candidate(base, stem, i);
    assert Same(base, base, w) && InFamily(base, base, w);
    ReplacedIsSame(c, m, d, w);
    assert Candidate(base, stem, 0) == base;
    LookAlikeRefused(base, stem, i, c[m := d], w);
  }

  lemma CandidateChars(base: string, k: nat, j: nat, w: Collation)
    requires 0 < |base| <= LONGEST_SAFE && k < TRIES && AllAlone(base, w) && j < |Candidate(base, base, k)|
    ensures Alone(Candidate(base, base, k)[j], w)
  {
    if k > 0 {
      SuffixLength(k);
      CandidateShape(base, base, k);
    }
  }

  lemma SameIsEqual(s: string, t: string, w: Collation)
    requires forall j :: 0 <= j < |t| ==> Alone(t[j], w)
    ensures Same(s, t, w) ==> s == t
  {
  }

  lemma AllAloneSuffices(base: string, w: Collation)
    requires 0 < |base| <= LONGEST_SAFE && AllAlone(base, w)
    ensures AlwaysAccepted(base, base, w)
  {
    assert DashIsNoDigit(w);
    AlwaysNewIff(base, base, w);
    forall slugs: set<string>, s: string | Chosen(base, base, slugs, w).Some? && s in slugs
      ensures !Same(s, Chosen(base, base, slugs, w).value, w)
    {
      var chosen := Chosen(base, base, slugs, w).value;
      ChosenIsCandidate(base, base, TakenByPrefix(slugs, base, w), 0);
      var k: nat :| k < TRIES && chosen == Candidate(base, base, k);
      forall j | 0 <= j < |chosen| ensures Alone(chosen[j], w) {
        CandidateChars(base, k, j, w);
      }
      SameIsEqual(s, chosen, w);
    }
  }

  lemma NewIsNeeded(base: string, stem: string, w: Collation)
    requires !AlwaysNew(base, stem, w)
    ensures !AlwaysAccepted(base, stem, w)
  {
    var slugs: set<string> :| Chosen(base, stem, slugs, w).Some? && Chosen(base, stem, slugs, w).value in slugs;
    var chosen := Chosen(base, stem, slugs, w).value;
    assert Same(chosen, chosen, w);
  }

  /**
   The chosen slug is accepted whatever is stored exactly when the base has at most 176 characters, trims to
   itself, and no character a candidate can have is taken for another by the collation.
   */
  lemma AlwaysAcceptedIff(base: string, stem: string, w: Collation)
    requires Stemmed(base, stem)
    ensures AlwaysAccepted(base, stem, w) <==> stem == base && |base| <= LONGEST_SAFE && AllAlone(base, w)
  {
    if d :| '0' <= d <= '9' && w(d) == w('-') {
      DashAsDigitIsRefused(base, stem, d, w);
      assert !Alone('-', w);
    } else {
      assert DashIsNoDigit(w);
      AlwaysNewIff(base, stem, w);
      if stem != base || |base| > LONGEST_SAFE {
        NewIsNeeded(base, stem, w);
      } else if AllAlone(base, w) {
        AllAloneSuffices(base, w);
      } else {
        AllAloneIsNeeded(base, w);
      }
    }
  }

  /** A collation that takes any letter of the base for another makes an import choose a slug the index refuses. */
  lemma SameButNotEqualExample(base: string, stored: string, w: Collation)
    requires 0 < |base| <= LONGEST && base != stored && Same(stored, base, w)
    ensures stored in TakenByPrefix({stored}, base, w) && Chosen(base, base, {stored}, w) == Some(base)
    ensures !AlwaysAccepted(base, base, w)
  {
    assert Chosen(base, base, {stored}, w).value == base;
  }
}
