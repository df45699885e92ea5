/** When the chosen slug is not stored yet, whatever is stored. */
module SlugNewness {
  import opened LikePatterns
  import opened SlugChoice

  /** The longest base for which the numbered candidates are never cut: "-100" takes four characters. */
  const LONGEST_SAFE: nat := 176

  ghost predicate DashIsNoDigit(w: Collation) {
    forall c: char :: '0' <= c <= '9' ==> w(c) != w('-')
  }

  /** What StemIff establishes of a base of at most 180 characters and its stem. */
  predicate Stemmed(base: string, stem: string) {
    0 < |base| <= LONGEST && (stem == base || |stem| < |base|)
  }

  lemma CandidateShape(base: string, stem: string, i: nat)
    requires 0 < i < TRIES && Stemmed(base, stem)
    ensures var c, m := Candidate(base, stem, i), Kept(stem, i);
            && 0 <= m <= |stem| && |c| == m + |Suffix(i)| && c[m] == '-'
            && c == stem[..m] + Suffix(i)
            && (forall k :: m < k < |c| ==> '0' <= c[k] <= '9')
  {
    SuffixLength(i);
    var c, m := Candidate(base, stem, i), Kept(stem, i);
    assert forall k :: m < k < |c| ==> c[k] == Suffix(i)[k - m];
  }

  /** The query looks at a numbered candidate exactly when it starts with the whole base, or happens to be it. */
  lemma CandidateInFamilyIff(base: string, stem: string, i: nat, w: Collation)
    requires 0 < i < TRIES && Stemmed(base, stem) && DashIsNoDigit(w)
    ensures InFamily(Candidate(base, stem, i), base, w) <==>
              (stem == base && |base| + |Suffix(i)| <= LONGEST) || Same(Candidate(base, stem, i), base, w)
  {
    var c := Candidate(base, stem, i);
    CandidateShape(base, stem, i);
    FamilyIff(base, c, w);
    if stem == base && |base| + |Suffix(i)| <= LONGEST {
      assert c[..|base| + 1] == base + "-";
    } else if |base| < |c| {
      assert (base + "-")[|base|] == '-' && c[..|base| + 1][|base|] == c[|base|];
      assert w(c[|base|]) != w('-');
    }
  }

  lemma SomeOutside(base: string, stem: string, w: Collation)
    requires Stemmed(base, stem) && DashIsNoDigit(w) && (stem != base || |base| > LONGEST_SAFE)
    ensures exists i: nat :: i < TRIES && !InFamily(Candidate(base, stem, i), base, w)
  {
    SuffixLength(99);
    SuffixLength(1);
    CandidateShape(base, stem, 99);
    CandidateShape(base, stem, 1);
    CandidateInFamilyIff(base, stem, 99, w);
    CandidateInFamilyIff(base, stem, 1, w);
    var c, d := Candidate(base, stem, 99), Candidate(base, stem, 1);
    if |c| == |d| == |base| {
      assert '0' <= c[178] <= '9' && d[178] == '-' && w(c[178]) != w(d[178]);
    }
  }

  /** Every candidate is in the family exactly for a base without white space at its ends, of at most 176 characters. */
  lemma AllInFamilyIff(base: string, stem: string, w: Collation)
    requires Stemmed(base, stem) && DashIsNoDigit(w)
    ensures (forall i: nat :: i < TRIES ==> InFamily(Candidate(base, stem, i), base, w)) <==>
              stem == base && |base| <= LONGEST_SAFE
  {
    if stem == base && |base| <= LONGEST_SAFE {
      forall i: nat | i < TRIES ensures InFamily(Candidate(base, stem, i), base, w) {
        if i > 0 {
          SuffixLength(i);
          CandidateInFamilyIff(base, stem, i, w);
        }
      }
    } else {
      SomeOutside(base, stem, w);
    }
  }

  /** If some candidate is invisible to the query, some set of stored slugs makes it choose a taken one. */
  lemma UnseenIsTaken(base: string, stem: string, i: nat, w: Collation)
    requires i < TRIES && !InFamily(Candidate(base, stem, i), base, w)
    ensures var slugs := (set j: nat | j <= i :: Candidate(base, stem, j));
            Chosen(base, stem, slugs, w).Some? && Chosen(base, stem, slugs, w).value in slugs
  {
    var slugs := set j: nat | j <= i :: Candidate(base, stem, j);
    var taken := TakenByPrefix(slugs, base, w);
    assert Candidate(base, stem, i) !in taken;
    var k := FirstFromIs(base, stem, taken, 0, i);
    assert k <= i;
  }

  /** Whatever is stored, the chosen slug is not among it. */
  ghost predicate AlwaysNew(base: string, stem: string, w: Collation) {
    forall slugs: set<string> :: Chosen(base, stem, slugs, w).Some? ==> Chosen(base, stem, slugs, w).value !in slugs
  }

  lemma AlwaysNewIff(base: string, stem: string, w: Collation)
    requires Stemmed(base, stem) && DashIsNoDigit(w)
    ensures AlwaysNew(base, stem, w) <==> stem == base && |base| <= LONGEST_SAFE
  {
    AllInFamilyIff(base, stem, w);
    if stem == base && |base| <= LONGEST_SAFE {
      forall slugs: set<string> | Chosen(base, stem, slugs, w).Some?
        ensures Chosen(base, stem, slugs, w).value !in slugs
      {
        ChosenIsCandidate(base, stem, TakenByPrefix(slugs, base, w), 0);
      }
    } else {
      var i: nat :| i < TRIES && !InFamily(Candidate(base, stem, i), base, w);
      UnseenIsTaken(base, stem, i, w);
    }
  }

  /**
   The slug of an import can be trusted to be new exactly when its base has at most 176 of the 180 characters
   allowed and no white space at its ends.
   */
  lemma ImportedSlugIsNewIff(slug: string, seconds: nat, lower: char -> char, w: Collation)
    requires LowerCases(lower) && DashIsNoDigit(w) && |BaseOf(slug, seconds, lower)| <= LONGEST
    ensures var base := BaseOf(slug, seconds, lower);
            AlwaysNew(base, TrimSlug(base, lower), w) <==> |base| <= LONGEST_SAFE && !SpaceAtAnEnd(base)
  {
    var base := BaseOf(slug, seconds, lower);
    StemIff(slug, seconds, lower);
    AlwaysNewIff(base, TrimSlug(base, lower), w);
  }
}
