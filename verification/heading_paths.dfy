/** The heading path of a text compared with the headings that really enclose it. */
module HeadingPaths {
  import opened MarkdownBlocks
  import opened MarkdownUnits

  /**
   The headings still open when one of this level comes: those before with a lower level, back to the first
   that has not.
   */
  function Enclosing(open: seq<HeadingLine>, level: nat): seq<HeadingLine> {
    if open != [] && open[|open| - 1].level >= level then Enclosing(open[..|open| - 1], level) else open
  }

  function OpenNext(open: seq<HeadingLine>, item: Item): seq<HeadingLine> {
    match item
    case Section(h) => Enclosing(open, h.level) + [h]
    case Text(_) => open
  }

  /** The headings that enclose what follows some items. */
  function OpenAfter(open: seq<HeadingLine>, items: seq<Item>): seq<HeadingLine>
    decreases |items|
  {
    if items == [] then open else OpenAfter(OpenNext(open, items[0]), items[1..])
  }

  predicate Shows(path: seq<string>, open: seq<HeadingLine>) {
    |path| == |open| && forall i :: 0 <= i < |open| ==> path[i] == open[i].title
  }

  /** How much of the path a heading keeps. */
  function Keeps(depth: nat, level: Level): nat {
    if level > depth then depth else level - 1
  }

  lemma {:induction false} EnclosingIsPrefix(open: seq<HeadingLine>, level: nat)
    ensures var kept := Enclosing(open, level);
            |kept| <= |open| && kept == open[..|kept|] && (kept != [] ==> kept[|kept| - 1].level < level)
  {
    if open != [] && open[|open| - 1].level >= level {
      EnclosingIsPrefix(open[..|open| - 1], level);
    }
  }

  // ----- one heading -----

  /** A heading takes a right path to a right path exactly when it keeps as many headings as really enclose it. */
  lemma PushIsRightIff(path: seq<string>, open: seq<HeadingLine>, h: HeadingLine)
    requires Shows(path, open)
    ensures Shows(Push(path, h), Enclosing(open, h.level) + [h]) <==>
              |Enclosing(open, h.level)| == Keeps(|open|, h.level)
  {
    EnclosingIsPrefix(open, h.level);
  }

  // ----- a whole document -----

  /** The path is right before, between and after the items. */
  predicate AlwaysShows(path: seq<string>, open: seq<HeadingLine>, items: seq<Item>)
    decreases |items|
  {
    Shows(path, open) && (items != [] ==> AlwaysShows(PathNext(path, items[0]), OpenNext(open, items[0]), items[1..]))
  }

  /** Every heading keeps as many headings of the path as really enclose it. */
  predicate Regular(open: seq<HeadingLine>, items: seq<Item>)
    decreases |items|
  {
    items != [] ==>
      && (items[0].Section? ==> |Enclosing(open, items[0].heading.level)| == Keeps(|open|, items[0].heading.level))
      && Regular(OpenNext(open, items[0]), items[1..])
  }

  lemma {:induction false} AlwaysShowsIff(path: seq<string>, open: seq<HeadingLine>, items: seq<Item>)
    requires Shows(path, open)
    ensures AlwaysShows(path, open, items) <==> Regular(open, items)
    decreases |items|
  {
    if items != [] {
      var path', open' := PathNext(path, items[0]), OpenNext(open, items[0]);
      if items[0].Section? {
        PushIsRightIff(path, open, items[0].heading);
      }
      if Shows(path', open') {
        AlwaysShowsIff(path', open', items[1..]);
      }
    }
  }

  /** In a document every path is the list of the enclosing headings exactly when every heading is regular. */
  lemma PathsAreEnclosingIff(items: seq<Item>)
    ensures AlwaysShows([], [], items) <==> Regular([], items)
  {
    AlwaysShowsIff([], [], items);
  }

  /** Levels 1, 2, ..., n without a gap. */
  predicate Stepwise(open: seq<HeadingLine>) {
    forall i :: 0 <= i < |open| ==> open[i].level == i + 1
  }

  /** No heading is more than one level below the heading it is in. */
  predicate NoneSkipped(open: seq<HeadingLine>, items: seq<Item>)
    decreases |items|
  {
    items != [] ==>
      (items[0].Section? ==> items[0].heading.level <= |open| + 1) && NoneSkipped(OpenNext(open, items[0]), items[1..])
  }

  lemma {:induction false} EnclosingOfStepwise(open: seq<HeadingLine>, level: nat)
    requires Stepwise(open) && 1 <= level <= |open| + 1
    ensures Enclosing(open, level) == open[..level - 1]
  {
    if open != [] && open[|open| - 1].level >= level {
      EnclosingOfStepwise(open[..|open| - 1], level);
      assert open[..|open| - 1][..level - 1] == open[..level - 1];
    }
  }

  /** A document that skips no level is regular; so its paths are the enclosing headings. */
  lemma {:induction false} NoneSkippedIsRegular(open: seq<HeadingLine>, items: seq<Item>)
    requires Stepwise(open) && NoneSkipped(open, items)
    ensures Regular(open, items)
    decreases |items|
  {
    if items != [] {
      if items[0].Section? {
        EnclosingOfStepwise(open, items[0].heading.level);
      }
      NoneSkippedIsRegular(OpenNext(open, items[0]), items[1..]);
    }
  }

  // ----- one place of a document -----

  /** The open headings are found in the path, in order, each no deeper than its level. */
  predicate Embedded(path: seq<string>, open: seq<HeadingLine>, at: seq<nat>) {
    && |at| == |open|
    && (forall j :: 0 <= j < |at| ==> at[j] < |path| && at[j] + 1 <= open[j].level && path[at[j]] == open[j].title)
    && (forall i, j :: 0 <= i < j < |at| ==> at[i] < at[j])
  }

  predicate Rising(open: seq<HeadingLine>) {
    forall i, j :: 0 <= i < j < |open| ==> open[i].level < open[j].level
  }

  lemma PushRises(open: seq<HeadingLine>, h: HeadingLine)
    requires Rising(open)
    ensures Rising(Enclosing(open, h.level) + [h])
  {
    EnclosingIsPrefix(open, h.level);
    var open' := Enclosing(open, h.level) + [h];
    forall i, j | 0 <= i < j < |open'| ensures open'[i].level < open'[j].level {
      assert open'[i] == open[i] && (j < |open'| - 1 ==> open'[j] == open[j]);
    }
  }

  lemma PushEmbeds(path: seq<string>, open: seq<HeadingLine>, at: seq<nat>, h: HeadingLine) returns (at': seq<nat>)
    requires Embedded(path, open, at) && Rising(open)
    ensures Embedded(Push(path, h), Enclosing(open, h.level) + [h], at')
  {
    EnclosingIsPrefix(open, h.level);
    var n, m := |Enclosing(open, h.level)|, Keeps(|path|, h.level);
    var path', open' := Push(path, h), Enclosing(open, h.level) + [h];
    at' := at[..n] + [m];
    assert path' == path[..m] + [h.title];
    forall j | 0 <= j < n ensures at[j] < m && path'[at[j]] == path[at[j]] && open'[j] == open[j] {
      assert open[j].level < h.level;
    }
    forall i, j | 0 <= i < j < |at'| ensures at'[i] < at'[j] {
      assert at'[i] == at[i] && (j < n ==> at'[j] == at[j]);
    }
  }

  lemma NextEmbeds(path: seq<string>, open: seq<HeadingLine>, at: seq<nat>, item: Item) returns (at': seq<nat>)
    requires Embedded(path, open, at) && Rising(open)
    ensures Embedded(PathNext(path, item), OpenNext(open, item), at') && Rising(OpenNext(open, item))
  {
    match item
    case Section(h) =>
      PushRises(open, h);
      at' := PushEmbeds(path, open, at, h);
    case Text(_) => at' := at;
  }

  lemma {:induction false} EmbeddedAfter(path: seq<string>, open: seq<HeadingLine>, at: seq<nat>, items: seq<Item>)
    returns (at': seq<nat>)
    requires Embedded(path, open, at) && Rising(open)
    ensures Embedded(PathAfter(path, items), OpenAfter(open, items), at')
    decreases |items|
  {
    if items == [] {
      at' := at;
    } else {
      var next := NextEmbeds(path, open, at, items[0]);
      at' := EmbeddedAfter(PathNext(path, items[0]), OpenNext(open, items[0]), next, items[1..]);
    }
  }

  lemma {:induction false} Crowded(at: seq<nat>, n: nat, j: nat)
    requires |at| == n && j < n && forall i :: 0 <= i < n ==> at[i] < n
    requires forall i, k :: 0 <= i < k < n ==> at[i] < at[k]
    ensures at[j] >= j
  {
    if j > 0 {
      Crowded(at, n, j - 1);
    }
  }

  lemma {:induction false} CrowdedAbove(at: seq<nat>, n: nat, j: nat)
    requires |at| == n && j < n && forall i :: 0 <= i < n ==> at[i] < n
    requires forall i, k :: 0 <= i < k < n ==> at[i] < at[k]
    ensures at[j] <= j
    decreases n - j
  {
    if j + 1 < n {
      CrowdedAbove(at, n, j + 1);
    }
  }

  /**
   At any single place of a document the path always contains the enclosing headings, in order; it is exactly
   them if and only if it is as long as their list, which depends on the levels alone.
   */
  lemma PathAtPlaceIff(items: seq<Item>) returns (at: seq<nat>)
    ensures Embedded(PathAfter([], items), OpenAfter([], items), at)
    ensures Shows(PathAfter([], items), OpenAfter([], items)) <==> |PathAfter([], items)| == |OpenAfter([], items)|
  {
    at := EmbeddedAfter([], [], [], items);
    var path, open := PathAfter([], items), OpenAfter([], items);
    if |path| == |open| {
      forall j | 0 <= j < |open| ensures path[j] == open[j].title {
        Crowded(at, |path|, j);
        CrowdedAbove(at, |path|, j);
      }
    }
  }

  lemma TwoItems(path: seq<string>, open: seq<HeadingLine>, x: Item, y: Item)
    ensures PathAfter(path, [x, y]) == PathNext(PathNext(path, x), y)
    ensures OpenAfter(open, [x, y]) == OpenNext(OpenNext(open, x), y)
  {
    assert [x, y][1..] == [y] && [y][1..] == [];
    assert PathAfter(PathNext(path, x), [y]) == PathAfter(PathNext(PathNext(path, x), y), []);
    assert OpenAfter(OpenNext(open, x), [y]) == OpenAfter(OpenNext(OpenNext(open, x), y), []);
  }

  /** Two sibling sections of level 2 without a section of level 1 come out one inside the other. */
  lemma SkippedLevelExample(a: string, b: string)
    ensures var items := [Section(HeadingLine(2, a)), Section(HeadingLine(2, b))];
            PathAfter([], items) == [a, b] && OpenAfter([], items) == [HeadingLine(2, b)]
  {
    var first, second := HeadingLine(2, a), HeadingLine(2, b);
    TwoItems([], [], Section(first), Section(second));
    assert [first][..0] == [];
    assert Push([], first) == [a] && Push([a], second) == [a, b];
  }

  /** A skipped level alone does no harm: it takes a later heading that returns to it. */
  lemma HarmlessSkipExample(a: string, b: string)
    ensures var items := [Section(HeadingLine(1, a)), Section(HeadingLine(3, b))];
            PathAfter([], items) == [a, b] && OpenAfter([], items) == [HeadingLine(1, a), HeadingLine(3, b)]
  {
    var first, second := HeadingLine(1, a), HeadingLine(3, b);
    TwoItems([], [], Section(first), Section(second));
    assert Push([], first) == [a] && Push([a], second) == [a, b];
  }
}
