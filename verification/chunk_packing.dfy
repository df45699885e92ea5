/** Packing retrieval units into chunks of at most 800 runes, and cutting longer units into overlapping windows. */
module ChunkPacking {
  import opened TextLines

  const MAX_RUNES: nat := 800
  const OVERLAP: nat := 120
  const STRIDE: nat := 680

  // ----- overlapping windows -----

  function Windows(value: string): seq<string> {
    if |value| <= MAX_RUNES then [value] else [value[..MAX_RUNES]] + Windows(value[STRIDE..])
  }

  /** The windows with every overlap dropped. */
  function Unsplit(items: seq<string>): string {
    if items == [] then ""
    else if |items| == 1 then items[0]
    else items[0] + DropOverlap(Unsplit(items[1..]))
  }

  function DropOverlap(s: string): string {
    if |s| < OVERLAP then "" else s[OVERLAP..]
  }

  lemma SliceOfTail(value: string, k: nat, a: nat, b: nat)
    requires k + a <= k + b <= |value|
    ensures value[k..][a..b] == value[k + a..k + b]
  {
  }

  lemma NextWindow(value: string, start: nat)
    requires start + MAX_RUNES < |value|
    ensures Windows(value[start..]) == [value[start..start + MAX_RUNES]] + Windows(value[start + STRIDE..])
  {
    SliceOfTail(value, start, 0, MAX_RUNES);
    assert value[start..][STRIDE..] == value[start + STRIDE..];
  }

  method SplitLong(value: string) returns (items: seq<string>)
    ensures items == Windows(value)
  {
    if |value| <= MAX_RUNES {
      return [value];
    }
    items := [];
    var start := 0;
    while true
      invariant 0 <= start && start + OVERLAP < |value|
      invariant items + Windows(value[start..]) == Windows(value)
      decreases |value| - start
    {
      var end := start + MAX_RUNES;
      if end > |value| {
        end := |value|;
      }
      if end < |value| {
        NextWindow(value, start);
        Assoc(items, [value[start..end]], Windows(value[start + STRIDE..]));
      }
      items := items + [value[start..end]];
      if end == |value| {
        assert value[start..] == value[start..end];
        break;
      }
      start := end - OVERLAP;
    }
  }

  /** Exactly ceil((n - 120) / 680) windows for more than 800 runes, each full except the last, none empty. */
  lemma {:induction false} WindowCount(value: string)
    requires |value| > OVERLAP
    ensures |Windows(value)| == (|value| - OVERLAP + STRIDE - 1) / STRIDE
    ensures forall i :: 0 <= i < |Windows(value)| ==> OVERLAP < |Windows(value)[i]| <= MAX_RUNES
    ensures forall i :: 0 <= i < |Windows(value)| - 1 ==> |Windows(value)[i]| == MAX_RUNES
    decreases |value|
  {
    if |value| > MAX_RUNES {
      WindowCount(value[STRIDE..]);
    }
  }

  /** Window i is the text from rune 680 i on, so neighbours share exactly 120 runes. */
  lemma {:induction false} WindowAt(value: string, i: nat)
    requires |value| > OVERLAP && i < |Windows(value)|
    ensures STRIDE * i + OVERLAP < |value|
    ensures Windows(value)[i] ==
              value[STRIDE * i..if STRIDE * i + MAX_RUNES <= |value| then STRIDE * i + MAX_RUNES else |value|]
    decreases |value|
  {
    if |value| > MAX_RUNES && i > 0 {
      var rest := value[STRIDE..];
      WindowAt(rest, i - 1);
      var hi := if STRIDE * (i - 1) + MAX_RUNES <= |rest| then STRIDE * (i - 1) + MAX_RUNES else |rest|;
      SliceOfTail(value, STRIDE, STRIDE * (i - 1), hi);
    }
  }

  lemma WindowsOverlap(value: string, i: nat)
    requires |value| > OVERLAP && i + 1 < |Windows(value)|
    ensures |Windows(value)[i]| == MAX_RUNES && |Windows(value)[i + 1]| > OVERLAP
    ensures Windows(value)[i][STRIDE..] == Windows(value)[i + 1][..OVERLAP]
  {
    WindowCount(value);
    WindowAt(value, i);
    WindowAt(value, i + 1);
  }

  /** Nothing is lost or repeated: dropping the overlaps gives the value back. */
  lemma {:induction false} UnsplitWindows(value: string)
    ensures Unsplit(Windows(value)) == value
    decreases |value|
  {
    if |value| > MAX_RUNES {
      UnsplitWindows(value[STRIDE..]);
      assert Windows(value)[1..] == Windows(value[STRIDE..]);
      assert value[..MAX_RUNES] + value[STRIDE..][OVERLAP..] == value;
    }
  }

  // ----- packing -----

  /** A chunk made of consecutive short units, or the windows of one long unit. */
  datatype Group = Run(lo: nat, hi: nat) | Long(unit: nat)

  const GAP := "\n\n"

  function TextOf(units: seq<string>, lo: nat, hi: nat): string
    requires lo <= hi <= |units|
  {
    JoinWith(units[lo..hi], GAP)
  }

  /** The run still pending when unit `i` comes up. */
  function Pending(lo: nat, i: nat): seq<Group> {
    if lo < i then [Run(lo, i)] else []
  }

  /** Units before `i` are packed up to `lo`; units lo..i are pending. */
  function GroupsFrom(units: seq<string>, lo: nat, i: nat): seq<Group>
    requires lo <= i <= |units|
    decreases |units| - i
  {
    if i == |units| then Pending(lo, i)
    else if |units[i]| > MAX_RUNES then Pending(lo, i) + ([Long(i)] + GroupsFrom(units, i + 1, i + 1))
    else if lo == i || |TextOf(units, lo, i)| + |GAP| + |units[i]| <= MAX_RUNES then GroupsFrom(units, lo, i + 1)
    else Pending(lo, i) + GroupsFrom(units, i, i + 1)
  }

  function Groups(units: seq<string>): seq<Group> {
    GroupsFrom(units, 0, 0)
  }

  predicate InRange(g: Group, n: nat) {
    match g
    case Run(lo, hi) => lo < hi <= n
    case Long(u) => u < n
  }

  /** Where a group starts and where the one after it starts. */
  function Before(g: Group): nat {
    match g
    case Run(lo, _) => lo
    case Long(u) => u
  }

  function After(g: Group): nat {
    match g
    case Run(_, hi) => hi
    case Long(u) => u + 1
  }

  function Render(units: seq<string>, g: Group): seq<string>
    requires InRange(g, |units|)
  {
    match g
    case Run(lo, hi) => [TextOf(units, lo, hi)]
    case Long(u) => Windows(units[u])
  }

  predicate AllInRange(groups: seq<Group>, n: nat) {
    forall k :: 0 <= k < |groups| ==> InRange(groups[k], n)
  }

  function RenderAll(units: seq<string>, groups: seq<Group>): seq<string>
    requires AllInRange(groups, |units|)
  {
    if groups == [] then [] else Render(units, groups[0]) + RenderAll(units, groups[1..])
  }

  /** The groups tile the units from `at` to the end: consecutive, without gap or overlap. */
  predicate Tiles(groups: seq<Group>, at: nat, n: nat) {
    if groups == [] then at == n
    else
      match groups[0]
      case Run(lo, hi) => lo == at < hi <= n && Tiles(groups[1..], hi, n)
      case Long(u) => u == at < n && Tiles(groups[1..], u + 1, n)
  }

  lemma TilesCons(g: Group, rest: seq<Group>, n: nat)
    requires InRange(g, n) && Tiles(rest, After(g), n) && AllInRange(rest, n)
    ensures Tiles([g] + rest, Before(g), n) && AllInRange([g] + rest, n)
  {
    assert ([g] + rest)[1..] == rest;
  }

  lemma TilesPending(lo: nat, i: nat, rest: seq<Group>, n: nat)
    requires lo <= i <= n && Tiles(rest, i, n) && AllInRange(rest, n)
    ensures Tiles(Pending(lo, i) + rest, lo, n) && AllInRange(Pending(lo, i) + rest, n)
  {
    if lo < i {
      TilesCons(Run(lo, i), rest, n);
    } else {
      assert Pending(lo, i) + rest == rest;
    }
  }

  lemma {:induction false} GroupsTile(units: seq<string>, lo: nat, i: nat)
    requires lo <= i <= |units|
    ensures Tiles(GroupsFrom(units, lo, i), lo, |units|)
    ensures AllInRange(GroupsFrom(units, lo, i), |units|)
    decreases |units| - i
  {
    if i == |units| {
      TilesPending(lo, i, [], |units|);
      assert Pending(lo, i) + [] == Pending(lo, i);
    } else if |units[i]| > MAX_RUNES {
      GroupsTile(units, i + 1, i + 1);
      TilesCons(Long(i), GroupsFrom(units, i + 1, i + 1), |units|);
      TilesPending(lo, i, [Long(i)] + GroupsFrom(units, i + 1, i + 1), |units|);
    } else if lo == i || |TextOf(units, lo, i)| + |GAP| + |units[i]| <= MAX_RUNES {
      GroupsTile(units, lo, i + 1);
    } else {
      GroupsTile(units, i, i + 1);
      TilesPending(lo, i, GroupsFrom(units, i, i + 1), |units|);
    }
  }

  lemma {:induction false} RenderMore(units: seq<string>, groups: seq<Group>, g: Group)
    requires AllInRange(groups, |units|) && InRange(g, |units|)
    ensures AllInRange(groups + [g], |units|)
    ensures RenderAll(units, groups + [g]) == RenderAll(units, groups) + Render(units, g)
    decreases |groups|
  {
    if groups == [] {
      assert [g][1..] == [] && groups + [g] == [g];
      assert Render(units, g) + [] == Render(units, g);
    } else {
      ConsAppend(groups, [g]);
      RenderMore(units, groups[1..], g);
      Assoc(Render(units, groups[0]), RenderAll(units, groups[1..]), Render(units, g));
    }
  }

  lemma TextGrows(units: seq<string>, lo: nat, i: nat)
    requires lo <= i < |units|
    ensures TextOf(units, lo, i + 1) == if lo == i then units[i] else TextOf(units, lo, i) + GAP + units[i]
  {
    assert units[lo..i + 1] == units[lo..i] + [units[i]];
    if lo < i {
      JoinAppend(units[lo..i], [units[i]], GAP);
    }
  }

  lemma {:induction false} TextLength(units: seq<string>, lo: nat, i: nat)
    requires lo < i <= |units| && forall k :: 0 <= k < |units| ==> units[k] != ""
    ensures |TextOf(units, lo, i)| > 0
    decreases i
  {
    TextGrows(units, lo, i - 1);
  }

  /** The pending text is the run it stands for, and the chunks so far render the groups so far. */
  ghost predicate Packed(units: seq<string>, done: seq<Group>, lo: nat, i: nat, chunks: seq<string>, current: string) {
    && lo <= i <= |units|
    && AllInRange(done, |units|)
    && chunks == RenderAll(units, done)
    && current == TextOf(units, lo, i) && (lo < i <==> current != "")
  }

  ghost predicate Due(units: seq<string>, done: seq<Group>, lo: nat, i: nat) {
    lo <= i <= |units| && Groups(units) == done + GroupsFrom(units, lo, i)
  }

  /** The pending run is closed at the end, before a long unit, and before a unit it has no room for. */
  ghost predicate Closes(units: seq<string>, lo: nat, i: nat) {
    && lo < i <= |units|
    && (i == |units| || |units[i]| > MAX_RUNES || |TextOf(units, lo, i)| + |GAP| + |units[i]| > MAX_RUNES)
  }

  lemma CloseRun(units: seq<string>, done: seq<Group>, lo: nat, i: nat)
    requires Due(units, done, lo, i) && Closes(units, lo, i)
    ensures Due(units, done + [Run(lo, i)], i, i)
  {
    var rest := GroupsFrom(units, i, i);
    assert GroupsFrom(units, lo, i) == [Run(lo, i)] + rest by {
      assert i == |units| ==> rest == [] && [Run(lo, i)] + [] == [Run(lo, i)];
      if i < |units| && |units[i]| > MAX_RUNES {
        assert Pending(i, i) + ([Long(i)] + GroupsFrom(units, i + 1, i + 1)) ==
                 [Long(i)] + GroupsFrom(units, i + 1, i + 1);
      }
    }
    Assoc(done, [Run(lo, i)], rest);
  }

  lemma TakeLong(units: seq<string>, done: seq<Group>, i: nat)
    requires i < |units| && |units[i]| > MAX_RUNES && Due(units, done, i, i)
    ensures Due(units, done + [Long(i)], i + 1, i + 1)
  {
    var rest := GroupsFrom(units, i + 1, i + 1);
    assert Pending(i, i) + ([Long(i)] + rest) == [Long(i)] + rest;
    Assoc(done, [Long(i)], rest);
  }

  /** A unit with room beside the pending run joins it. */
  lemma UnitFits(units: seq<string>, done: seq<Group>, lo: nat, i: nat, chunks: seq<string>, current: string)
    requires Packed(units, done, lo, i, chunks, current) && Due(units, done, lo, i)
    requires i < |units| && units[i] != "" && |units[i]| <= MAX_RUNES
    requires current == "" || |current + GAP + units[i]| <= MAX_RUNES
    ensures Packed(units, done, lo, i + 1, chunks, if current == "" then units[i] else current + GAP + units[i])
    ensures Due(units, done, lo, i + 1)
  {
    TextGrows(units, lo, i);
  }

  method FlushRun(units: seq<string>, ghost done: seq<Group>, ghost lo: nat, ghost i: nat, chunks: seq<string>,
                  current: string)
    returns (chunks': seq<string>, ghost done': seq<Group>)
    requires Packed(units, done, lo, i, chunks, current) && current != ""
    requires Due(units, done, lo, i) && Closes(units, lo, i)
    ensures chunks' == chunks + [current]
    ensures Packed(units, done', i, i, chunks', "") && Due(units, done', i, i)
  {
    RenderMore(units, done, Run(lo, i));
    CloseRun(units, done, lo, i);
    done' := done + [Run(lo, i)];
    chunks' := chunks + [current];
  }

  method PackLong(units: seq<string>, ghost done: seq<Group>, i: nat, chunks: seq<string>)
    returns (chunks': seq<string>, ghost done': seq<Group>)
    requires i < |units| && |units[i]| > MAX_RUNES
    requires Packed(units, done, i, i, chunks, "") && Due(units, done, i, i)
    ensures chunks' == chunks + Windows(units[i])
    ensures Packed(units, done', i + 1, i + 1, chunks', "") && Due(units, done', i + 1, i + 1)
  {
    var windows := SplitLong(units[i]);
    RenderMore(units, done, Long(i));
    TakeLong(units, done, i);
    done' := done + [Long(i)];
    chunks' := chunks + windows;
  }

  /** One turn of the loop over the units. */
  method PackOne(units: seq<string>, ghost done: seq<Group>, ghost lo: nat, i: nat, chunks: seq<string>,
                 current: string)
    returns (chunks': seq<string>, current': string, ghost done': seq<Group>, ghost lo': nat)
    requires i < |units| && units[i] != ""
    requires Packed(units, done, lo, i, chunks, current) && Due(units, done, lo, i)
    ensures Packed(units, done', lo', i + 1, chunks', current') && Due(units, done', lo', i + 1)
  {
    var unit := units[i];
    chunks', current', done', lo' := chunks, current, done, lo;
    if |unit| > MAX_RUNES {
      if current != "" {
        chunks', done' := FlushRun(units, done, lo, i, chunks, current);
        current' := "";
      }
      chunks', done' := PackLong(units, done', i, chunks');
      lo' := i + 1;
      return;
    }
    var candidate := unit;
    if current != "" {
      candidate := current + GAP + unit;
    }
    if |candidate| <= MAX_RUNES {
      UnitFits(units, done, lo, i, chunks, current);
      current' := candidate;
      return;
    }
    chunks', done' := FlushRun(units, done, lo, i, chunks, current);
    UnitFits(units, done', i, i, chunks', "");
    current' := unit;
    lo' := i;
  }

  /** The loop of SplitMarkdown over the units. */
  method Pack(units: seq<string>) returns (chunks: seq<string>)
    requires forall k :: 0 <= k < |units| ==> units[k] != ""
    ensures AllInRange(Groups(units), |units|)
    ensures chunks == RenderAll(units, Groups(units))
  {
    GroupsTile(units, 0, 0);
    chunks := [];
    var current := "";
    ghost var lo := 0;
    ghost var done: seq<Group> := [];
    assert [] + Groups(units) == Groups(units);
    for i := 0 to |units|
      invariant Packed(units, done, lo, i, chunks, current)
      invariant Due(units, done, lo, i)
    {
      chunks, current, done, lo := PackOne(units, done, lo, i, chunks, current);
    }
    if current != "" {
      chunks, done := FlushRun(units, done, lo, |units|, chunks, current);
    }
    assert done + [] == done;
  }

  // ----- what the chunks are -----

  predicate Sized(chunk: string) {
    0 < |chunk| <= MAX_RUNES
  }

  /** A run fits, and could not have taken in the first unit of the run after it. */
  ghost predicate Maximal(units: seq<string>, groups: seq<Group>) {
    && AllInRange(groups, |units|)
    && (forall k :: 0 <= k < |groups| && groups[k].Run? ==> |TextOf(units, groups[k].lo, groups[k].hi)| <= MAX_RUNES)
    && (forall k :: 0 <= k < |groups| && groups[k].Long? ==> |units[groups[k].unit]| > MAX_RUNES)
    && (forall k :: 0 <= k < |groups| - 1 && groups[k].Run? && groups[k + 1].Run? ==>
          |TextOf(units, groups[k].lo, groups[k].hi)| + |GAP| + |units[groups[k + 1].lo]| > MAX_RUNES)
  }

  predicate Fits(units: seq<string>, g: Group)
    requires InRange(g, |units|)
  {
    match g
    case Run(lo, hi) => |TextOf(units, lo, hi)| <= MAX_RUNES
    case Long(u) => |units[u]| > MAX_RUNES
  }

  lemma MaximalCons(units: seq<string>, g: Group, rest: seq<Group>)
    requires InRange(g, |units|) && Fits(units, g) && Maximal(units, rest)
    requires g.Run? && rest != [] && rest[0].Run? ==>
               |TextOf(units, g.lo, g.hi)| + |GAP| + |units[rest[0].lo]| > MAX_RUNES
    ensures Maximal(units, [g] + rest)
  {
    var all := [g] + rest;
    assert forall k :: 1 <= k < |all| ==> all[k] == rest[k - 1];
  }

  lemma MaximalPending(units: seq<string>, lo: nat, i: nat, rest: seq<Group>)
    requires lo <= i <= |units| && Maximal(units, rest)
    requires lo < i ==> |TextOf(units, lo, i)| <= MAX_RUNES
    requires lo < i && rest != [] && rest[0].Run? ==>
               |TextOf(units, lo, i)| + |GAP| + |units[rest[0].lo]| > MAX_RUNES
    ensures Maximal(units, Pending(lo, i) + rest)
    ensures lo < i ==> (Pending(lo, i) + rest)[0] == Run(lo, i)
  {
    if lo < i {
      MaximalCons(units, Run(lo, i), rest);
    } else {
      assert Pending(lo, i) + rest == rest;
    }
  }

  /** What packing gives from here on is maximal, and starts with the pending run if there is one. */
  ghost predicate GoodFrom(units: seq<string>, lo: nat, i: nat)
    requires lo <= i <= |units|
  {
    var groups := GroupsFrom(units, lo, i);
    && Maximal(units, groups)
    && (lo < i ==> groups != [] && groups[0].Run? && groups[0].lo == lo)
  }

  lemma GoodEnd(units: seq<string>, lo: nat)
    requires lo <= |units| && (lo < |units| ==> |TextOf(units, lo, |units|)| <= MAX_RUNES)
    ensures GoodFrom(units, lo, |units|)
  {
    MaximalPending(units, lo, |units|, []);
    assert Pending(lo, |units|) + [] == Pending(lo, |units|);
  }

  lemma GoodLong(units: seq<string>, lo: nat, i: nat)
    requires lo <= i < |units| && |units[i]| > MAX_RUNES && (lo < i ==> |TextOf(units, lo, i)| <= MAX_RUNES)
    requires GoodFrom(units, i + 1, i + 1)
    ensures GoodFrom(units, lo, i)
  {
    var rest := GroupsFrom(units, i + 1, i + 1);
    MaximalCons(units, Long(i), rest);
    MaximalPending(units, lo, i, [Long(i)] + rest);
  }

  lemma GoodRun(units: seq<string>, lo: nat, i: nat)
    requires lo < i < |units| && |units[i]| <= MAX_RUNES && |TextOf(units, lo, i)| <= MAX_RUNES
    requires |TextOf(units, lo, i)| + |GAP| + |units[i]| > MAX_RUNES && GoodFrom(units, i, i + 1)
    ensures GoodFrom(units, lo, i)
  {
    MaximalPending(units, lo, i, GroupsFrom(units, i, i + 1));
  }

  lemma GoodMore(units: seq<string>, lo: nat, i: nat)
    requires lo <= i < |units| && |units[i]| <= MAX_RUNES && GoodFrom(units, lo, i + 1)
    requires lo == i || |TextOf(units, lo, i)| + |GAP| + |units[i]| <= MAX_RUNES
    ensures GoodFrom(units, lo, i)
  {
  }

  /** While packing, the pending run starts where the first group to come starts. */
  lemma {:induction false} PackingIsGood(units: seq<string>, lo: nat, i: nat)
    requires lo <= i <= |units|
    requires lo < i ==> |TextOf(units, lo, i)| <= MAX_RUNES
    ensures GoodFrom(units, lo, i)
    decreases |units| - i
  {
    if i == |units| {
      GoodEnd(units, lo);
    } else if |units[i]| > MAX_RUNES {
      PackingIsGood(units, i + 1, i + 1);
      GoodLong(units, lo, i);
    } else if lo == i || |TextOf(units, lo, i)| + |GAP| + |units[i]| <= MAX_RUNES {
      TextGrows(units, lo, i);
      PackingIsGood(units, lo, i + 1);
      GoodMore(units, lo, i);
    } else {
      TextGrows(units, i, i);
      PackingIsGood(units, i, i + 1);
      GoodRun(units, lo, i);
    }
  }

  lemma GroupsAreMaximal(units: seq<string>, lo: nat, i: nat)
    requires lo <= i <= |units|
    requires lo < i ==> |TextOf(units, lo, i)| <= MAX_RUNES
    ensures Maximal(units, GroupsFrom(units, lo, i))
    ensures var groups := GroupsFrom(units, lo, i); lo < i ==> groups != [] && groups[0].Run? && groups[0].lo == lo
  {
    PackingIsGood(units, lo, i);
  }

  lemma {:induction false} ChunksAreSized(units: seq<string>, groups: seq<Group>)
    requires Maximal(units, groups) && forall k :: 0 <= k < |units| ==> units[k] != ""
    ensures forall k :: 0 <= k < |RenderAll(units, groups)| ==> Sized(RenderAll(units, groups)[k])
    decreases |groups|
  {
    if groups != [] {
      assert Maximal(units, groups[1..]);
      ChunksAreSized(units, groups[1..]);
      match groups[0]
      case Run(lo, hi) => TextLength(units, lo, hi);
      case Long(u) => WindowCount(units[u]);
    }
  }

  /** The text a group stands for: its chunk, or its windows without their overlaps. */
  function Meaning(units: seq<string>, g: Group): string
    requires InRange(g, |units|)
  {
    Unsplit(Render(units, g))
  }

  function Meanings(units: seq<string>, groups: seq<Group>): seq<string>
    requires AllInRange(groups, |units|)
  {
    if groups == [] then [] else [Meaning(units, groups[0])] + Meanings(units, groups[1..])
  }

  lemma MeaningOfFirst(units: seq<string>, groups: seq<Group>, at: nat)
    requires groups != [] && at <= |units| && Tiles(groups, at, |units|)
    ensures at < After(groups[0]) <= |units| && InRange(groups[0], |units|)
    ensures Meaning(units, groups[0]) == TextOf(units, at, After(groups[0]))
    ensures Tiles(groups[1..], After(groups[0]), |units|)
  {
    if groups[0].Long? {
      UnsplitWindows(units[at]);
      assert units[at..at + 1] == [units[at]];
    }
  }

  lemma TextJoins(units: seq<string>, at: nat, mid: nat)
    requires at < mid < |units|
    ensures TextOf(units, at, |units|) == TextOf(units, at, mid) + GAP + TextOf(units, mid, |units|)
  {
    assert units[at..|units|] == units[at..mid] + units[mid..|units|];
    JoinAppend(units[at..mid], units[mid..|units|], GAP);
  }

  lemma JoinFirst(first: string, rest: seq<string>)
    ensures JoinWith([first] + rest, GAP) == if rest == [] then first else first + GAP + JoinWith(rest, GAP)
  {
    assert ([first] + rest)[1..] == rest;
  }

  /** Nothing is lost: the chunks, windows put back together, joined as units are joined, are all the units joined. */
  lemma {:induction false} PackingIsLossless(units: seq<string>, groups: seq<Group>, at: nat)
    requires AllInRange(groups, |units|) && at <= |units| && Tiles(groups, at, |units|)
    ensures |Meanings(units, groups)| == |groups|
    ensures JoinWith(Meanings(units, groups), GAP) == TextOf(units, at, |units|)
    decreases |groups|
  {
    if groups != [] {
      MeaningOfFirst(units, groups, at);
      var next := After(groups[0]);
      PackingIsLossless(units, groups[1..], next);
      JoinFirst(Meaning(units, groups[0]), Meanings(units, groups[1..]));
      if next < |units| {
        TextJoins(units, at, next);
      } else {
        TilesEnd(groups[1..], next);
      }
    }
  }

  lemma TilesEnd(groups: seq<Group>, n: nat)
    requires Tiles(groups, n, n)
    ensures groups == []
  {
  }
}
