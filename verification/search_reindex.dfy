/**
 Rebuilding the search index: every document is upserted first, and only then are the documents that are no
 longer wanted listed page by page and deleted one by one.
 */
module SearchReindex {
  import opened Ordering

  type Id = nat

  datatype Document = Document(id: Id, text: string)

  type Index = map<Id, Document>

  // ----- what a batch does -----

  /** Documents replace those with the same id; of two with one id in a batch the later one stays. */
  function Added(index: Index, docs: seq<Document>): Index
    decreases |docs|
  {
    if docs == [] then index else Added(index[docs[0].id := docs[0]], docs[1..])
  }

  /** The index that holds the given documents and nothing else. */
  function Goal(docs: seq<Document>): Index {
    Added(map[], docs)
  }

  function Ids(docs: seq<Document>): set<Id> {
    set d | d in docs :: d.id
  }

  lemma {:induction false} AddedKeys(index: Index, docs: seq<Document>)
    ensures Added(index, docs).Keys == index.Keys + Ids(docs)
    decreases |docs|
  {
    if docs != [] {
      AddedKeys(index[docs[0].id := docs[0]], docs[1..]);
    }
  }

  /** What a batch says about its own ids does not depend on the index; about other ids it says nothing. */
  lemma {:induction false} AddedLookup(index: Index, other: Index, docs: seq<Document>, id: Id)
    ensures id in Ids(docs) ==>
              id in Added(index, docs) && id in Added(other, docs) && Added(index, docs)[id] == Added(other, docs)[id]
    ensures id !in Ids(docs) && id in index ==> id in Added(index, docs) && Added(index, docs)[id] == index[id]
    decreases |docs|
  {
    if docs != [] {
      var d := docs[0];
      AddedLookup(index[d.id := d], other[d.id := d], docs[1..], id);
      AddedLookup(other[d.id := d], index[d.id := d], docs[1..], id);
    }
  }

  lemma AddedIs(index: Index, docs: seq<Document>)
    ensures Goal(docs).Keys == Ids(docs)
    ensures Added(index, docs).Keys == index.Keys + Ids(docs)
    ensures forall id :: id in Added(index, docs) ==>
              Added(index, docs)[id] == if id in Goal(docs) then Goal(docs)[id] else index[id]
  {
    AddedKeys(index, docs);
    AddedKeys(map[], docs);
    forall id | id in Added(index, docs)
      ensures Added(index, docs)[id] == if id in Goal(docs) then Goal(docs)[id] else index[id]
    {
      AddedLookup(index, map[], docs, id);
    }
  }

  /** The document that stays is the last one with its id. */
  lemma {:induction false} LastOneStays(docs: seq<Document>, i: nat)
    requires i < |docs| && forall k :: i < k < |docs| ==> docs[k].id != docs[i].id
    ensures docs[i].id in Goal(docs) && Goal(docs)[docs[i].id] == docs[i]
  {
    AddedKeepsLast(map[], docs, i);
  }

  lemma {:induction false} AddedKeepsLast(index: Index, docs: seq<Document>, i: nat)
    requires i < |docs| && forall k :: i < k < |docs| ==> docs[k].id != docs[i].id
    ensures docs[i].id in Added(index, docs) && Added(index, docs)[docs[i].id] == docs[i]
    decreases |docs|
  {
    var index' := index[docs[0].id := docs[0]];
    if i > 0 {
      AddedKeepsLast(index', docs[1..], i - 1);
    } else {
      assert docs[0].id !in Ids(docs[1..]);
      AddedLookup(index', index', docs[1..], docs[0].id);
    }
  }

  // ----- listing -----

  const PAGE: nat := 1000

  /** The order the server lists its documents in: every id once. */
  predicate Lists(order: seq<Id>, ids: set<Id>) {
    SetOf(order) == ids && forall i, j :: 0 <= i < j < |order| ==> order[i] != order[j]
  }

  function StaleOf(order: seq<Id>, wanted: set<Id>): seq<Id> {
    if order == [] then []
    else StaleOf(order[..|order| - 1], wanted)
         + (if order[|order| - 1] in wanted then [] else [order[|order| - 1]])
  }

  /** The stale ids are exactly the listed ids that are not wanted, each once. */
  lemma {:induction false} StaleIsExact(order: seq<Id>, wanted: set<Id>, ids: set<Id>)
    requires Lists(order, ids)
    ensures Lists(StaleOf(order, wanted), ids - wanted)
  {
    if order != [] {
      var front, last := order[..|order| - 1], order[|order| - 1];
      StaleIsExact(front, wanted, ids - {last});
      var rest := StaleOf(front, wanted);
      assert last !in SetOf(rest);
      if last in wanted {
        assert StaleOf(order, wanted) == rest;
        assert ids - {last} - wanted == ids - wanted;
      } else {
        assert ids - {last} - wanted + {last} == ids - wanted;
      }
    }
  }

  // ----- never a gap -----

  /** Every document is the old or the wanted one, and none that is both before and wanted is absent. */
  predicate Between(before: Index, goal: Index, now: Index) {
    && (forall id :: id in now ==> (id in goal && now[id] == goal[id]) || (id in before && now[id] == before[id]))
    && (forall id :: id in before && id in goal ==> id in now)
  }

  lemma AddedIsBetween(before: Index, docs: seq<Document>, gone: set<Id>)
    requires gone * Ids(docs) == {}
    ensures Between(before, Goal(docs), before) && Between(before, Goal(docs), Added(before, docs) - gone)
  {
    AddedIs(before, docs);
    var now := Added(before, docs) - gone;
    forall id | id in before && id in Goal(docs) ensures id in now {
      assert id !in gone by { assert id in gone ==> id in gone * Ids(docs); }
    }
  }

  lemma SweptIsGoal(before: Index, docs: seq<Document>)
    ensures Added(before, docs) - (Added(before, docs).Keys - Ids(docs)) == Goal(docs)
  {
    AddedIs(before, docs);
  }

  /** Without the sweep the index is as wanted exactly when there was nothing to sweep. */
  lemma UnsweptIsGoalIff(before: Index, docs: seq<Document>)
    ensures Added(before, docs) == Goal(docs) <==> before.Keys <= Ids(docs)
  {
    AddedIs(before, docs);
  }

  // ----- the remote index -----

  datatype Fate = Succeeds | Fails(effect: bool)

  /** What becomes of each call; fate number k of a loop is that of its k-th call. */
  datatype Fates = Fates(ensure: nat -> Fate, configure: Fate, add: Fate, configureAgain: Fate, list: nat -> Fate,
                         delete: nat -> Fate)

  class SearchIndex {
    var created: bool
    var docs: Index
    /** The documents after each call that may change them. */
    ghost var trail: seq<Index>

    constructor (created: bool, docs: Index)
      ensures this.created == created && this.docs == docs && trail == []
    {
      this.created, this.docs, trail := created, docs, [];
    }

    /** A change on the server: it happens unless the call fails without effect. */
    method Change(target: Index, fate: Fate) returns (ok: bool)
      modifies this`docs, this`trail
      ensures ok <==> fate == Succeeds
      ensures docs == if fate == Fails(false) then old(docs) else target
      ensures trail == old(trail) + [docs]
    {
      if fate != Fails(false) {
        docs := target;
      }
      trail := trail + [docs];
      ok := fate == Succeeds;
    }

    method EnsureIndex(fate: nat -> Fate) returns (ok: bool)
      modifies this`created
      ensures ok ==> created
    {
      if fate(0) != Succeeds {
        return false;
      }
      if created {
        return true;
      }
      created := fate(1) != Fails(false);
      ok := fate(1) == Succeeds;
    }

    /** One page after another until a short one. */
    method ListStale(order: seq<Id>, wanted: set<Id>, fate: nat -> Fate) returns (stale: seq<Id>, ok: bool)
      ensures ok ==> stale == StaleOf(order, wanted)
      ensures ok <==> forall k: nat :: k <= |order| / PAGE ==> fate(k) == Succeeds
    {
      stale := [];
      var offset := 0;
      ghost var page := 0;
      while true
        invariant 0 <= offset <= |order| && offset == page * PAGE
        invariant stale == StaleOf(order[..offset], wanted)
        invariant forall k: nat :: k < page ==> fate(k) == Succeeds
        decreases |order| - offset
      {
        if fate(offset / PAGE) != Succeeds {
          assert page <= |order| / PAGE;
          return stale, false;
        }
        var end := if offset + PAGE < |order| then offset + PAGE else |order|;
        stale := KeepStale(order, offset, end, wanted, stale);
        if end - offset < PAGE {
          assert order[..end] == order && page == |order| / PAGE;
          break;
        }
        offset := offset + PAGE;
        page := page + 1;
      }
      ok := true;
    }

    /** The ids of one page that are not wanted. */
    method KeepStale(order: seq<Id>, offset: nat, end: nat, wanted: set<Id>, stale: seq<Id>) returns (stale': seq<Id>)
      requires offset <= end <= |order| && stale == StaleOf(order[..offset], wanted)
      ensures stale' == StaleOf(order[..end], wanted)
    {
      stale' := stale;
      for i := offset to end
        invariant stale' == StaleOf(order[..i], wanted)
      {
        assert order[..i + 1][..i] == order[..i];
        if order[i] !in wanted {
          stale' := stale' + [order[i]];
        }
      }
    }

    method DeleteAll(stale: seq<Id>, fate: nat -> Fate, ghost before: Index, ghost input: seq<Document>)
      returns (ok: bool)
      requires docs == Added(before, input) && forall k :: 0 <= k < |stale| ==> stale[k] !in Ids(input)
      modifies this`docs, this`trail
      ensures ok ==> docs == Added(before, input) - SetOf(stale)
      ensures Between(before, Goal(input), docs)
      ensures old(trail) <= trail && forall k :: |old(trail)| <= k < |trail| ==> Between(before, Goal(input), trail[k])
    {
      ghost var full := docs;
      AddedIsBetween(before, input, {});
      for k := 0 to |stale|
        invariant docs == full - SetOf(stale[..k]) && Between(before, Goal(input), docs)
        invariant old(trail) <= trail
        invariant forall j :: |old(trail)| <= j < |trail| ==> Between(before, Goal(input), trail[j])
      {
        assert stale[..k + 1] == stale[..k] + [stale[k]];
        ghost var gone := SetOf(stale[..k + 1]);
        assert docs - {stale[k]} == full - gone;
        AddedIsBetween(before, input, gone);
        ok := Change(docs - {stale[k]}, fate(k));
        if !ok {
          return;
        }
      }
      assert stale[..|stale|] == stale;
      ok := true;
    }

    /** The first half of Reindex: the index exists, is configured, and has every given document. */
    method Upload(input: seq<Document>, fates: Fates) returns (ok: bool)
      modifies this
      ensures ok ==> docs == Added(old(docs), input)
      ensures docs == old(docs) || docs == Added(old(docs), input)
      ensures old(trail) <= trail
      ensures forall k :: |old(trail)| <= k < |trail| ==> trail[k] == old(docs) || trail[k] == Added(old(docs), input)
    {
      ok := EnsureIndex(fates.ensure);
      if !ok || fates.configure != Succeeds {
        return false;
      }
      if |input| > 0 {
        ok := Change(Added(docs, input), fates.add);
        if !ok {
          return;
        }
      }
      ok := fates.configureAgain == Succeeds;
    }

    /**
     A rebuild that is reported as done, its listing included, leaves exactly the given documents. However it
     ends, no document that was there before and is wanted is ever missing in between, and a failed listing
     is not reported.
     */
    method Reindex(input: seq<Document>, lister: Index -> seq<Id>, fates: Fates) returns (ok: bool, ghost listed: bool)
      requires forall index: Index :: Lists(lister(index), index.Keys)
      modifies this
      ensures ok ==> docs == if listed then Goal(input) else Added(old(docs), input)
      ensures ok ==> (listed <==> forall k: nat :: k <= |Added(old(docs), input)| / PAGE ==> fates.list(k) == Succeeds)
      ensures Between(old(docs), Goal(input), docs)
      ensures old(trail) <= trail && forall k :: |old(trail)| <= k < |trail| ==>
                Between(old(docs), Goal(input), trail[k])
    {
      ghost var before := docs;
      listed := false;
      AddedIsBetween(before, input, {});
      assert Added(before, input) - {} == Added(before, input);
      ok := Upload(input, fates);
      if !ok {
        return;
      }
      var order := lister(docs);
      var stale, found := ListStale(order, Ids(input), fates.list);
      ListLength(order, docs.Keys);
      if !found {
        return true, false;
      }
      listed := true;
      StaleFacts(order, docs.Keys, Ids(input), stale);
      SweptIsGoal(before, input);
      ok := DeleteAll(stale, fates.delete, before, input);
    }
  }

  lemma StaleFacts(order: seq<Id>, ids: set<Id>, wanted: set<Id>, stale: seq<Id>)
    requires Lists(order, ids) && stale == StaleOf(order, wanted)
    ensures SetOf(stale) == ids - wanted && forall k :: 0 <= k < |stale| ==> stale[k] !in wanted
  {
    StaleIsExact(order, wanted, ids);
    assert forall k :: 0 <= k < |stale| ==> stale[k] in SetOf(stale);
  }

  lemma {:induction false} ListLength(order: seq<Id>, ids: set<Id>)
    requires Lists(order, ids)
    ensures |order| == |ids|
  {
    if order != [] {
      ListLength(order[..|order| - 1], ids - {order[|order| - 1]});
    }
  }
}
