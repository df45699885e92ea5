/**
 The vector store as a point set. A point is stored under a string id derived from
 epoch|article|chunk|hash; retrieval, article-level deletion and insertion are filtered by epoch.

 Store is the collection as the client drives it, keyed by id. Points is the same collection keyed
 by what the id is derived from. Abs connects the two as long as the hash is injective.
 */
module VectorPoints {
  import opened Decimals

  type ArticleId = nat

  datatype Key = Key(epoch: nat, article: ArticleId, chunk: nat, sourceHash: string)

  datatype Body = Body(content: string, fingerprint: string)

  datatype Point = Point(key: Key, body: Body)

  type Points = map<Key, Body>

  type Store = map<string, Point>

  // ----- point ids -----

  function Field(n: nat, rest: string): string {
    Decimal(n) + "|" + rest
  }

  /** The text that is hashed into the point id: epoch|article|chunk|hash. */
  function IdText(k: Key): string {
    Field(k.epoch, Field(k.article, Field(k.chunk, k.sourceHash)))
  }

  /** Decimal digits never contain the separator, so its first occurrence splits the text in one way only. */
  lemma FieldInjective(m: nat, x: string, n: nat, y: string)
    requires Field(m, x) == Field(n, y)
    ensures m == n && x == y
  {
    DecimalIsDigits(m);
    DecimalIsDigits(n);
    var a, b, s := Decimal(m), Decimal(n), Field(m, x);
    assert '|' !in a && '|' !in b;
    assert s[|a|] == '|' && s[|b|] == '|';
    assert forall i :: 0 <= i < |a| ==> s[i] == a[i];
    assert forall i :: 0 <= i < |b| ==> s[i] == b[i];
    assert |a| == |b|;
    assert a == s[..|a|] == b;
    assert x == s[|a| + 1..] == y;
    DecimalInjective(m, n);
  }

  /** The hashed text determines epoch, article, chunk index and source hash. */
  lemma IdTextInjective(k: Key, l: Key)
    requires IdText(k) == IdText(l)
    ensures k == l
  {
    var k2, l2 := Field(k.chunk, k.sourceHash), Field(l.chunk, l.sourceHash);
    FieldInjective(k.epoch, Field(k.article, k2), l.epoch, Field(l.article, l2));
    FieldInjective(k.article, k2, l.article, l2);
    FieldInjective(k.chunk, k.sourceHash, l.chunk, l.sourceHash);
  }

  // ----- the calls, on both forms -----

  function DeleteArticleAtEpoch(points: Points, article: ArticleId, epoch: nat): Points {
    map k | k in points && !(k.article == article && k.epoch == epoch) :: points[k]
  }

  function StoreDelete(store: Store, article: ArticleId, epoch: nat): Store {
    map id | id in store && !(store[id].key.article == article && store[id].key.epoch == epoch) :: store[id]
  }

  function StoreUpsert(hash: string -> string, store: Store, batch: seq<Point>): Store {
    if batch == [] then store
    else
      var p := batch[|batch| - 1];
      StoreUpsert(hash, store, batch[..|batch| - 1])[hash(IdText(p.key)) := p]
  }

  function Upsert(points: Points, batch: seq<Point>): Points {
    if batch == [] then points
    else Upsert(points, batch[..|batch| - 1])[batch[|batch| - 1].key := batch[|batch| - 1].body]
  }

  ghost predicate Injective(hash: string -> string) {
    forall x, y :: hash(x) == hash(y) ==> x == y
  }

  ghost predicate WellKeyed(hash: string -> string, store: Store) {
    forall id :: id in store ==> id == hash(IdText(store[id].key))
  }

  ghost function Abs(hash: string -> string, store: Store): Points {
    map id | id in store && id == hash(IdText(store[id].key)) :: store[id].key := store[id].body
  }

  lemma AbsLookup(hash: string -> string, store: Store, k: Key)
    requires Injective(hash) && WellKeyed(hash, store)
    ensures k in Abs(hash, store) <==> hash(IdText(k)) in store && store[hash(IdText(k))].key == k
    ensures k in Abs(hash, store) ==> Abs(hash, store)[k] == store[hash(IdText(k))].body
    ensures hash(IdText(k)) in store ==> store[hash(IdText(k))].key == k
  {
    if hash(IdText(k)) in store {
      IdTextInjective(k, store[hash(IdText(k))].key);
    }
  }

  lemma DeleteAbs(hash: string -> string, store: Store, article: ArticleId, epoch: nat)
    requires Injective(hash) && WellKeyed(hash, store)
    ensures WellKeyed(hash, StoreDelete(store, article, epoch))
    ensures Abs(hash, StoreDelete(store, article, epoch)) == DeleteArticleAtEpoch(Abs(hash, store), article, epoch)
  {
    forall k: Key
      ensures k in Abs(hash, StoreDelete(store, article, epoch)) <==>
                k in DeleteArticleAtEpoch(Abs(hash, store), article, epoch)
      ensures k in Abs(hash, StoreDelete(store, article, epoch)) ==>
                Abs(hash, StoreDelete(store, article, epoch))[k] == Abs(hash, store)[k]
    {
      AbsLookup(hash, store, k);
      AbsLookup(hash, StoreDelete(store, article, epoch), k);
    }
  }

  lemma InsertAbs(hash: string -> string, store: Store, p: Point)
    requires Injective(hash) && WellKeyed(hash, store)
    ensures WellKeyed(hash, store[hash(IdText(p.key)) := p])
    ensures Abs(hash, store[hash(IdText(p.key)) := p]) == Abs(hash, store)[p.key := p.body]
  {
    var after := store[hash(IdText(p.key)) := p];
    forall k: Key
      ensures k in Abs(hash, after) <==> k in Abs(hash, store)[p.key := p.body]
      ensures k in Abs(hash, after) ==> Abs(hash, after)[k] == Abs(hash, store)[p.key := p.body][k]
    {
      AbsLookup(hash, store, k);
      AbsLookup(hash, after, k);
      if hash(IdText(k)) == hash(IdText(p.key)) {
        IdTextInjective(k, p.key);
      }
    }
  }

  lemma {:induction false} UpsertAbs(hash: string -> string, store: Store, batch: seq<Point>)
    requires Injective(hash) && WellKeyed(hash, store)
    ensures WellKeyed(hash, StoreUpsert(hash, store, batch))
    ensures Abs(hash, StoreUpsert(hash, store, batch)) == Upsert(Abs(hash, store), batch)
  {
    if batch != [] {
      UpsertAbs(hash, store, batch[..|batch| - 1]);
      InsertAbs(hash, StoreUpsert(hash, store, batch[..|batch| - 1]), batch[|batch| - 1]);
    }
  }

  // ----- epoch non-interference -----

  /** An article-level call by some worker, at the epoch it believes in. */
  datatype Call = CallDelete(epoch: nat, article: ArticleId) | CallUpsert(epoch: nat, batch: seq<Point>)

  /** A worker stamps its own epoch on every point it writes (worker.go:392-395). */
  predicate Stamped(c: Call) {
    c.CallUpsert? ==> forall i :: 0 <= i < |c.batch| ==> c.batch[i].key.epoch == c.epoch
  }

  function StoreApply(hash: string -> string, store: Store, c: Call): Store {
    match c
    case CallDelete(epoch, article) => StoreDelete(store, article, epoch)
    case CallUpsert(epoch, batch) => StoreUpsert(hash, store, batch)
  }

  function StoreExec(hash: string -> string, store: Store, calls: seq<Call>): Store
    decreases |calls|
  {
    if calls == [] then store else StoreExec(hash, StoreApply(hash, store, calls[0]), calls[1..])
  }

  /** What a search at this epoch ranks: every point whose payload passes the epoch filter. */
  function Candidates(store: Store, epoch: nat): Store {
    map id | id in store && store[id].key.epoch == epoch :: store[id]
  }

  function AtEpoch(calls: seq<Call>, epoch: nat): seq<Call> {
    if calls == [] then []
    else (if calls[0].epoch == epoch then [calls[0]] else []) + AtEpoch(calls[1..], epoch)
  }

  lemma InsertElsewhere(hash: string -> string, store: Store, p: Point, epoch: nat)
    requires Injective(hash) && WellKeyed(hash, store) && p.key.epoch != epoch
    ensures Candidates(store[hash(IdText(p.key)) := p], epoch) == Candidates(store, epoch)
  {
    if hash(IdText(p.key)) in store {
      IdTextInjective(p.key, store[hash(IdText(p.key))].key);
    }
  }

  lemma {:induction false} UpsertElsewhere(hash: string -> string, store: Store, batch: seq<Point>, epoch: nat)
    requires Injective(hash) && WellKeyed(hash, store)
    requires forall i :: 0 <= i < |batch| ==> batch[i].key.epoch != epoch
    ensures Candidates(StoreUpsert(hash, store, batch), epoch) == Candidates(store, epoch)
    ensures WellKeyed(hash, StoreUpsert(hash, store, batch))
  {
    if batch != [] {
      UpsertElsewhere(hash, store, batch[..|batch| - 1], epoch);
      InsertElsewhere(hash, StoreUpsert(hash, store, batch[..|batch| - 1]), batch[|batch| - 1], epoch);
    }
  }

  lemma InsertCandidates(store: Store, id: string, p: Point, epoch: nat)
    requires p.key.epoch == epoch
    ensures Candidates(store[id := p], epoch) == Candidates(store, epoch)[id := p]
  {
  }

  /** A call at the searched epoch acts on the candidates alone. */
  lemma {:induction false} UpsertCandidates(hash: string -> string, store: Store, other: Store, batch: seq<Point>,
                                            epoch: nat)
    requires Candidates(store, epoch) == Candidates(other, epoch)
    requires forall i :: 0 <= i < |batch| ==> batch[i].key.epoch == epoch
    ensures Candidates(StoreUpsert(hash, store, batch), epoch) == Candidates(StoreUpsert(hash, other, batch), epoch)
  {
    if batch != [] {
      var init, p := batch[..|batch| - 1], batch[|batch| - 1];
      UpsertCandidates(hash, store, other, init, epoch);
      InsertCandidates(StoreUpsert(hash, store, init), hash(IdText(p.key)), p, epoch);
      InsertCandidates(StoreUpsert(hash, other, init), hash(IdText(p.key)), p, epoch);
    }
  }

  lemma {:induction false} UpsertWellKeyed(hash: string -> string, store: Store, batch: seq<Point>)
    requires WellKeyed(hash, store)
    ensures WellKeyed(hash, StoreUpsert(hash, store, batch))
  {
    if batch != [] {
      UpsertWellKeyed(hash, store, batch[..|batch| - 1]);
    }
  }

  lemma CallElsewhere(hash: string -> string, store: Store, c: Call, epoch: nat)
    requires Injective(hash) && WellKeyed(hash, store) && Stamped(c) && c.epoch != epoch
    ensures Candidates(StoreApply(hash, store, c), epoch) == Candidates(store, epoch)
    ensures WellKeyed(hash, StoreApply(hash, store, c))
  {
    if c.CallUpsert? {
      UpsertElsewhere(hash, store, c.batch, epoch);
    }
  }

  lemma CallHere(hash: string -> string, store: Store, other: Store, c: Call, epoch: nat)
    requires WellKeyed(hash, store) && Stamped(c) && c.epoch == epoch
    requires Candidates(store, epoch) == Candidates(other, epoch)
    ensures Candidates(StoreApply(hash, store, c), epoch) == Candidates(StoreApply(hash, other, c), epoch)
    ensures WellKeyed(hash, StoreApply(hash, store, c))
  {
    match c
    case CallDelete(_, a) =>
      assert Candidates(StoreDelete(store, a, epoch), epoch) == StoreDelete(Candidates(store, epoch), a, epoch);
      assert Candidates(StoreDelete(other, a, epoch), epoch) == StoreDelete(Candidates(other, epoch), a, epoch);
    case CallUpsert(_, batch) =>
      UpsertCandidates(hash, store, other, batch, epoch);
      UpsertWellKeyed(hash, store, batch);
  }

  /**
   Non-interference. Take any interleaving of article-level calls by any number of workers at any
   epochs: a search at one epoch sees exactly what it would see if only the calls made at that
   epoch had been made. A stale worker can neither remove nor replace nor add a result.
   */
  lemma {:induction false} EpochNonInterference(hash: string -> string, store: Store, other: Store, calls: seq<Call>,
                                                epoch: nat)
    requires Injective(hash) && WellKeyed(hash, store)
    requires Candidates(store, epoch) == Candidates(other, epoch)
    requires forall i :: 0 <= i < |calls| ==> Stamped(calls[i])
    ensures Candidates(StoreExec(hash, store, calls), epoch) ==
              Candidates(StoreExec(hash, other, AtEpoch(calls, epoch)), epoch)
    decreases |calls|
  {
    if calls != [] {
      assert Stamped(calls[0]);
      var store' := StoreApply(hash, store, calls[0]);
      if calls[0].epoch == epoch {
        CallHere(hash, store, other, calls[0], epoch);
        EpochNonInterference(hash, store', StoreApply(hash, other, calls[0]), calls[1..], epoch);
        assert AtEpoch(calls, epoch)[1..] == AtEpoch(calls[1..], epoch);
      } else {
        CallElsewhere(hash, store, calls[0], epoch);
        EpochNonInterference(hash, store', other, calls[1..], epoch);
        assert AtEpoch(calls, epoch) == AtEpoch(calls[1..], epoch);
      }
    }
  }

  // ----- the latest call -----

  lemma {:induction false} ExecOneMore(hash: string -> string, store: Store, calls: seq<Call>, c: Call)
    ensures StoreExec(hash, store, calls + [c]) == StoreApply(hash, StoreExec(hash, store, calls), c)
    decreases |calls|
  {
    if calls == [] {
      assert calls + [c] == [c] && [c][1..] == [];
    } else {
      assert (calls + [c])[0] == calls[0] && (calls + [c])[1..] == calls[1..] + [c];
      ExecOneMore(hash, StoreApply(hash, store, calls[0]), calls[1..], c);
    }
  }

  /** After a deletion nothing of the article is found at that epoch; all the rest is as it was. */
  lemma DeletedIsGone(hash: string -> string, store: Store, calls: seq<Call>, epoch: nat, article: ArticleId,
                      id: string)
    ensures var before, after :=
              StoreExec(hash, store, calls), StoreExec(hash, store, calls + [CallDelete(epoch, article)]);
            && (id in after <==> id in before && !(before[id].key.article == article && before[id].key.epoch == epoch))
            && (id in after ==> after[id] == before[id])
  {
    ExecOneMore(hash, store, calls, CallDelete(epoch, article));
  }

  /**
   After an insertion its last point of each key is found with its content; keys it does not name are as they
   were.
   */
  lemma InsertedIsFound(hash: string -> string, store: Store, calls: seq<Call>, epoch: nat, batch: seq<Point>, k: Key)
    requires Injective(hash) && WellKeyed(hash, StoreExec(hash, store, calls))
    ensures var before := Abs(hash, StoreExec(hash, store, calls));
            var after := Abs(hash, StoreExec(hash, store, calls + [CallUpsert(epoch, batch)]));
            && (forall i ::
                  0 <= i < |batch| && batch[i].key == k && (forall j :: i < j < |batch| ==> batch[j].key != k) ==>
                    k in after && after[k] == batch[i].body)
            && ((forall i :: 0 <= i < |batch| ==> batch[i].key != k) ==>
                  (k in after <==> k in before) && (k in before ==> after[k] == before[k]))
  {
    ExecOneMore(hash, store, calls, CallUpsert(epoch, batch));
    var points := Abs(hash, StoreExec(hash, store, calls));
    UpsertAbs(hash, StoreExec(hash, store, calls), batch);
    forall i | 0 <= i < |batch| && batch[i].key == k && (forall j :: i < j < |batch| ==> batch[j].key != k)
      ensures k in Upsert(points, batch) && Upsert(points, batch)[k] == batch[i].body
    {
      LastOfBatch(points, batch, i);
    }
    if forall i :: 0 <= i < |batch| ==> batch[i].key != k {
      NotInBatch(points, batch, k);
    }
  }

  lemma {:induction false} NotInBatch(points: Points, batch: seq<Point>, k: Key)
    requires forall i :: 0 <= i < |batch| ==> batch[i].key != k
    ensures (k in Upsert(points, batch) <==> k in points) && (k in points ==> Upsert(points, batch)[k] == points[k])
  {
    if batch != [] {
      NotInBatch(points, batch[..|batch| - 1], k);
    }
  }

  lemma {:induction false} LastOfBatch(points: Points, batch: seq<Point>, i: nat)
    requires i < |batch| && forall j :: i < j < |batch| ==> batch[j].key != batch[i].key
    ensures batch[i].key in Upsert(points, batch) && Upsert(points, batch)[batch[i].key] == batch[i].body
  {
    if i < |batch| - 1 {
      LastOfBatch(points, batch[..|batch| - 1], i);
    }
  }
}
