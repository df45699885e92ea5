/** The public display order of articles, and the previous/next links computed by two separate queries. */
module DisplayOrder {
  import opened Basics
  import opened Articles

  /** The columns that decide visibility and order. */
  datatype Row = Row(
    id: nat,
    status: ArticleStatus,
    scheduledAt: Option<Time>,
    pinned: bool,
    priority: int,
    publishedAt: Option<Time>,
    createdAt: Time)

  predicate Visible(r: Row, now: Time) {
    VisibleAt(r.status, r.scheduledAt, now)
  }

  function BoolOrder(b: bool): int {
    if b then 1 else 0
  }

  /** COALESCE(published_at, created_at) */
  function Moment(r: Row): Time {
    match r.publishedAt
    case Some(t) => t
    case None => r.createdAt
  }

  // ----- the conditions of the two queries -----

  predicate WherePrev(r: Row, cur: Row) {
    || BoolOrder(r.pinned) < BoolOrder(cur.pinned)
    || (r.pinned == cur.pinned && r.priority < cur.priority)
    || (r.pinned == cur.pinned && r.priority == cur.priority && Moment(r) < Moment(cur))
    || (r.pinned == cur.pinned && r.priority == cur.priority && Moment(r) == Moment(cur) && r.id < cur.id)
  }

  predicate WhereNext(r: Row, cur: Row) {
    || BoolOrder(r.pinned) > BoolOrder(cur.pinned)
    || (r.pinned == cur.pinned && r.priority > cur.priority)
    || (r.pinned == cur.pinned && r.priority == cur.priority && Moment(r) > Moment(cur))
    || (r.pinned == cur.pinned && r.priority == cur.priority && Moment(r) == Moment(cur) && r.id > cur.id)
  }

  // ----- the order the rows are sorted in -----

  /** The sort key, most significant column first. */
  function Columns(r: Row): seq<int> {
    [BoolOrder(r.pinned), r.priority, Moment(r), r.id]
  }

  /** Strict lexicographic order on keys of the same length. */
  predicate Below(s: seq<int>, t: seq<int>)
    requires |s| == |t|
  {
    s != [] && (s[0] < t[0] || (s[0] == t[0] && Below(s[1..], t[1..])))
  }

  lemma {:induction false} BelowIsStrict(s: seq<int>, t: seq<int>)
    requires |s| == |t|
    ensures !(Below(s, t) && Below(t, s))
    ensures Below(s, t) || Below(t, s) || s == t
  {
    if s != [] {
      BelowIsStrict(s[1..], t[1..]);
      assert s == [s[0]] + s[1..] && t == [t[0]] + t[1..];
    }
  }

  /** r comes after q in the list: ORDER BY every column descending. */
  predicate After(r: Row, q: Row) {
    Below(Columns(r), Columns(q))
  }

  /** The two hand-written conditions are the list order, in one direction and the other. */
  lemma ConditionsAreTheOrder(r: Row, cur: Row)
    ensures WherePrev(r, cur) <==> After(r, cur)
    ensures WhereNext(r, cur) <==> After(cur, r)
  {
    ColumnsUnfold(r, cur);
    ColumnsUnfold(cur, r);
  }

  lemma ColumnsUnfold(r: Row, q: Row)
    ensures After(r, q) <==>
              || BoolOrder(r.pinned) < BoolOrder(q.pinned)
              || (r.pinned == q.pinned && (r.priority < q.priority
                  || (r.priority == q.priority && (Moment(r) < Moment(q) || (Moment(r) == Moment(q) && r.id < q.id)))))
  {
    var s1, t1 := [r.id], [q.id];
    var s2, t2 := [Moment(r)] + s1, [Moment(q)] + t1;
    var s3, t3 := [r.priority] + s2, [q.priority] + t2;
    BelowCons(r.id, [], q.id, []);
    assert [r.id] + [] == s1 && [q.id] + [] == t1;
    BelowCons(Moment(r), s1, Moment(q), t1);
    BelowCons(r.priority, s2, q.priority, t2);
    BelowCons(BoolOrder(r.pinned), s3, BoolOrder(q.pinned), t3);
    assert Columns(r) == [BoolOrder(r.pinned)] + s3 && Columns(q) == [BoolOrder(q.pinned)] + t3;
  }

  lemma BelowCons(x: int, s: seq<int>, y: int, t: seq<int>)
    requires |s| == |t|
    ensures Below([x] + s, [y] + t) <==> x < y || (x == y && Below(s, t))
  {
    assert ([x] + s)[1..] == s && ([y] + t)[1..] == t;
  }

  /** No two rows of a table share an id. */
  predicate DistinctIds(rows: set<Row>) {
    forall r, q :: r in rows && q in rows && r.id == q.id ==> r == q
  }

  lemma RowsAreOrdered(rows: set<Row>, r: Row, q: Row)
    requires DistinctIds(rows) && r in rows && q in rows
    ensures !(After(r, q) && After(q, r))
    ensures After(r, q) || After(q, r) || r == q
  {
    BelowIsStrict(Columns(r), Columns(q));
    if Columns(r) == Columns(q) {
      assert Columns(r)[3] == Columns(q)[3];
    }
  }

  // ----- what the queries answer -----

  /** The list of all visible rows, as ListPublicArticles without its limit returns it. */
  ghost predicate IsList(list: seq<Row>, rows: set<Row>) {
    && (forall r :: r in rows <==> r in list)
    && (forall i, j :: 0 <= i < j < |list| ==> After(list[j], list[i]))
  }

  /** WherePrev rows, in list order, first one. */
  ghost predicate PrevAnswer(rows: set<Row>, cur: Row, answer: Option<Row>) {
    match answer
    case None => forall r :: r in rows ==> !WherePrev(r, cur)
    case Some(a) =>
      a in rows && WherePrev(a, cur) && forall r :: r in rows && WherePrev(r, cur) && r != a ==> After(r, a)
  }

  /** WhereNext rows, in the reverse order, first one. */
  ghost predicate NextAnswer(rows: set<Row>, cur: Row, answer: Option<Row>) {
    match answer
    case None => forall r :: r in rows ==> !WhereNext(r, cur)
    case Some(a) =>
      a in rows && WhereNext(a, cur) && forall r :: r in rows && WhereNext(r, cur) && r != a ==> After(a, r)
  }

  lemma ListIsOrdered(rows: set<Row>, list: seq<Row>, i: nat, j: nat)
    requires DistinctIds(rows) && IsList(list, rows) && i < |list| && j < |list|
    ensures After(list[j], list[i]) <==> i < j
  {
    RowsAreOrdered(rows, list[i], list[j]);
  }

  /** Whatever the previous-article query answers is the next item of the list, and nothing exactly at its end. */
  lemma PrevIsTheItemAfter(rows: set<Row>, list: seq<Row>, i: nat, answer: Option<Row>)
    requires DistinctIds(rows) && IsList(list, rows) && i < |list|
    ensures PrevAnswer(rows, list[i], answer) <==> answer == if i + 1 < |list| then Some(list[i + 1]) else None
  {
    var cur := list[i];
    forall k | 0 <= k < |list| ensures WherePrev(list[k], cur) <==> i < k {
      ConditionsAreTheOrder(list[k], cur);
      ListIsOrdered(rows, list, i, k);
    }
    if i + 1 < |list| {
      forall k | i + 1 < k < |list| ensures After(list[k], list[i + 1]) && !After(list[i + 1], list[k]) {
        ListIsOrdered(rows, list, i + 1, k);
        ListIsOrdered(rows, list, k, i + 1);
      }
      assert list[i + 1] in rows;
    }
    if answer.Some? && PrevAnswer(rows, cur, answer) {
      var k :| 0 <= k < |list| && list[k] == answer.value;
    }
  }

  /** The next-article query answers the item before it in the list. */
  lemma NextIsTheItemBefore(rows: set<Row>, list: seq<Row>, i: nat, answer: Option<Row>)
    requires DistinctIds(rows) && IsList(list, rows) && i < |list|
    ensures NextAnswer(rows, list[i], answer) <==> answer == if i > 0 then Some(list[i - 1]) else None
  {
    var cur := list[i];
    forall k | 0 <= k < |list| ensures WhereNext(list[k], cur) <==> k < i {
      ConditionsAreTheOrder(list[k], cur);
      ListIsOrdered(rows, list, k, i);
    }
    if i > 0 {
      forall k | 0 <= k < i - 1 ensures After(list[i - 1], list[k]) && !After(list[k], list[i - 1]) {
        ListIsOrdered(rows, list, i - 1, k);
        ListIsOrdered(rows, list, k, i - 1);
      }
      assert list[i - 1] in rows;
    }
    if answer.Some? && NextAnswer(rows, cur, answer) {
      var k :| 0 <= k < |list| && list[k] == answer.value;
    }
  }

  /** Following one link and then the other comes back. */
  lemma LinksUndoEachOther(rows: set<Row>, cur: Row, other: Row)
    requires DistinctIds(rows) && cur in rows && other in rows
    ensures PrevAnswer(rows, cur, Some(other)) <==> NextAnswer(rows, other, Some(cur))
  {
    ConditionsAreTheOrder(other, cur);
    ConditionsAreTheOrder(cur, other);
    forall r | r in rows
      ensures WherePrev(r, cur) <==> After(r, cur)
      ensures WhereNext(r, other) <==> After(other, r)
      ensures r != cur ==> (After(cur, r) <==> !After(r, cur))
      ensures r != other ==> (After(other, r) <==> !After(r, other))
    {
      ConditionsAreTheOrder(r, cur);
      ConditionsAreTheOrder(r, other);
      RowsAreOrdered(rows, r, cur);
      RowsAreOrdered(rows, r, other);
    }
    RowsAreOrdered(rows, cur, cur);
    RowsAreOrdered(rows, other, other);
  }

  /** There is one list only, so pages of it neither overlap nor skip a row. */
  lemma {:induction false} ListIsUnique(rows: set<Row>, xs: seq<Row>, ys: seq<Row>)
    requires DistinctIds(rows) && IsList(xs, rows) && IsList(ys, rows)
    ensures xs == ys
    decreases |xs|
  {
    assert xs != [] ==> xs[0] in rows;
    assert ys != [] ==> ys[0] in rows;
    if xs != [] {
      FirstIsGreatest(rows, xs, ys);
      var rest := rows - {xs[0]};
      TailIsList(rows, xs);
      TailIsList(rows, ys);
      ListIsUnique(rest, xs[1..], ys[1..]);
    }
  }

  lemma FirstIsGreatest(rows: set<Row>, xs: seq<Row>, ys: seq<Row>)
    requires DistinctIds(rows) && IsList(xs, rows) && IsList(ys, rows) && xs != [] && ys != []
    ensures xs[0] == ys[0]
  {
    assert ys[0] in rows && xs[0] in rows;
    var k :| 0 <= k < |xs| && xs[k] == ys[0];
    var l :| 0 <= l < |ys| && ys[l] == xs[0];
    RowsAreOrdered(rows, xs[0], ys[0]);
  }

  lemma TailIsList(rows: set<Row>, xs: seq<Row>)
    requires DistinctIds(rows) && IsList(xs, rows) && xs != []
    ensures IsList(xs[1..], rows - {xs[0]}) && DistinctIds(rows - {xs[0]})
  {
    forall k | 0 < k < |xs| ensures xs[k] != xs[0] {
      ListIsOrdered(rows, xs, 0, k);
      RowsAreOrdered(rows, xs[0], xs[0]);
    }
  }

  function VisibleRows(table: set<Row>, now: Time): set<Row> {
    set r | r in table && Visible(r, now)
  }

  /**
   PublicArticleContext, both queries over one state of the table: the links of a visible article are its
   neighbours in the list of visible articles, and an article that is not visible is never linked.
   */
  lemma LinksAreNeighbours(table: set<Row>, now: Time, list: seq<Row>, i: nat, prev: Option<Row>, next: Option<Row>)
    requires DistinctIds(table) && IsList(list, VisibleRows(table, now)) && i < |list|
    ensures PrevAnswer(VisibleRows(table, now), list[i], prev)
            && NextAnswer(VisibleRows(table, now), list[i], next) <==>
              && prev == (if i + 1 < |list| then Some(list[i + 1]) else None)
              && next == (if i > 0 then Some(list[i - 1]) else None)
  {
    PrevIsTheItemAfter(VisibleRows(table, now), list, i, prev);
    NextIsTheItemBefore(VisibleRows(table, now), list, i, next);
  }

  /** Whatever the queries answer is a stored, published article whose schedule, if it has one, has come. */
  lemma LinkedIsPublic(table: set<Row>, now: Time, cur: Row, link: Row)
    requires PrevAnswer(VisibleRows(table, now), cur, Some(link))
               || NextAnswer(VisibleRows(table, now), cur, Some(link))
    ensures link in table && link.status == Published && (link.scheduledAt.Some? ==> link.scheduledAt.value <= now)
  {
  }
}
