/**
 The two readers of the queue hierarchy: GetQueuesPerPartition, which groups the rows of a
 partition by parent id, and GetQueue, which follows a recursive query.  A SELECT may deliver
 its rows in any order.
 */
module QueueReaders {
  import opened Options
  import opened UpsertTable
  import opened QueueModel
  import opened StoreRuns
  import opened QueueCalls

  /** childrenMap[p]: the rows delivered with parent id p, in order of delivery; None gives the root queues. */
  function KidsOf(rows: seq<QRow>, p: Option<Id>): (r: seq<QRow>)
    ensures forall c :: c in r <==> c in rows && c.fixed.parentId == p
  {
    if rows == [] then []
    else
      var last := rows[|rows| - 1];
      KidsOf(rows[..|rows| - 1], p) + (if last.fixed.parentId == p then [last] else [])
  }

  ghost predicate Drawn(rows: seq<QRow>, t: seq<QRow>) {
    forall r :: r in rows ==> r in t
  }

  /** The table is a forest and every id was handed out once. */
  ghost predicate Stored(t: seq<QRow>, uuid: Supply) {
    Forest(t, uuid) && Injective(uuid)
  }

  /** Insertion rank. */
  ghost function Rank(t: seq<QRow>, r: QRow): (i: nat)
    requires r in t
    ensures i < |t| && t[i] == r
  {
    var i :| 0 <= i < |t| && t[i] == r;
    i
  }

  lemma ParentRanksLower(t: seq<QRow>, uuid: Supply, child: QRow, parent: QRow)
    requires Stored(t, uuid) && child in t && parent in t && child.fixed.parentId == Some(parent.fixed.id)
    ensures Rank(t, parent) < Rank(t, child)
  {
    assert LinkedBefore(t, uuid, Rank(t, child));
  }

  lemma SameIdSameRow(t: seq<QRow>, uuid: Supply, a: QRow, b: QRow)
    requires Stored(t, uuid) && a in t && b in t && a.fixed.id == b.fixed.id
    ensures a == b
  {
    assert uuid(Rank(t, a)) == uuid(Rank(t, b));
  }

  // ----- getChildrenFromMap -----

  /** The tree of a row; the recursion ends because a child was inserted after its parent. */
  ghost function TreeAt(t: seq<QRow>, uuid: Supply, rows: seq<QRow>, r: QRow): Tree
    requires Stored(t, uuid) && Drawn(rows, t) && r in t
    decreases |t| - Rank(t, r)
  {
    var kids := KidsOf(rows, Some(r.fixed.id));
    Tree(r, seq(|kids|, i requires 0 <= i < |kids| =>
      assert kids[i] in kids;
      ParentRanksLower(t, uuid, kids[i], r);
      TreeAt(t, uuid, rows, kids[i])))
  }

  ghost function Grow(t: seq<QRow>, uuid: Supply, rows: seq<QRow>, list: seq<QRow>): seq<Tree>
    requires Stored(t, uuid) && Drawn(rows, t) && Drawn(list, t)
  {
    seq(|list|, i requires 0 <= i < |list| => assert list[i] in list; TreeAt(t, uuid, rows, list[i]))
  }

  lemma TreeIs(t: seq<QRow>, uuid: Supply, rows: seq<QRow>, r: QRow)
    requires Stored(t, uuid) && Drawn(rows, t) && r in t
    ensures Drawn(KidsOf(rows, Some(r.fixed.id)), t)
    ensures TreeAt(t, uuid, rows, r) == Tree(r, Grow(t, uuid, rows, KidsOf(rows, Some(r.fixed.id))))
  {
  }

  lemma GrowAppend(t: seq<QRow>, uuid: Supply, rows: seq<QRow>, a: seq<QRow>, b: seq<QRow>)
    requires Stored(t, uuid) && Drawn(rows, t) && Drawn(a, t) && Drawn(b, t)
    ensures Drawn(a + b, t)
    ensures Grow(t, uuid, rows, a + b) == Grow(t, uuid, rows, a) + Grow(t, uuid, rows, b)
  {
  }

  /** GetQueuesPerPartition on the rows delivered. */
  ghost function ReadForest(t: seq<QRow>, uuid: Supply, rows: seq<QRow>): seq<Tree>
    requires Stored(t, uuid) && Drawn(rows, t)
  {
    assert Drawn(KidsOf(rows, None), t);
    Grow(t, uuid, rows, KidsOf(rows, None))
  }

  // ----- how often a row is returned -----

  /** All rows of a tree, with multiplicity. */
  ghost function Bag(x: Tree): multiset<QRow> {
    multiset{x.row} + BagAll(x.children)
  }

  ghost function BagAll(f: seq<Tree>): multiset<QRow> {
    if f == [] then multiset{} else Bag(f[0]) + BagAll(f[1..])
  }

  lemma {:induction false} BagAllAppend(a: seq<Tree>, b: seq<Tree>)
    ensures BagAll(a + b) == BagAll(a) + BagAll(b)
  {
    if a == [] {
      assert a + b == b;
    } else {
      assert (a + b)[0] == a[0] && (a + b)[1..] == a[1..] + b;
      BagAllAppend(a[1..], b);
    }
  }

  /** Following the parent links of r through the rows delivered leads to a row whose parent is p. */
  ghost predicate Under(t: seq<QRow>, uuid: Supply, rows: seq<QRow>, p: Option<Id>, r: QRow)
    requires Stored(t, uuid) && Drawn(rows, t) && r in t
    decreases Rank(t, r)
  {
    r.fixed.parentId == p ||
    exists s :: s in rows && r.fixed.parentId == Some(s.fixed.id) &&
      (ParentRanksLower(t, uuid, r, s); Under(t, uuid, rows, p, s))
  }

  lemma {:induction false} UnderRanksHigher(t: seq<QRow>, uuid: Supply, rows: seq<QRow>, c: QRow, r: QRow)
    requires Stored(t, uuid) && Drawn(rows, t) && c in t && r in t && Under(t, uuid, rows, Some(c.fixed.id), r)
    ensures Rank(t, c) < Rank(t, r)
    decreases Rank(t, r)
  {
    if r.fixed.parentId == Some(c.fixed.id) {
      ParentRanksLower(t, uuid, r, c);
    } else {
      var s :| s in rows && r.fixed.parentId == Some(s.fixed.id) && Under(t, uuid, rows, Some(c.fixed.id), s);
      ParentRanksLower(t, uuid, r, s);
      UnderRanksHigher(t, uuid, rows, c, s);
    }
  }

  /** Row c is r or an ancestor of r. */
  ghost predicate Above(t: seq<QRow>, uuid: Supply, rows: seq<QRow>, c: QRow, r: QRow)
    requires Stored(t, uuid) && Drawn(rows, t) && c in t && r in t
  {
    c == r || Under(t, uuid, rows, Some(c.fixed.id), r)
  }

  ghost function Hits(t: seq<QRow>, uuid: Supply, rows: seq<QRow>, list: seq<QRow>, r: QRow): nat
    requires Stored(t, uuid) && Drawn(rows, t) && Drawn(list, t) && r in t
    decreases list
  {
    if list == [] then 0
    else (if Above(t, uuid, rows, list[0], r) then 1 else 0) + Hits(t, uuid, rows, list[1..], r)
  }

  lemma {:induction false} HitsZero(t: seq<QRow>, uuid: Supply, rows: seq<QRow>, list: seq<QRow>, r: QRow)
    requires Stored(t, uuid) && Drawn(rows, t) && Drawn(list, t) && r in t
    requires forall c :: c in list ==> !Above(t, uuid, rows, c, r)
    ensures Hits(t, uuid, rows, list, r) == 0
    decreases list
  {
    if list != [] {
      assert list[0] in list;
      HitsZero(t, uuid, rows, list[1..], r);
    }
  }

  lemma {:induction false} HitsSelf(t: seq<QRow>, uuid: Supply, rows: seq<QRow>, list: seq<QRow>, r: QRow)
    requires Stored(t, uuid) && Drawn(rows, t) && Drawn(list, t) && r in t
    requires forall c :: c in list && c != r ==> !Above(t, uuid, rows, c, r)
    ensures Hits(t, uuid, rows, list, r) == multiset(list)[r]
    decreases list
  {
    if list != [] {
      assert list == [list[0]] + list[1..];
      assert list[0] in list;
      HitsSelf(t, uuid, rows, list[1..], r);
    }
  }

  lemma {:induction false} HitsMoveUp(t: seq<QRow>, uuid: Supply, rows: seq<QRow>, list: seq<QRow>, r: QRow, s: QRow)
    requires Stored(t, uuid) && Drawn(rows, t) && Drawn(list, t) && r in t && s in t
    requires forall c :: c in list ==> Above(t, uuid, rows, c, r) == Above(t, uuid, rows, c, s)
    ensures Hits(t, uuid, rows, list, r) == Hits(t, uuid, rows, list, s)
    decreases list
  {
    if list != [] {
      assert list[0] in list;
      HitsMoveUp(t, uuid, rows, list[1..], r, s);
    }
  }

  /** A row is below exactly one sibling if it is below their parent at all. */
  lemma {:induction false} HitsKids(t: seq<QRow>, uuid: Supply, rows: seq<QRow>, p: Option<Id>, r: QRow)
    requires Stored(t, uuid) && Drawn(rows, t) && r in rows && multiset(rows)[r] == 1
    requires forall c :: c in rows ==> multiset(rows)[c] == 1
    ensures Drawn(KidsOf(rows, p), t)
    ensures Hits(t, uuid, rows, KidsOf(rows, p), r) == if Under(t, uuid, rows, p, r) then 1 else 0
    decreases Rank(t, r)
  {
    var kids := KidsOf(rows, p);
    if r.fixed.parentId == p {
      forall c | c in kids && c != r ensures !Above(t, uuid, rows, c, r) {
        SiblingNotAbove(t, uuid, rows, c, r);
      }
      HitsSelf(t, uuid, rows, kids, r);
      KidsCount(rows, p, r);
    } else if s :| s in rows && r.fixed.parentId == Some(s.fixed.id) {
      ParentRanksLower(t, uuid, r, s);
      HitsKids(t, uuid, rows, p, s);
      forall c | c in kids ensures Above(t, uuid, rows, c, r) == Above(t, uuid, rows, c, s) {
        AboveMovesUp(t, uuid, rows, c, r, s);
      }
      HitsMoveUp(t, uuid, rows, kids, r, s);
      UnderMovesUp(t, uuid, rows, p, r, s);
    } else {
      HitsZero(t, uuid, rows, kids, r);
    }
  }

  lemma UnderMovesUp(t: seq<QRow>, uuid: Supply, rows: seq<QRow>, p: Option<Id>, r: QRow, s: QRow)
    requires Stored(t, uuid) && Drawn(rows, t) && r in t && s in rows && r.fixed.parentId == Some(s.fixed.id) != p
    ensures Under(t, uuid, rows, p, r) <==> Under(t, uuid, rows, p, s)
  {
    ParentRanksLower(t, uuid, r, s);
    if Under(t, uuid, rows, p, r) {
      var s' :| s' in rows && r.fixed.parentId == Some(s'.fixed.id) && Under(t, uuid, rows, p, s');
      SameIdSameRow(t, uuid, s, s');
    }
  }

  lemma AboveMovesUp(t: seq<QRow>, uuid: Supply, rows: seq<QRow>, c: QRow, r: QRow, s: QRow)
    requires Stored(t, uuid) && Drawn(rows, t) && c in t && r in t && c != r
    requires s in rows && r.fixed.parentId == Some(s.fixed.id)
    ensures Above(t, uuid, rows, c, r) <==> Above(t, uuid, rows, c, s)
  {
    if Some(c.fixed.id) == r.fixed.parentId {
      SameIdSameRow(t, uuid, c, s);
    } else {
      UnderMovesUp(t, uuid, rows, Some(c.fixed.id), r, s);
    }
  }

  lemma SiblingNotAbove(t: seq<QRow>, uuid: Supply, rows: seq<QRow>, c: QRow, r: QRow)
    requires Stored(t, uuid) && Drawn(rows, t) && c in t && r in t && c != r
    requires c.fixed.parentId == r.fixed.parentId
    ensures !Above(t, uuid, rows, c, r)
  {
    if Above(t, uuid, rows, c, r) {
      if r.fixed.parentId == Some(c.fixed.id) {
        ParentRanksLower(t, uuid, c, c);
      } else {
        var s :| s in rows && r.fixed.parentId == Some(s.fixed.id) && Under(t, uuid, rows, Some(c.fixed.id), s);
        ParentRanksLower(t, uuid, c, s);
        UnderRanksHigher(t, uuid, rows, c, s);
      }
    }
  }

  lemma {:induction false} KidsCount(rows: seq<QRow>, p: Option<Id>, r: QRow)
    ensures multiset(KidsOf(rows, p))[r] == if r.fixed.parentId == p then multiset(rows)[r] else 0
  {
    if rows != [] {
      var front, last := rows[..|rows| - 1], rows[|rows| - 1];
      assert rows == front + [last];
      KidsCount(front, p, r);
    }
  }

  /** A tree holds its own row and, once each, the rows below it. */
  lemma {:induction false} TreeCount(t: seq<QRow>, uuid: Supply, rows: seq<QRow>, c: QRow, r: QRow)
    requires Stored(t, uuid) && Drawn(rows, t) && c in t && r in rows
    requires forall x :: x in rows ==> multiset(rows)[x] == 1
    ensures Bag(TreeAt(t, uuid, rows, c))[r] == if Above(t, uuid, rows, c, r) then 1 else 0
    decreases |t| - Rank(t, c), 1, 0
  {
    var kids := KidsOf(rows, Some(c.fixed.id));
    TreeIs(t, uuid, rows, c);
    GrowCount(t, uuid, rows, Rank(t, c), kids, r);
    HitsKids(t, uuid, rows, Some(c.fixed.id), r);
    if c == r && Under(t, uuid, rows, Some(c.fixed.id), r) {
      UnderRanksHigher(t, uuid, rows, c, r);
    }
  }

  lemma {:induction false} GrowCount(t: seq<QRow>, uuid: Supply, rows: seq<QRow>, low: int, list: seq<QRow>, r: QRow)
    requires Stored(t, uuid) && Drawn(rows, t) && -1 <= low < |t| && r in rows && Drawn(list, t)
    requires forall x :: x in rows ==> multiset(rows)[x] == 1
    requires forall x :: x in list ==> low < Rank(t, x)
    ensures BagAll(Grow(t, uuid, rows, list))[r] == Hits(t, uuid, rows, list, r)
    decreases |t| - low, 0, |list|
  {
    hide TreeAt;
    hide Above;
    hide Bag;
    if list != [] {
      assert list[0] in list;
      TreeCount(t, uuid, rows, list[0], r);
      GrowCount(t, uuid, rows, low, list[1..], r);
      assert Grow(t, uuid, rows, list)[1..] == Grow(t, uuid, rows, list[1..]);
    }
  }

  /** Nothing but delivered rows is returned. */
  lemma {:induction false} TreeBagDrawn(t: seq<QRow>, uuid: Supply, rows: seq<QRow>, c: QRow, r: QRow)
    requires Stored(t, uuid) && Drawn(rows, t) && c in t && r in Bag(TreeAt(t, uuid, rows, c))
    ensures r == c || r in rows
    decreases |t| - Rank(t, c), 1, 0
  {
    TreeIs(t, uuid, rows, c);
    if r != c {
      GrowBagDrawn(t, uuid, rows, Rank(t, c), KidsOf(rows, Some(c.fixed.id)), r);
    }
  }

  lemma {:induction false} GrowBagDrawn(t: seq<QRow>, uuid: Supply, rows: seq<QRow>, low: int, list: seq<QRow>, r: QRow)
    requires Stored(t, uuid) && Drawn(rows, t) && -1 <= low < |t| && Drawn(list, t) && Drawn(list, rows)
    requires forall x :: x in list ==> low < Rank(t, x)
    requires r in BagAll(Grow(t, uuid, rows, list))
    ensures r in rows
    decreases |t| - low, 0, |list|
  {
    var f := Grow(t, uuid, rows, list);
    assert list[0] in list;
    assert f[1..] == Grow(t, uuid, rows, list[1..]);
    if r in Bag(f[0]) {
      TreeBagDrawn(t, uuid, rows, list[0], r);
    } else {
      GrowBagDrawn(t, uuid, rows, low, list[1..], r);
    }
  }

  // ----- completeness of GetQueuesPerPartition -----

  /** Every non-null parent id among the rows is the id of one of them. */
  ghost predicate Closed(rows: seq<QRow>) {
    forall r :: r in rows && r.fixed.parentId.Some? ==> exists s :: s in rows && r.fixed.parentId == Some(s.fixed.id)
  }

  lemma {:induction false} ClosedIsUnderRoot(t: seq<QRow>, uuid: Supply, rows: seq<QRow>, r: QRow)
    requires Stored(t, uuid) && Drawn(rows, t) && Closed(rows) && r in rows
    ensures Under(t, uuid, rows, None, r)
    decreases Rank(t, r)
  {
    if r.fixed.parentId.Some? {
      var s :| s in rows && r.fixed.parentId == Some(s.fixed.id);
      ParentRanksLower(t, uuid, r, s);
      ClosedIsUnderRoot(t, uuid, rows, s);
    }
  }

  lemma ForestCount(t: seq<QRow>, uuid: Supply, rows: seq<QRow>, r: QRow)
    requires Stored(t, uuid) && Drawn(rows, t) && r in rows
    requires forall x :: x in rows ==> multiset(rows)[x] == 1
    ensures BagAll(ReadForest(t, uuid, rows))[r] == if Under(t, uuid, rows, None, r) then 1 else 0
  {
    GrowCount(t, uuid, rows, -1, KidsOf(rows, None), r);
    HitsKids(t, uuid, rows, None, r);
  }

  /**
   Whatever order the rows arrive in, each is returned exactly once, if and only if no row's
   parent is missing from the result set.
   */
  lemma ReadsEachRowOnceExactly(t: seq<QRow>, uuid: Supply, rows: seq<QRow>)
    requires Stored(t, uuid) && Drawn(rows, t)
    requires forall x :: x in rows ==> multiset(rows)[x] == 1
    ensures BagAll(ReadForest(t, uuid, rows)) == multiset(rows) <==> Closed(rows)
  {
    var bag := BagAll(ReadForest(t, uuid, rows));
    if Closed(rows) {
      forall r ensures bag[r] == multiset(rows)[r] {
        if r in rows {
          ForestCount(t, uuid, rows, r);
          ClosedIsUnderRoot(t, uuid, rows, r);
        } else if r in bag {
          GrowBagDrawn(t, uuid, rows, -1, KidsOf(rows, None), r);
        }
      }
    } else {
      var r :| r in rows && r.fixed.parentId.Some? && !exists s :: s in rows && r.fixed.parentId == Some(s.fixed.id);
      ForestCount(t, uuid, rows, r);
      assert bag[r] == 0;
    }
  }

  /** Every child of the forest carries the id of the queue it is nested in as its parent id. */
  ghost predicate Nested(f: seq<Tree>, p: Option<Id>) {
    forall i :: 0 <= i < |f| ==> f[i].row.fixed.parentId == p && Nested(f[i].children, Some(f[i].row.fixed.id))
  }

  lemma {:induction false} TreesAreNested(t: seq<QRow>, uuid: Supply, rows: seq<QRow>, r: QRow)
    requires Stored(t, uuid) && Drawn(rows, t) && r in t
    ensures Nested(TreeAt(t, uuid, rows, r).children, Some(r.fixed.id))
    decreases |t| - Rank(t, r)
  {
    var kids := KidsOf(rows, Some(r.fixed.id));
    forall i | 0 <= i < |kids|
      ensures Nested(TreeAt(t, uuid, rows, r).children[i].children, Some(kids[i].fixed.id))
    {
      assert kids[i] in kids;
      ParentRanksLower(t, uuid, kids[i], r);
      TreesAreNested(t, uuid, rows, kids[i]);
    }
  }

  /** Rows are nested under the row their parent_id names, and the roots are exactly the null-parent rows, in order. */
  lemma ForestIsNested(t: seq<QRow>, uuid: Supply, rows: seq<QRow>)
    requires Stored(t, uuid) && Drawn(rows, t)
    ensures Nested(ReadForest(t, uuid, rows), None)
    ensures |ReadForest(t, uuid, rows)| == |KidsOf(rows, None)|
    ensures forall i :: 0 <= i < |KidsOf(rows, None)| ==> ReadForest(t, uuid, rows)[i].row == KidsOf(rows, None)[i]
  {
    var roots := KidsOf(rows, None);
    forall i | 0 <= i < |roots|
      ensures roots[i].fixed.parentId == None && Nested(ReadForest(t, uuid, rows)[i].children, Some(roots[i].fixed.id))
    {
      assert roots[i] in roots;
      TreesAreNested(t, uuid, rows, roots[i]);
    }
  }

  // ----- the rows of a partition -----

  /** SELECT * FROM queues WHERE partition = p, in table order. */
  function RowsOf(t: seq<QRow>, partition: string): (r: seq<QRow>)
    ensures forall x :: x in r <==> x in t && x.key.partition == partition
  {
    if t == [] then []
    else
      var last := t[|t| - 1];
      RowsOf(t[..|t| - 1], partition) + (if last.key.partition == partition then [last] else [])
  }

  lemma {:induction false} RowsOfCount(t: seq<QRow>, partition: string, x: QRow)
    ensures multiset(RowsOf(t, partition))[x] == if x.key.partition == partition then multiset(t)[x] else 0
  {
    if t != [] {
      var front, last := t[..|t| - 1], t[|t| - 1];
      assert t == front + [last];
      RowsOfCount(front, partition, x);
    }
  }

  lemma {:induction false} StoredOnce(t: seq<QRow>, x: QRow)
    requires UniqueKeys(t) && x in t
    ensures multiset(t)[x] == 1
  {
    var front, last := t[..|t| - 1], t[|t| - 1];
    assert t == front + [last];
    if x in front {
      StoredOnce(front, x);
      var i :| 0 <= i < |front| && front[i] == x;
      assert t[i].key != t[|t| - 1].key;
    }
  }

  /** The rows of one partition, in whatever order the database delivers them. */
  ghost predicate Delivered(t: seq<QRow>, partition: string, rows: seq<QRow>) {
    multiset(rows) == multiset(RowsOf(t, partition))
  }

  lemma DeliveredRows(t: seq<QRow>, partition: string, rows: seq<QRow>)
    requires UniqueKeys(t) && Delivered(t, partition, rows)
    ensures Drawn(rows, t)
    ensures forall x :: x in rows <==> x in t && x.key.partition == partition
    ensures forall x :: x in rows ==> multiset(rows)[x] == 1
  {
    forall x ensures x in rows <==> x in t && x.key.partition == partition {
      assert x in rows <==> x in multiset(rows);
      assert x in RowsOf(t, partition) <==> x in multiset(RowsOf(t, partition));
    }
    forall x | x in rows ensures multiset(rows)[x] == 1 {
      RowsOfCount(t, partition, x);
      StoredOnce(t, x);
    }
  }

  lemma PartitionIsClosed(t: seq<QRow>, uuid: Supply, partition: string, rows: seq<QRow>)
    requires Stored(t, uuid) && SamePartition(t) && Delivered(t, partition, rows)
    ensures Closed(rows)
  {
    DeliveredRows(t, partition, rows);
    forall r | r in rows && r.fixed.parentId.Some?
      ensures exists s :: s in rows && r.fixed.parentId == Some(s.fixed.id)
    {
      var i := Rank(t, r);
      assert LinkedBefore(t, uuid, i);
      var j: nat :| j < i && uuid(j) == r.fixed.parentId.value;
      assert t[i].fixed.parentId == Some(t[j].fixed.id);
      assert t[j] in rows;
    }
  }

  /** GetQueuesPerPartition returns each row of the partition exactly once in every table that keeps to partitions. */
  lemma ReadsPartitionOnce(t: seq<QRow>, uuid: Supply, partition: string, rows: seq<QRow>)
    requires Stored(t, uuid) && SamePartition(t) && Delivered(t, partition, rows)
    ensures Drawn(rows, t)
    ensures BagAll(ReadForest(t, uuid, rows)) == multiset(RowsOf(t, partition))
  {
    DeliveredRows(t, partition, rows);
    PartitionIsClosed(t, uuid, partition, rows);
    ReadsEachRowOnceExactly(t, uuid, rows);
  }

  // ----- trees up to sibling order -----

  datatype Family<T(==)> = Family(item: T, kids: multiset<Family<T>>)

  ghost function Canon<T>(x: Tree, f: QRow -> T): Family<T> {
    Family(f(x.row), CanonAll(x.children, f))
  }

  ghost function CanonAll<T>(xs: seq<Tree>, f: QRow -> T): multiset<Family<T>> {
    if xs == [] then multiset{} else multiset{Canon(xs[0], f)} + CanonAll(xs[1..], f)
  }

  lemma {:induction false} CanonAllAppend<T>(a: seq<Tree>, b: seq<Tree>, f: QRow -> T)
    ensures CanonAll(a + b, f) == CanonAll(a, f) + CanonAll(b, f)
  {
    if a == [] {
      assert a + b == b;
    } else {
      assert (a + b)[0] == a[0] && (a + b)[1..] == a[1..] + b;
      CanonAllAppend(a[1..], b, f);
    }
  }

  /** The rows delivered include all children stored under c. */
  ghost predicate Saturated(t: seq<QRow>, rows: seq<QRow>, c: QRow) {
    multiset(KidsOf(rows, Some(c.fixed.id))) == multiset(KidsOf(t, Some(c.fixed.id)))
  }

  lemma CanonCons<T>(t: seq<QRow>, uuid: Supply, rows: seq<QRow>, list: seq<QRow>, f: QRow -> T)
    requires Stored(t, uuid) && Drawn(rows, t) && Drawn(list, t) && list != []
    ensures list[0] in t
    ensures CanonAll(Grow(t, uuid, rows, list), f) ==
            multiset{Canon(TreeAt(t, uuid, rows, list[0]), f)} + CanonAll(Grow(t, uuid, rows, list[1..]), f)
  {
    assert list[0] in list;
    assert Grow(t, uuid, rows, list)[1..] == Grow(t, uuid, rows, list[1..]);
  }

  lemma CanonRemove<T>(t: seq<QRow>, uuid: Supply, rows: seq<QRow>, front: seq<QRow>, x: QRow, back: seq<QRow>, f: QRow -> T)
    requires Stored(t, uuid) && Drawn(rows, t) && Drawn(front, t) && Drawn(back, t) && x in t
    ensures Drawn(front + back, t) && Drawn(front + ([x] + back), t)
    ensures CanonAll(Grow(t, uuid, rows, front + ([x] + back)), f) ==
            multiset{Canon(TreeAt(t, uuid, rows, x), f)} + CanonAll(Grow(t, uuid, rows, front + back), f)
  {
    hide Grow;
    hide CanonAll;
    hide Canon;
    hide TreeAt;
    GrowAppend(t, uuid, rows, front, back);
    GrowAppend(t, uuid, rows, front, [x] + back);
    CanonAllAppend(Grow(t, uuid, rows, front), Grow(t, uuid, rows, back), f);
    CanonAllAppend(Grow(t, uuid, rows, front), Grow(t, uuid, rows, [x] + back), f);
    CanonCons(t, uuid, rows, [x] + back, f);
    assert ([x] + back)[1..] == back;
  }

  lemma PermutationSplit<T>(a: seq<T>, b: seq<T>) returns (front: seq<T>, back: seq<T>)
    requires a != [] && multiset(a) == multiset(b)
    ensures b == front + ([a[0]] + back)
    ensures multiset(a[1..]) == multiset(front + back)
  {
    assert a[0] in multiset(b);
    var i :| 0 <= i < |b| && b[i] == a[0];
    front, back := b[..i], b[i + 1..];
    var tail := a[1..];
    assert a == [a[0]] + tail;
    assert b == front + ([a[0]] + back);
    calc {
      multiset(tail);
      multiset([a[0]] + tail) - multiset{a[0]};
      multiset(front + ([a[0]] + back)) - multiset{a[0]};
      multiset(front) + (multiset{a[0]} + multiset(back)) - multiset{a[0]};
      multiset(front) + multiset(back);
      multiset(front + back);
    }
  }

  lemma {:induction false} CanonPermutation<T>(t: seq<QRow>, uuid: Supply, a: seq<QRow>, b: seq<QRow>, f: QRow -> T)
    requires Stored(t, uuid) && Drawn(a, t) && Drawn(b, t) && multiset(a) == multiset(b)
    ensures CanonAll(Grow(t, uuid, t, a), f) == CanonAll(Grow(t, uuid, t, b), f)
    decreases |a|
  {
    hide Grow;
    hide CanonAll;
    hide Canon;
    hide TreeAt;
    if a == [] {
      assert |multiset(b)| == |b|;
      assert b == a;
    } else {
      var front, back := PermutationSplit(a, b);
      CanonPermutation(t, uuid, a[1..], front + back, f);
      CanonCons(t, uuid, t, a, f);
      CanonRemove(t, uuid, t, front, a[0], back, f);
    }
  }

  /** Read from any result set that is saturated below a row, the row's tree is its stored tree up to sibling order. */
  lemma {:induction false} TreeIsStored<T>(t: seq<QRow>, uuid: Supply, rows: seq<QRow>, r: QRow, f: QRow -> T)
    requires Stored(t, uuid) && Drawn(rows, t) && r in t && Saturated(t, rows, r)
    requires forall c :: c in rows ==> Saturated(t, rows, c)
    ensures Canon(TreeAt(t, uuid, rows, r), f) == Canon(TreeAt(t, uuid, t, r), f)
    decreases |t| - Rank(t, r), 1, 0
  {
    var kids, all := KidsOf(rows, Some(r.fixed.id)), KidsOf(t, Some(r.fixed.id));
    TreeIs(t, uuid, rows, r);
    TreeIs(t, uuid, t, r);
    forall c | c in kids ensures Rank(t, r) < Rank(t, c) {
      ParentRanksLower(t, uuid, c, r);
    }
    TreesAreStored(t, uuid, rows, Rank(t, r), kids, f);
    CanonPermutation(t, uuid, kids, all, f);
  }

  lemma {:induction false} TreesAreStored<T>(t: seq<QRow>, uuid: Supply, rows: seq<QRow>, low: int, list: seq<QRow>, f: QRow -> T)
    requires Stored(t, uuid) && Drawn(rows, t) && Drawn(list, t) && Drawn(list, rows) && -1 <= low < |t|
    requires forall c :: c in rows ==> Saturated(t, rows, c)
    requires forall c :: c in list ==> low < Rank(t, c)
    ensures CanonAll(Grow(t, uuid, rows, list), f) == CanonAll(Grow(t, uuid, t, list), f)
    decreases |t| - low, 0, |list|
  {
    hide CanonAll;
    hide Canon;
    hide TreeAt;
    hide KidsOf;
    if list == [] {
      assert Grow(t, uuid, rows, list) == Grow(t, uuid, t, list);
    } else {
      assert list[0] in list;
      TreeIsStored(t, uuid, rows, list[0], f);
      TreesAreStored(t, uuid, rows, low, list[1..], f);
      CanonCons(t, uuid, rows, list, f);
      CanonCons(t, uuid, t, list, f);
    }
  }

  lemma PartitionIsSaturated(t: seq<QRow>, uuid: Supply, partition: string, rows: seq<QRow>, c: QRow)
    requires Stored(t, uuid) && SamePartition(t) && Delivered(t, partition, rows) && c in rows
    ensures Saturated(t, rows, c)
  {
    DeliveredRows(t, partition, rows);
    var p := Some(c.fixed.id);
    forall d ensures multiset(KidsOf(rows, p))[d] == multiset(KidsOf(t, p))[d] {
      KidsCount(rows, p, d);
      KidsCount(t, p, d);
      RowsOfCount(t, partition, d);
      if d.fixed.parentId == p && d in t {
        assert t[Rank(t, d)].fixed.parentId == Some(t[Rank(t, c)].fixed.id);
      }
    }
  }

  // ----- GetQueue -----

  /** One round of the recursive query: children of the working rows, one output row per matching pair. */
  function Join(t: seq<QRow>, working: seq<QRow>): (r: seq<QRow>)
    ensures forall c :: c in r ==> c in t && exists g :: g in working && c.fixed.parentId == Some(g.fixed.id)
  {
    if working == [] then [] else KidsOf(t, Some(working[0].fixed.id)) + Join(t, working[1..])
  }

  /** No row of generation g was among the first g inserted. */
  ghost predicate Late(t: seq<QRow>, working: seq<QRow>, g: nat) {
    forall r :: r in working ==> r in t && g <= Rank(t, r)
  }

  lemma JoinIsLater(t: seq<QRow>, uuid: Supply, working: seq<QRow>, g: nat)
    requires Stored(t, uuid) && Late(t, working, g)
    ensures Late(t, Join(t, working), g + 1)
  {
    forall c | c in Join(t, working)
      ensures c in t && g + 1 <= Rank(t, c)
    {
      var p :| p in working && c.fixed.parentId == Some(p.fixed.id);
      ParentRanksLower(t, uuid, c, p);
    }
  }

  /**
   The rows of the recursive query in the order of their generation: the working table is output
   and replaced by the join with it until it is empty (UNION ALL).
   */
  ghost function Generations(t: seq<QRow>, uuid: Supply, working: seq<QRow>, g: nat): seq<QRow>
    requires Stored(t, uuid) && Late(t, working, g)
    decreases |t| - g
  {
    if working == [] then []
    else
      assert working[0] in working;
      JoinIsLater(t, uuid, working, g);
      working + Generations(t, uuid, Join(t, working), g + 1)
  }

  /** A forest's rows are its roots together with the rows of the forest one generation down. */
  lemma {:induction false} PeelGeneration(t: seq<QRow>, uuid: Supply, working: seq<QRow>)
    requires Stored(t, uuid) && Drawn(working, t)
    ensures BagAll(Grow(t, uuid, t, working)) == multiset(working) + BagAll(Grow(t, uuid, t, Join(t, working)))
    decreases |working|
  {
    hide TreeAt;
    hide KidsOf;
    if working == [] {
      assert BagAll(Grow(t, uuid, t, [])) == multiset{};
    } else {
      var c, rest := working[0], working[1..];
      assert c in working && working == [c] + rest;
      var kids := KidsOf(t, Some(c.fixed.id));
      PeelGeneration(t, uuid, rest);
      GrowAppend(t, uuid, t, [c], rest);
      TreeIs(t, uuid, t, c);
      assert Grow(t, uuid, t, [c]) == [TreeAt(t, uuid, t, c)];
      BagAllAppend(Grow(t, uuid, t, [c]), Grow(t, uuid, t, rest));
      GrowAppend(t, uuid, t, kids, Join(t, rest));
      BagAllAppend(Grow(t, uuid, t, kids), Grow(t, uuid, t, Join(t, rest)));
      assert BagAll([TreeAt(t, uuid, t, c)]) == multiset{c} + BagAll(Grow(t, uuid, t, kids));
    }
  }

  /** Breadth first or depth first, the same rows are reached the same number of times. */
  lemma {:induction false} BreadthFirstIsDepthFirst(t: seq<QRow>, uuid: Supply, working: seq<QRow>, g: nat)
    requires Stored(t, uuid) && Late(t, working, g)
    ensures Drawn(working, t)
    ensures multiset(Generations(t, uuid, working, g)) == BagAll(Grow(t, uuid, t, working))
    decreases |t| - g
  {
    hide Join;
    hide TreeAt;
    hide KidsOf;
    hide Rank;
    GenerationsUnfold(t, uuid, working, g);
    if working == [] {
      assert Grow(t, uuid, t, working) == [];
    } else {
      assert working[0] in working;
      assert g <= Rank(t, working[0]) < |t|;
      BreadthFirstIsDepthFirst(t, uuid, Join(t, working), g + 1);
      PeelGeneration(t, uuid, working);
    }
  }

  lemma GenerationsUnfold(t: seq<QRow>, uuid: Supply, working: seq<QRow>, g: nat)
    requires Stored(t, uuid) && Late(t, working, g)
    ensures Late(t, Join(t, working), g + 1)
    ensures Generations(t, uuid, working, g) ==
            if working == [] then [] else working + Generations(t, uuid, Join(t, working), g + 1)
  {
    JoinIsLater(t, uuid, working, g);
  }

  /** The rows after the starting row, as the query may deliver them. */
  ghost predicate Descendants(t: seq<QRow>, uuid: Supply, start: QRow, rest: seq<QRow>)
    requires Stored(t, uuid) && start in t
  {
    assert Late(t, [start], 0);
    multiset([start] + rest) == multiset(Generations(t, uuid, [start], 0))
  }

  lemma DescendantsBag(t: seq<QRow>, uuid: Supply, start: QRow, rest: seq<QRow>)
    requires Stored(t, uuid) && start in t && Descendants(t, uuid, start, rest)
    ensures multiset(rest) == BagAll(Grow(t, uuid, t, KidsOf(t, Some(start.fixed.id))))
  {
    hide TreeAt;
    hide Generations;
    var kids := KidsOf(t, Some(start.fixed.id));
    BreadthFirstIsDepthFirst(t, uuid, [start], 0);
    TreeIs(t, uuid, t, start);
    assert Grow(t, uuid, t, [start]) == [TreeAt(t, uuid, t, start)];
    assert BagAll([TreeAt(t, uuid, t, start)]) == multiset{start} + BagAll(Grow(t, uuid, t, kids));
    assert multiset(rest) == multiset([start] + rest) - multiset{start};
  }

  /** The query delivers, once each, exactly the stored rows below the starting row. */
  lemma DescendantCount(t: seq<QRow>, uuid: Supply, start: QRow, rest: seq<QRow>, r: QRow)
    requires Stored(t, uuid) && start in t && Descendants(t, uuid, start, rest)
    ensures multiset(rest)[r] == if r in t && Under(t, uuid, t, Some(start.fixed.id), r) then 1 else 0
  {
    var kids := KidsOf(t, Some(start.fixed.id));
    DescendantsBag(t, uuid, start, rest);
    if r in t {
      forall x | x in t ensures multiset(t)[x] == 1 {
        StoredOnce(t, x);
      }
      GrowCount(t, uuid, t, -1, kids, r);
      HitsKids(t, uuid, t, Some(start.fixed.id), r);
    } else if r in multiset(rest) {
      GrowBagDrawn(t, uuid, t, -1, kids, r);
    }
  }

  lemma DescendantsAreSaturated(t: seq<QRow>, uuid: Supply, start: QRow, rest: seq<QRow>, c: QRow)
    requires Stored(t, uuid) && start in t && Descendants(t, uuid, start, rest) && (c == start || c in rest)
    ensures Saturated(t, rest, c)
  {
    hide Generations;
    var p := Some(c.fixed.id);
    if c != start {
      assert c in multiset(rest);
      DescendantCount(t, uuid, start, rest, c);
    }
    forall d ensures multiset(KidsOf(rest, p))[d] == multiset(KidsOf(t, p))[d] {
      KidsCount(rest, p, d);
      KidsCount(t, p, d);
      DescendantCount(t, uuid, start, rest, d);
      if d in t && d.fixed.parentId == p {
        StoredOnce(t, d);
        ParentRanksLower(t, uuid, d, c);
        assert Under(t, uuid, t, Some(start.fixed.id), d);
      }
    }
  }

  /** What GetQueue nests: the starting row over the rows the query delivered after it. */
  lemma GetQueueIsStored<T>(t: seq<QRow>, uuid: Supply, start: QRow, rest: seq<QRow>, f: QRow -> T)
    requires Stored(t, uuid) && start in t && Descendants(t, uuid, start, rest)
    ensures Drawn(rest, t)
    ensures Canon(TreeAt(t, uuid, rest, start), f) == Canon(TreeAt(t, uuid, t, start), f)
  {
    hide Generations;
    hide TreeAt;
    hide Canon;
    forall r | r in rest ensures r in t && Saturated(t, rest, r) {
      assert r in multiset(rest);
      DescendantCount(t, uuid, start, rest, r);
      DescendantsAreSaturated(t, uuid, start, rest, r);
    }
    DescendantsAreSaturated(t, uuid, start, rest, start);
    TreeIsStored(t, uuid, rest, start, f);
  }

  // ----- the readers agree -----

  /** x is a tree of the forest or nested in one. */
  ghost predicate Occurs(x: Tree, f: seq<Tree>) {
    exists i :: 0 <= i < |f| && (f[i] == x || Occurs(x, f[i].children))
  }

  lemma {:induction false} ChildOccurs(x: Tree, y: Tree, f: seq<Tree>)
    requires Occurs(y, f) && x in y.children
    ensures Occurs(x, f)
    decreases f
  {
    var i :| 0 <= i < |f| && (f[i] == y || Occurs(y, f[i].children));
    if f[i] == y {
      assert Occurs(x, f[i].children);
    } else {
      ChildOccurs(x, y, f[i].children);
    }
  }

  /** Every delivered row's tree is found in the forest. */
  lemma {:induction false} TreeOccurs(t: seq<QRow>, uuid: Supply, rows: seq<QRow>, r: QRow)
    requires Stored(t, uuid) && Drawn(rows, t) && Closed(rows) && r in rows
    ensures Occurs(TreeAt(t, uuid, rows, r), ReadForest(t, uuid, rows))
    decreases Rank(t, r)
  {
    if r.fixed.parentId.None? {
      var roots := KidsOf(rows, None);
      var i :| 0 <= i < |roots| && roots[i] == r;
      assert ReadForest(t, uuid, rows)[i] == TreeAt(t, uuid, rows, r);
    } else {
      var s :| s in rows && r.fixed.parentId == Some(s.fixed.id);
      ParentRanksLower(t, uuid, r, s);
      TreeOccurs(t, uuid, rows, s);
      var kids := KidsOf(rows, Some(s.fixed.id));
      var i :| 0 <= i < |kids| && kids[i] == r;
      assert TreeAt(t, uuid, rows, s).children[i] == TreeAt(t, uuid, rows, r);
      ChildOccurs(TreeAt(t, uuid, rows, r), TreeAt(t, uuid, rows, s), ReadForest(t, uuid, rows));
    }
  }

  /**
   The two readers agree: the tree GetQueue builds for a stored queue is, up to sibling order, the
   tree found at that queue in what GetQueuesPerPartition returns for its partition, for every order
   in which either query delivers its rows.
   */
  lemma ReadersAgree(t: seq<QRow>, uuid: Supply, start: QRow, rest: seq<QRow>, rows: seq<QRow>) returns (x: Tree)
    requires Stored(t, uuid) && SamePartition(t) && start in t
    requires Descendants(t, uuid, start, rest) && Delivered(t, start.key.partition, rows)
    ensures Drawn(rest, t) && Drawn(rows, t)
    ensures Occurs(x, ReadForest(t, uuid, rows)) && x.row == start
    ensures Canon(x, r => r) == Canon(TreeAt(t, uuid, rest, start), r => r)
  {
    hide Generations;
    hide Canon;
    var partition := start.key.partition;
    DeliveredRows(t, partition, rows);
    PartitionIsClosed(t, uuid, partition, rows);
    x := TreeAt(t, uuid, rows, start);
    TreeOccurs(t, uuid, rows, start);
    forall c | c in rows ensures Saturated(t, rows, c) {
      PartitionIsSaturated(t, uuid, partition, rows, c);
    }
    var same := (r: QRow) => r;
    TreeIsStored(t, uuid, rows, start, same);
    GetQueueIsStored(t, uuid, start, rest, same);
  }

  // ----- deleting what was read -----

  lemma SaturatedHasKid(t: seq<QRow>, rows: seq<QRow>, r: QRow, d: QRow)
    requires Saturated(t, rows, r) && d in t && d.fixed.parentId == Some(r.fixed.id)
    ensures d in KidsOf(rows, Some(r.fixed.id))
  {
    assert d in KidsOf(t, Some(r.fixed.id));
    assert d in multiset(KidsOf(t, Some(r.fixed.id)));
    assert d in multiset(KidsOf(rows, Some(r.fixed.id)));
  }

  lemma KidIsChild(t: seq<QRow>, uuid: Supply, rows: seq<QRow>, r: QRow, d: QRow) returns (c: nat)
    requires Stored(t, uuid) && Drawn(rows, t) && r in t && d in KidsOf(rows, Some(r.fixed.id))
    ensures c < |TreeAt(t, uuid, rows, r).children| && TreeAt(t, uuid, rows, r).children[c].row == d
  {
    var kids := KidsOf(rows, Some(r.fixed.id));
    TreeIs(t, uuid, rows, r);
    c :| 0 <= c < |kids| && kids[c] == d;
  }

  lemma SaturatedCarriesKids(t: seq<QRow>, uuid: Supply, rows: seq<QRow>, r: QRow)
    requires Stored(t, uuid) && Drawn(rows, t) && r in t && Saturated(t, rows, r)
    ensures CarriesKids(t, TreeAt(t, uuid, rows, r))
  {
    hide TreeAt;
    hide KidsOf;
    hide Saturated;
    TreeIs(t, uuid, rows, r);
    var x := TreeAt(t, uuid, rows, r);
    forall i | 0 <= i < |t| && t[i].fixed.parentId == Some(x.row.fixed.id) && !t[i].fixed.deleted
      ensures exists c :: 0 <= c < |x.children| && x.children[c].row.fixed.id == t[i].fixed.id
    {
      SaturatedHasKid(t, rows, r, t[i]);
      var c := KidIsChild(t, uuid, rows, r, t[i]);
    }
  }

  lemma {:induction false} TreeIsComplete(t: seq<QRow>, uuid: Supply, rows: seq<QRow>, r: QRow)
    requires Stored(t, uuid) && Drawn(rows, t) && r in t && Saturated(t, rows, r)
    requires forall c :: c in rows ==> Saturated(t, rows, c)
    ensures CarriesKids(t, TreeAt(t, uuid, rows, r)) && Complete(t, TreeAt(t, uuid, rows, r).children)
    decreases |t| - Rank(t, r)
  {
    hide CarriesKids;
    hide Saturated;
    SaturatedCarriesKids(t, uuid, rows, r);
    var kids := KidsOf(rows, Some(r.fixed.id));
    var x := TreeAt(t, uuid, rows, r);
    forall n | 0 <= n < |kids|
      ensures CarriesKids(t, x.children[n]) && Complete(t, x.children[n].children)
    {
      assert kids[n] in kids;
      ParentRanksLower(t, uuid, kids[n], r);
      TreeIsComplete(t, uuid, rows, kids[n]);
    }
  }

  /** What GetQueuesPerPartition returns may be handed to DeleteQueues. */
  lemma ReadForestIsComplete(t: seq<QRow>, uuid: Supply, partition: string, rows: seq<QRow>)
    requires Stored(t, uuid) && SamePartition(t) && Delivered(t, partition, rows)
    ensures Drawn(rows, t) && Complete(t, ReadForest(t, uuid, rows))
  {
    DeliveredRows(t, partition, rows);
    forall c | c in rows ensures Saturated(t, rows, c) {
      PartitionIsSaturated(t, uuid, partition, rows, c);
    }
    var roots := KidsOf(rows, None);
    var f := ReadForest(t, uuid, rows);
    forall n | 0 <= n < |f| ensures CarriesKids(t, f[n]) && Complete(t, f[n].children) {
      assert roots[n] in roots;
      TreeIsComplete(t, uuid, rows, roots[n]);
    }
  }

  lemma {:induction false} PostOrderIds(f: seq<Tree>, id: Id)
    ensures id in PostOrder(f) <==> exists r :: r in BagAll(f) && r.fixed.id == id
    decreases f
  {
    if f != [] {
      var below, rest := f[0].children, f[1..];
      PostOrderIds(below, id);
      PostOrderIds(rest, id);
      assert BagAll(f) == multiset{f[0].row} + BagAll(below) + BagAll(rest);
      if r :| r in BagAll(below) && r.fixed.id == id {
        assert r in BagAll(f);
      }
      if r :| r in BagAll(rest) && r.fixed.id == id {
        assert r in BagAll(f);
      }
      assert f[0].row in BagAll(f);
    }
  }

  /** DeleteQueues of what GetQueuesPerPartition returned, if it succeeds, deletes that partition's rows and no others. */
  lemma DeletesPartitionReadBefore(t: seq<QRow>, uuid: Supply, partition: string, rows: seq<QRow>, budget: nat)
    requires Stored(t, uuid) && SamePartition(t) && Delivered(t, partition, rows)
    requires Drawn(rows, t) && DeleteForest(t, ReadForest(t, uuid, rows), budget).ok
    ensures var t' := DeleteForest(t, ReadForest(t, uuid, rows), budget).table;
            && |t'| == |t|
            && forall i :: 0 <= i < |t| ==>
                 (t'[i] == if t[i].key.partition == partition then t[i].(fixed := t[i].fixed.(deleted := true)) else t[i])
  {
    hide DeleteForest;
    hide ReadForest;
    hide PostOrder;
    hide BagAll;
    var f := ReadForest(t, uuid, rows);
    var ids := PostOrder(f);
    DeleteIsPostOrderPrefix(t, f, budget);
    MarkAllRows(t, ids);
    ReadsPartitionOnce(t, uuid, partition, rows);
    forall i | 0 <= i < |t| ensures t[i].fixed.id in ids <==> t[i].key.partition == partition {
      PostOrderIds(f, t[i].fixed.id);
      if t[i].key.partition == partition {
        assert t[i] in RowsOf(t, partition);
        assert t[i] in multiset(RowsOf(t, partition));
      }
      if r :| r in BagAll(f) && r.fixed.id == t[i].fixed.id {
        assert r in multiset(RowsOf(t, partition));
        assert r in RowsOf(t, partition);
        SameIdSameRow(t, uuid, r, t[i]);
      }
    }
  }
}
