/**
 Writing a hierarchy with AddQueues and reading it back with GetQueuesPerPartition.
 Trees are compared up to sibling order and generated ids.
 */
module RoundTrip {
  import opened Options
  import opened UpsertTable
  import opened QueueModel
  import opened StoreRuns
  import opened QueueCalls
  import opened QueueWriters
  import opened QueueReaders

  /** A row without the ids. */
  datatype Content = Content(
    key: QueueKey, deleted: bool, parent: string, once: InsertOnly, live: map<LiveColumn, LiveValues>)

  function ContentOf(r: QRow): Content {
    Content(r.key, r.fixed.deleted, r.fixed.parent, r.fixed.once, r.cols)
  }

  /** What reading back a reported queue should give: its columns, with the partition of its root. */
  ghost function Expected(q: QueueTree, over: Option<string>): Family<Content> {
    var partition := if over.Some? then over.value else q.queue.partition;
    Family(Content(QueueKey(partition, q.queue.name), false, q.queue.parent, q.queue.once, map[LiveColumns := q.queue.live]),
           ExpectedAll(q.children, Some(partition)))
  }

  ghost function ExpectedAll(qs: seq<QueueTree>, over: Option<string>): multiset<Family<Content>> {
    if qs == [] then multiset{} else multiset{Expected(qs[0], over)} + ExpectedAll(qs[1..], over)
  }

  /** The trees of the reported roots that belong to one partition. */
  ghost function ExpectedIn(qs: seq<QueueTree>, partition: string): multiset<Family<Content>> {
    if qs == [] then multiset{}
    else
      (if qs[0].queue.partition == partition then multiset{Expected(qs[0], None)} else multiset{})
      + ExpectedIn(qs[1..], partition)
  }

  // ----- filters over concatenation -----

  lemma {:induction false} KidsOfAppend(a: seq<QRow>, b: seq<QRow>, p: Option<Id>)
    ensures KidsOf(a + b, p) == KidsOf(a, p) + KidsOf(b, p)
    decreases b
  {
    if b == [] {
      assert a + b == a && KidsOf(a, p) + [] == KidsOf(a, p);
    } else {
      var front, last := b[..|b| - 1], b[|b| - 1];
      assert (a + b)[..|a + b| - 1] == a + front && (a + b)[|a + b| - 1] == last;
      KidsOfAppend(a, front, p);
    }
  }

  lemma {:induction false} KidsOfNone(rows: seq<QRow>, p: Option<Id>)
    requires forall r :: r in rows ==> r.fixed.parentId != p
    ensures KidsOf(rows, p) == []
  {
    if rows != [] {
      KidsOfNone(rows[..|rows| - 1], p);
    }
  }

  lemma {:induction false} RowsOfAppend(a: seq<QRow>, b: seq<QRow>, partition: string)
    ensures RowsOf(a + b, partition) == RowsOf(a, partition) + RowsOf(b, partition)
    decreases b
  {
    if b == [] {
      assert a + b == a;
    } else {
      assert (a + b)[..|a + b| - 1] == a + b[..|b| - 1];
      RowsOfAppend(a, b[..|b| - 1], partition);
    }
  }

  lemma {:induction false} FiltersCommute(rows: seq<QRow>, p: Option<Id>, partition: string)
    ensures KidsOf(RowsOf(rows, partition), p) == RowsOf(KidsOf(rows, p), partition)
  {
    if rows != [] {
      var front, last := rows[..|rows| - 1], rows[|rows| - 1];
      FiltersCommute(front, p, partition);
      KidsOfAppend(RowsOf(front, partition), if last.key.partition == partition then [last] else [], p);
      RowsOfAppend(KidsOf(front, p), if last.fixed.parentId == p then [last] else [], partition);
    }
  }

  // ----- the stored trees of a partition -----

  ghost function Families(t: seq<QRow>, uuid: Supply, roots: seq<QRow>): multiset<Family<Content>>
    requires Stored(t, uuid) && Drawn(roots, t)
  {
    CanonAll(Grow(t, uuid, t, roots), ContentOf)
  }

  /** Reading a partition in any order gives its stored trees. */
  lemma ReadIsFamilies(t: seq<QRow>, uuid: Supply, partition: string, rows: seq<QRow>)
    requires Stored(t, uuid) && SamePartition(t) && Delivered(t, partition, rows)
    ensures Drawn(rows, t) && Drawn(KidsOf(RowsOf(t, partition), None), t)
    ensures CanonAll(ReadForest(t, uuid, rows), ContentOf) == Families(t, uuid, KidsOf(RowsOf(t, partition), None))
  {
    hide CanonAll;
    hide TreeAt;
    DeliveredRows(t, partition, rows);
    forall c | c in rows ensures Saturated(t, rows, c) {
      PartitionIsSaturated(t, uuid, partition, rows, c);
    }
    var roots, stored := KidsOf(rows, None), KidsOf(RowsOf(t, partition), None);
    TreesAreStored(t, uuid, rows, -1, roots, ContentOf);
    forall d ensures multiset(roots)[d] == multiset(stored)[d] {
      KidsCount(rows, None, d);
      KidsCount(RowsOf(t, partition), None, d);
    }
    CanonPermutation(t, uuid, roots, stored, ContentOf);
  }

  // ----- rows that were there before -----

  lemma {:induction false} OldTreeStays(t: seq<QRow>, more: seq<QRow>, uuid: Supply, r: QRow)
    requires Stored(t, uuid) && Stored(t + more, uuid) && r in t
    requires forall x, y :: x in more && y in t ==> x.fixed.parentId != Some(y.fixed.id)
    ensures TreeAt(t + more, uuid, t + more, r) == TreeAt(t, uuid, t, r)
    decreases |t| - Rank(t, r)
  {
    hide TreeAt;
    hide KidsOf;
    var p := Some(r.fixed.id);
    var kids := KidsOf(t, p);
    KidsOfAppend(t, more, p);
    KidsOfNone(more, p);
    assert KidsOf(t + more, p) == kids;
    TreeIs(t, uuid, t, r);
    TreeIs(t + more, uuid, t + more, r);
    forall i | 0 <= i < |kids|
      ensures kids[i] in t && TreeAt(t + more, uuid, t + more, kids[i]) == TreeAt(t, uuid, t, kids[i])
    {
      assert kids[i] in kids;
      ParentRanksLower(t, uuid, kids[i], r);
      OldTreeStays(t, more, uuid, kids[i]);
    }
    assert Grow(t + more, uuid, t + more, kids) == Grow(t, uuid, t, kids);
  }

  // ----- rows just written -----

  /** The rows of the top-level queues of a plan. */
  function Heads(uuid: Supply, parentId: Option<Id>, qs: seq<QueueTree>, over: Option<string>, base: nat): (r: seq<QRow>)
    ensures |r| == |qs|
    decreases qs
  {
    if qs == [] then []
    else [NewRow(uuid(base), parentId, At(qs[0].queue, over))]
         + Heads(uuid, parentId, qs[1..], over, base + 1 + ForestSize(qs[0].children))
  }

  /** The id lies in uuid(lo), ..., uuid(hi - 1). */
  ghost predicate Within(uuid: Supply, p: Option<Id>, lo: nat, hi: nat) {
    exists j: nat :: lo <= j < hi && p == Some(uuid(j))
  }

  lemma WithinSub(uuid: Supply, p: Option<Id>, lo: nat, hi: nat, lo': nat, hi': nat)
    requires Within(uuid, p, lo, hi) && lo' <= lo && hi <= hi'
    ensures Within(uuid, p, lo', hi')
  {
  }

  /** Links of a plan stay inside it, except those of its top-level queues. */
  lemma {:induction false} PlanLinks(uuid: Supply, parentId: Option<Id>, qs: seq<QueueTree>, over: Option<string>, base: nat)
    ensures forall r :: r in Plan(uuid, parentId, qs, over, base) ==>
              r.fixed.parentId == parentId || Within(uuid, r.fixed.parentId, base, base + ForestSize(qs))
    decreases qs
  {
    hide Plan;
    if qs == [] {
      EmptyForest([], uuid, parentId, over, 0);
      assert Plan(uuid, parentId, qs, over, base) == [];
    } else {
      var n := ForestSize(qs[0].children);
      var head, below, after := PlanSplit(uuid, parentId, qs, over, base);
      PlanLinks(uuid, Some(uuid(base)), qs[0].children, Some(At(qs[0].queue, over).partition), base + 1);
      PlanLinks(uuid, parentId, qs[1..], over, base + 1 + n);
      forall r | r in [head] + (below + after)
        ensures r.fixed.parentId == parentId || Within(uuid, r.fixed.parentId, base, base + ForestSize(qs))
      {
        if r in below && Within(uuid, r.fixed.parentId, base + 1, base + 1 + n) {
          WithinSub(uuid, r.fixed.parentId, base + 1, base + 1 + n, base, base + ForestSize(qs));
        } else if r in after && Within(uuid, r.fixed.parentId, base + 1 + n, base + 1 + n + ForestSize(qs[1..])) {
          WithinSub(uuid, r.fixed.parentId, base + 1 + n, base + ForestSize(qs), base, base + ForestSize(qs));
        }
      }
    }
  }

  /** The children of the parent a plan is written under are its top-level rows. */
  lemma {:induction false} PlanHeads(uuid: Supply, parentId: Option<Id>, qs: seq<QueueTree>, over: Option<string>, base: nat)
    requires !Within(uuid, parentId, base, base + ForestSize(qs))
    ensures KidsOf(Plan(uuid, parentId, qs, over, base), parentId) == Heads(uuid, parentId, qs, over, base)
    decreases qs
  {
    hide Plan;
    hide KidsOf;
    hide Heads;
    hide Within;
    if qs == [] {
      EmptyForest([], uuid, parentId, over, 0);
      KidsOfNone([], parentId);
      NoHeads(uuid, parentId, over, base);
    } else {
      var n, end := ForestSize(qs[0].children), base + ForestSize(qs);
      var head, below, after := PlanSplit(uuid, parentId, qs, over, base);
      KidsOfAppend([head], below + after, parentId);
      KidsOfAppend(below, after, parentId);
      PlanLinks(uuid, Some(uuid(base)), qs[0].children, Some(At(qs[0].queue, over).partition), base + 1);
      WithinOwn(uuid, base, end);
      forall r | r in below ensures r.fixed.parentId != parentId {
        if Within(uuid, r.fixed.parentId, base + 1, base + 1 + n) {
          WithinSub(uuid, r.fixed.parentId, base + 1, base + 1 + n, base, end);
        }
      }
      KidsOfNone(below, parentId);
      KidsOfSelf(head, parentId);
      HeadsSplit(uuid, parentId, qs, over, base);
      if !Within(uuid, parentId, base + 1 + n, end) {
        PlanHeads(uuid, parentId, qs[1..], over, base + 1 + n);
      } else {
        WithinSub(uuid, parentId, base + 1 + n, end, base, end);
      }
    }
  }

  lemma NoHeads(uuid: Supply, parentId: Option<Id>, over: Option<string>, base: nat)
    ensures Heads(uuid, parentId, [], over, base) == []
  {
  }

  lemma KidsOfSelf(r: QRow, p: Option<Id>)
    requires r.fixed.parentId == p
    ensures KidsOf([r], p) == [r]
  {
    assert [r][..0] == [];
  }

  /** Rows base.. of the table are the plan of a hierarchy, and no other row links into it. */
  ghost predicate Block(t: seq<QRow>, uuid: Supply, parentId: Option<Id>, qs: seq<QueueTree>, over: Option<string>, base: nat) {
    var end := base + ForestSize(qs);
    && end <= |t|
    && t[base..end] == Plan(uuid, parentId, qs, over, base)
    && (parentId.Some? ==> Within(uuid, parentId, 0, base))
    && NoneInto(t, uuid, base, end)
  }

  /** No row outside t[lo..hi] links to a row inside. */
  ghost predicate NoneInto(t: seq<QRow>, uuid: Supply, lo: nat, hi: nat) {
    forall i :: 0 <= i < |t| && !(lo <= i < hi) ==> !Within(uuid, t[i].fixed.parentId, lo, hi)
  }

  lemma Apart(uuid: Supply, p: Option<Id>, a: nat, b: nat, c: nat, d: nat)
    requires Injective(uuid) && (p.Some? ==> Within(uuid, p, a, b)) && (b <= c || d <= a)
    ensures !Within(uuid, p, c, d)
  {
  }

  /** Rows base + 1 .. mid link only to row base and each other, rows mid .. end only to parentId and each other. */
  ghost predicate Links(t: seq<QRow>, uuid: Supply, parentId: Option<Id>, base: nat, mid: nat, end: nat) {
    && base < mid <= end <= |t| && t[base].fixed.parentId == parentId
    && (parentId.Some? ==> Within(uuid, parentId, 0, base))
    && (forall i :: base < i < mid ==> Within(uuid, t[i].fixed.parentId, base, mid))
    && (forall i :: mid <= i < end ==> t[i].fixed.parentId == parentId || Within(uuid, t[i].fixed.parentId, mid, end))
  }

  lemma OutsideChildren(t: seq<QRow>, uuid: Supply, parentId: Option<Id>, base: nat, mid: nat, end: nat)
    requires Injective(uuid) && Links(t, uuid, parentId, base, mid, end) && NoneInto(t, uuid, base, end)
    ensures NoneInto(t, uuid, base + 1, mid) && NoneInto(t, uuid, mid, end)
    ensures forall i :: 0 <= i < |t| && !(base < i < mid) ==> t[i].fixed.parentId != Some(uuid(base))
  {
    forall i | 0 <= i < |t| && !(base < i < mid)
      ensures !Within(uuid, t[i].fixed.parentId, base, mid)
    {
      var p := t[i].fixed.parentId;
      if i == base || (mid <= i < end && p == parentId) {
        Apart(uuid, p, 0, base, base, mid);
      } else if mid <= i < end {
        Apart(uuid, p, mid, end, base, mid);
      } else if Within(uuid, p, base, mid) {
        WithinSub(uuid, p, base, mid, base, end);
      }
    }
    forall i | 0 <= i < |t| && !(base < i < mid)
      ensures !Within(uuid, t[i].fixed.parentId, base + 1, mid) && t[i].fixed.parentId != Some(uuid(base))
    {
      assert !Within(uuid, t[i].fixed.parentId, base, mid);
    }
    forall i | 0 <= i < |t| && !(mid <= i < end)
      ensures !Within(uuid, t[i].fixed.parentId, mid, end)
    {
      var p := t[i].fixed.parentId;
      if i == base {
        Apart(uuid, p, 0, base, mid, end);
      } else if base < i < mid {
        Apart(uuid, p, base, mid, mid, end);
      } else if Within(uuid, p, mid, end) {
        WithinSub(uuid, p, mid, end, base, end);
      }
    }
  }

  lemma KidsInBlock(t: seq<QRow>, p: Option<Id>, lo: nat, hi: nat)
    requires lo <= hi <= |t|
    requires forall i :: 0 <= i < |t| && !(lo <= i < hi) ==> t[i].fixed.parentId != p
    ensures KidsOf(t, p) == KidsOf(t[lo..hi], p)
  {
    hide KidsOf;
    assert t == t[..lo] + (t[lo..hi] + t[hi..]);
    KidsOfAppend(t[..lo], t[lo..hi] + t[hi..], p);
    KidsOfAppend(t[lo..hi], t[hi..], p);
    KidsOfNone(t[..lo], p);
    KidsOfNone(t[hi..], p);
  }

  /** Where the first row of a block, its descendants and its siblings lie. */
  lemma BlockSlices(t: seq<QRow>, uuid: Supply, parentId: Option<Id>, qs: seq<QueueTree>, over: Option<string>, base: nat)
    requires Injective(uuid) && qs != [] && Block(t, uuid, parentId, qs, over, base)
    ensures var q := At(qs[0].queue, over);
            var mid, end := base + 1 + ForestSize(qs[0].children), base + ForestSize(qs);
            && base < mid <= end == mid + ForestSize(qs[1..]) <= |t|
            && t[base] == NewRow(uuid(base), parentId, q)
            && t[base + 1..mid] == Plan(uuid, Some(uuid(base)), qs[0].children, Some(q.partition), base + 1)
            && t[mid..end] == Plan(uuid, parentId, qs[1..], over, mid)
  {
    hide Plan;
    hide ForestSize;
    hide NoneInto;
    var n, end := ForestSize(qs[0].children), base + ForestSize(qs);
    var head, below, after := PlanSplit(uuid, parentId, qs, over, base);
    ForestSizeSplit(qs);
    ThreeParts(t[base..end], head, below, after);
    SliceOfSlice(t, base, end, 1, 1 + n);
    SliceOfSlice(t, base, end, 1 + n, end - base);
    assert t[base] == t[base..end][0];
  }

  lemma ForestSizeSplit(qs: seq<QueueTree>)
    requires qs != []
    ensures ForestSize(qs) == 1 + ForestSize(qs[0].children) + ForestSize(qs[1..])
  {
  }

  lemma SliceOfSlice<T>(s: seq<T>, lo: nat, hi: nat, a: nat, b: nat)
    requires lo <= hi <= |s| && a <= b <= hi - lo
    ensures s[lo..hi][a..b] == s[lo + a..lo + b]
  {
    var part, left, right := s[lo..hi], s[lo..hi][a..b], s[lo + a..lo + b];
    forall k | 0 <= k < |right|
      ensures left[k] == right[k]
    {
      assert left[k] == part[a + k] == s[lo + (a + k)];
      assert lo + (a + k) == lo + a + k;
    }
  }

  lemma ThreeParts<T>(s: seq<T>, head: T, below: seq<T>, after: seq<T>)
    requires s == [head] + (below + after)
    ensures |s| == 1 + |below| + |after| && s[0] == head
    ensures s[1..1 + |below|] == below && s[1 + |below|..|s|] == after
  {
  }

  lemma SliceLinks(t: seq<QRow>, uuid: Supply, parentId: Option<Id>, qs: seq<QueueTree>, over: Option<string>, lo: nat)
    requires lo + ForestSize(qs) <= |t| && t[lo..lo + ForestSize(qs)] == Plan(uuid, parentId, qs, over, lo)
    ensures forall i :: lo <= i < lo + ForestSize(qs) ==>
              t[i].fixed.parentId == parentId || Within(uuid, t[i].fixed.parentId, lo, lo + ForestSize(qs))
  {
    hide Plan;
    hide ForestSize;
    hide Within;
    PlanLinks(uuid, parentId, qs, over, lo);
    forall i | lo <= i < lo + ForestSize(qs)
      ensures t[i].fixed.parentId == parentId || Within(uuid, t[i].fixed.parentId, lo, lo + ForestSize(qs))
    {
      assert t[i] == t[lo..lo + ForestSize(qs)][i - lo];
    }
  }

  lemma BlockLinks(t: seq<QRow>, uuid: Supply, parentId: Option<Id>, qs: seq<QueueTree>, over: Option<string>, base: nat)
    requires Injective(uuid) && qs != [] && Block(t, uuid, parentId, qs, over, base)
    ensures Links(t, uuid, parentId, base, base + 1 + ForestSize(qs[0].children), base + ForestSize(qs))
  {
    hide Plan;
    hide ForestSize;
    hide NoneInto;
    hide Within;
    var q := At(qs[0].queue, over);
    var mid, end := base + 1 + ForestSize(qs[0].children), base + ForestSize(qs);
    BlockSlices(t, uuid, parentId, qs, over, base);
    SliceLinks(t, uuid, Some(uuid(base)), qs[0].children, Some(q.partition), base + 1);
    SliceLinks(t, uuid, parentId, qs[1..], over, mid);
    WithinOwn(uuid, base, mid);
    forall i | base < i < mid
      ensures Within(uuid, t[i].fixed.parentId, base, mid)
    {
      if Within(uuid, t[i].fixed.parentId, base + 1, mid) {
        WithinSub(uuid, t[i].fixed.parentId, base + 1, mid, base, mid);
      }
    }
  }

  lemma WithinOwn(uuid: Supply, j: nat, hi: nat)
    requires j < hi
    ensures Within(uuid, Some(uuid(j)), j, hi) && Within(uuid, Some(uuid(j)), 0, hi)
  {
  }

  /** A block splits into its first row, the block of that row's children and the block of its siblings. */
  lemma BlockSplit(t: seq<QRow>, uuid: Supply, parentId: Option<Id>, qs: seq<QueueTree>, over: Option<string>, base: nat)
    requires Injective(uuid) && qs != [] && Block(t, uuid, parentId, qs, over, base)
    ensures var q := At(qs[0].queue, over);
            var mid := base + 1 + ForestSize(qs[0].children);
            && base < |t| && t[base] == NewRow(uuid(base), parentId, q)
            && Block(t, uuid, Some(uuid(base)), qs[0].children, Some(q.partition), base + 1)
            && Block(t, uuid, parentId, qs[1..], over, mid)
            && KidsOf(t, Some(uuid(base))) == Heads(uuid, Some(uuid(base)), qs[0].children, Some(q.partition), base + 1)
  {
    hide Plan;
    hide KidsOf;
    hide Heads;
    hide ForestSize;
    hide NoneInto;
    hide Within;
    hide Links;
    var q := At(qs[0].queue, over);
    var mid, end := base + 1 + ForestSize(qs[0].children), base + ForestSize(qs);
    BlockSlices(t, uuid, parentId, qs, over, base);
    BlockLinks(t, uuid, parentId, qs, over, base);
    OutsideChildren(t, uuid, parentId, base, mid, end);
    WithinOwn(uuid, base, base + 1);
    if parentId.Some? {
      WithinSub(uuid, parentId, 0, base, 0, mid);
    }
    ChildrenAreHeads(t, uuid, qs[0].children, Some(q.partition), base, mid);
  }

  lemma ChildrenAreHeads(t: seq<QRow>, uuid: Supply, kids: seq<QueueTree>, over: Option<string>, base: nat, mid: nat)
    requires Injective(uuid) && mid == base + 1 + ForestSize(kids) <= |t|
    requires t[base + 1..mid] == Plan(uuid, Some(uuid(base)), kids, over, base + 1)
    requires forall i :: 0 <= i < |t| && !(base < i < mid) ==> t[i].fixed.parentId != Some(uuid(base))
    ensures KidsOf(t, Some(uuid(base))) == Heads(uuid, Some(uuid(base)), kids, over, base + 1)
  {
    hide Plan;
    hide KidsOf;
    hide Heads;
    hide ForestSize;
    hide Within;
    WithinOwn(uuid, base, base + 1);
    KidsInBlock(t, Some(uuid(base)), base + 1, mid);
    Apart(uuid, Some(uuid(base)), 0, base + 1, base + 1, mid);
    PlanHeads(uuid, Some(uuid(base)), kids, over, base + 1);
  }

  /** Each top-level queue of a block reads back as reported. */
  lemma {:induction false} BlockReadsBack(t: seq<QRow>, uuid: Supply, parentId: Option<Id>, qs: seq<QueueTree>,
                                          over: Option<string>, base: nat)
    requires Stored(t, uuid) && Block(t, uuid, parentId, qs, over, base)
    ensures var heads := Heads(uuid, parentId, qs, over, base);
            && Drawn(heads, t)
            && (forall k :: 0 <= k < |qs| ==> heads[k] in t && Canon(TreeAt(t, uuid, t, heads[k]), ContentOf) == Expected(qs[k], over))
    decreases qs
  {
    hide Plan;
    hide TreeAt;
    hide KidsOf;
    hide Heads;
    hide Block;
    hide Canon;
    hide Expected;
    if qs != [] {
      var q := At(qs[0].queue, over);
      var mid := base + 1 + ForestSize(qs[0].children);
      BlockSplit(t, uuid, parentId, qs, over, base);
      BlockReadsBack(t, uuid, Some(uuid(base)), qs[0].children, Some(q.partition), base + 1);
      BlockReadsBack(t, uuid, parentId, qs[1..], over, mid);
      FirstReadsBack(t, uuid, parentId, qs, over, base);
      HeadsSplit(uuid, parentId, qs, over, base);
      var heads, rest := Heads(uuid, parentId, qs, over, base), Heads(uuid, parentId, qs[1..], over, mid);
      forall k | 0 <= k < |qs|
        ensures heads[k] in t && Canon(TreeAt(t, uuid, t, heads[k]), ContentOf) == Expected(qs[k], over)
      {
        if k > 0 {
          assert heads[k] == rest[k - 1] && qs[k] == qs[1..][k - 1];
        }
      }
    }
  }

  lemma HeadsSplit(uuid: Supply, parentId: Option<Id>, qs: seq<QueueTree>, over: Option<string>, base: nat)
    requires qs != []
    ensures Heads(uuid, parentId, qs, over, base) ==
            [NewRow(uuid(base), parentId, At(qs[0].queue, over))]
            + Heads(uuid, parentId, qs[1..], over, base + 1 + ForestSize(qs[0].children))
  {
  }

  /** The first queue of a block reads back as reported if its children do. */
  lemma FirstReadsBack(t: seq<QRow>, uuid: Supply, parentId: Option<Id>, qs: seq<QueueTree>, over: Option<string>, base: nat)
    requires Stored(t, uuid) && qs != [] && Block(t, uuid, parentId, qs, over, base)
    requires var part := Some(At(qs[0].queue, over).partition);
             var kids := Heads(uuid, Some(uuid(base)), qs[0].children, part, base + 1);
             && Drawn(kids, t)
             && (forall k :: 0 <= k < |kids| ==>
                   kids[k] in t && Canon(TreeAt(t, uuid, t, kids[k]), ContentOf) == Expected(qs[0].children[k], part))
    ensures base < |t| && t[base] == NewRow(uuid(base), parentId, At(qs[0].queue, over))
    ensures Canon(TreeAt(t, uuid, t, t[base]), ContentOf) == Expected(qs[0], over)
  {
    hide Plan;
    hide TreeAt;
    hide KidsOf;
    hide Heads;
    hide Block;
    var part := Some(At(qs[0].queue, over).partition);
    BlockSplit(t, uuid, parentId, qs, over, base);
    TreeIs(t, uuid, t, t[base]);
    AllAsExpected(t, uuid, Heads(uuid, Some(uuid(base)), qs[0].children, part, base + 1), qs[0].children, part);
  }

  lemma {:induction false} AllAsExpected(t: seq<QRow>, uuid: Supply, heads: seq<QRow>, qs: seq<QueueTree>, over: Option<string>)
    requires Stored(t, uuid) && Drawn(heads, t) && |heads| == |qs|
    requires forall k :: 0 <= k < |qs| ==> heads[k] in t && Canon(TreeAt(t, uuid, t, heads[k]), ContentOf) == Expected(qs[k], over)
    ensures CanonAll(Grow(t, uuid, t, heads), ContentOf) == ExpectedAll(qs, over)
    decreases qs
  {
    hide TreeAt;
    hide Canon;
    if qs != [] {
      AllAsExpected(t, uuid, heads[1..], qs[1..], over);
      CanonCons(t, uuid, t, heads, ContentOf);
    }
  }

  lemma {:induction false} RootsAsExpected(t: seq<QRow>, uuid: Supply, heads: seq<QRow>, qs: seq<QueueTree>, partition: string)
    requires Stored(t, uuid) && Drawn(heads, t) && |heads| == |qs|
    requires forall k :: 0 <= k < |qs| ==> heads[k] in t && heads[k].key == KeyOf(qs[k].queue)
    requires forall k :: 0 <= k < |qs| ==> heads[k] in t && Canon(TreeAt(t, uuid, t, heads[k]), ContentOf) == Expected(qs[k], None)
    ensures Drawn(RowsOf(heads, partition), t)
    ensures CanonAll(Grow(t, uuid, t, RowsOf(heads, partition)), ContentOf) == ExpectedIn(qs, partition)
    decreases qs
  {
    hide TreeAt;
    hide Canon;
    hide CanonAll;
    hide RowsOf;
    hide Expected;
    hide Grow;
    hide Stored;
    if qs == [] {
      NothingExpected(t, uuid, partition);
      assert heads == [];
    } else {
      assert forall k :: 0 <= k < |qs[1..]| ==> heads[1..][k] == heads[k + 1] && qs[1..][k] == qs[k + 1];
      RootsAsExpected(t, uuid, heads[1..], qs[1..], partition);
      RowsOfCons(heads, partition);
      if heads[0].key.partition == partition {
        CanonCons(t, uuid, t, [heads[0]] + RowsOf(heads[1..], partition), ContentOf);
        assert ([heads[0]] + RowsOf(heads[1..], partition))[1..] == RowsOf(heads[1..], partition);
      }
    }
  }

  lemma RowsOfCons(rows: seq<QRow>, partition: string)
    requires rows != []
    ensures RowsOf(rows, partition) ==
            if rows[0].key.partition == partition then [rows[0]] + RowsOf(rows[1..], partition) else RowsOf(rows[1..], partition)
  {
    hide RowsOf;
    assert rows == [rows[0]] + rows[1..];
    RowsOfAppend([rows[0]], rows[1..], partition);
    RowsOfSingle(rows[0], partition);
  }

  lemma NothingExpected(t: seq<QRow>, uuid: Supply, partition: string)
    requires Stored(t, uuid)
    ensures RowsOf([], partition) == []
    ensures CanonAll(Grow(t, uuid, t, []), ContentOf) == multiset{}
  {
  }

  lemma RowsOfSingle(r: QRow, partition: string)
    ensures RowsOf([r], partition) == if r.key.partition == partition then [r] else []
  {
    assert [r][..0] == [];
  }

  lemma {:induction false} HeadKeys(uuid: Supply, parentId: Option<Id>, qs: seq<QueueTree>, base: nat)
    ensures forall k :: 0 <= k < |qs| ==> Heads(uuid, parentId, qs, None, base)[k].key == KeyOf(qs[k].queue)
    decreases qs
  {
    if qs != [] {
      HeadKeys(uuid, parentId, qs[1..], base + 1 + ForestSize(qs[0].children));
    }
  }

  // ----- the round trip -----

  lemma WholePlanIsBlock(t: seq<QRow>, uuid: Supply, qs: seq<QueueTree>)
    requires Stored(t, uuid) && Stored(t + Plan(uuid, None, qs, None, |t|), uuid)
    ensures Block(t + Plan(uuid, None, qs, None, |t|), uuid, None, qs, None, |t|)
    ensures forall x, y :: x in Plan(uuid, None, qs, None, |t|) && y in t ==> x.fixed.parentId != Some(y.fixed.id)
  {
    hide Plan;
    var rows := Plan(uuid, None, qs, None, |t|);
    var all := t + rows;
    assert all[|t|..|t| + ForestSize(qs)] == rows;
    forall i | 0 <= i < |t| ensures !Within(uuid, all[i].fixed.parentId, |t|, |all|) {
      assert all[i] == t[i];
      if t[i].fixed.parentId.Some? {
        assert LinkedBefore(t, uuid, i);
      }
    }
    PlanLinks(uuid, None, qs, None, |t|);
    forall x, y | x in rows && y in t ensures x.fixed.parentId != Some(y.fixed.id) {
      assert y.fixed.id == uuid(Rank(t, y));
    }
  }

  lemma FamiliesSplit(t: seq<QRow>, uuid: Supply, qs: seq<QueueTree>, partition: string)
    requires Stored(t, uuid) && Stored(t + Plan(uuid, None, qs, None, |t|), uuid)
    ensures var all := t + Plan(uuid, None, qs, None, |t|);
            && Drawn(KidsOf(RowsOf(all, partition), None), all) && Drawn(KidsOf(RowsOf(t, partition), None), t)
            && Families(all, uuid, KidsOf(RowsOf(all, partition), None)) ==
               Families(t, uuid, KidsOf(RowsOf(t, partition), None)) + ExpectedIn(qs, partition)
  {
    hide Plan;
    hide CanonAll;
    hide Canon;
    hide TreeAt;
    hide Heads;
    hide RowsOf;
    hide KidsOf;
    hide Grow;
    var rows := Plan(uuid, None, qs, None, |t|);
    var all := t + rows;
    WholePlanIsBlock(t, uuid, qs);
    var heads := Heads(uuid, None, qs, None, |t|);
    var before, added := KidsOf(RowsOf(t, partition), None), KidsOf(RowsOf(rows, partition), None);
    RowsOfAppend(t, rows, partition);
    KidsOfAppend(RowsOf(t, partition), RowsOf(rows, partition), None);
    FiltersCommute(rows, None, partition);
    PlanHeads(uuid, None, qs, None, |t|);
    BlockReadsBack(all, uuid, None, qs, None, |t|);
    HeadKeys(uuid, None, qs, |t|);
    RootsAsExpected(all, uuid, heads, qs, partition);
    OldTreesStay(t, rows, uuid, before);
    GrowAppend(all, uuid, all, before, added);
    CanonAllAppend(Grow(all, uuid, all, before), Grow(all, uuid, all, added), ContentOf);
  }

  lemma OldTreesStay(t: seq<QRow>, more: seq<QRow>, uuid: Supply, list: seq<QRow>)
    requires Stored(t, uuid) && Stored(t + more, uuid) && Drawn(list, t)
    requires forall x, y :: x in more && y in t ==> x.fixed.parentId != Some(y.fixed.id)
    ensures Drawn(list, t + more) && Grow(t + more, uuid, t + more, list) == Grow(t, uuid, t, list)
  {
    hide TreeAt;
    hide Stored;
    forall i | 0 <= i < |list|
      ensures list[i] in t && TreeAt(t + more, uuid, t + more, list[i]) == TreeAt(t, uuid, t, list[i])
    {
      assert list[i] in list;
      OldTreeStays(t, more, uuid, list[i]);
    }
  }

  /**
   After a successful AddQueues(nil, F) of root queues, reading any partition back gives the trees
   it held before plus F's trees of that partition, the root's partition pushed to every
   descendant, up to sibling order and ids.
   */
  lemma WrittenHierarchyReadsBack(t: seq<QRow>, uuid: Supply, qs: seq<QueueTree>, budget: nat, partition: string,
                                  before: seq<QRow>, after: seq<QRow>)
    requires Stored(t, uuid) && SamePartition(t) && NoLookup(None, qs) && Delivered(t, partition, before)
    requires AddForest(t, uuid, None, qs, None, budget).ok
    requires Delivered(AddForest(t, uuid, None, qs, None, budget).table, partition, after)
    ensures var t' := AddForest(t, uuid, None, qs, None, budget).table;
            && Stored(t', uuid) && Drawn(before, t) && Drawn(after, t')
            && CanonAll(ReadForest(t', uuid, after), ContentOf) ==
               CanonAll(ReadForest(t, uuid, before), ContentOf) + ExpectedIn(qs, partition)
  {
    hide AddForest;
    hide Plan;
    hide CanonAll;
    hide ReadForest;
    hide InsertAll;
    var t' := AddForest(t, uuid, None, qs, None, budget).table;
    AddIsPreOrderInsertion(t, uuid, None, qs, None, budget);
    var k := InsertAllIsPrefix(t, Plan(uuid, None, qs, None, |t|), budget);
    assert t' == t + Plan(uuid, None, qs, None, |t|);
    AddKeepsForest(t, uuid, None, qs, None, budget);
    RootsAreSteady(qs, None);
    AddKeepsPartitionsExactly(t, uuid, None, qs, budget);
    ReadIsFamilies(t, uuid, partition, before);
    ReadIsFamilies(t', uuid, partition, after);
    FamiliesSplit(t, uuid, qs, partition);
  }

  /** Queues that name no parent are put under none. */
  lemma {:induction false} RootsAreSteady(qs: seq<QueueTree>, over: Option<string>)
    requires NoLookup(None, qs)
    ensures SteadyPartition(qs, over)
  {
    if qs != [] {
      RootsAreSteady(qs[1..], over);
    }
  }
}
