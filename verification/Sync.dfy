/**
 Fetching the queue hierarchy of every partition (internal/yunikorn/sync.go): one goroutine per
 partition appends its result under a mutex, so results arrive in any order; the list is then
 flattened and upserted.
 */
module Sync {
  import opened Options
  import opened UpsertTable
  import opened QueueModel
  import opened QueueReaders
  import opened QueueWriters
  import opened Repository

  // ----- the fan-out -----

  /** The hierarchies in order of completion, or an error if any fetch failed. */
  function Collect(arrivals: seq<Result<QueueTree>>): Result<seq<QueueTree>> {
    if arrivals == [] then Ok([])
    else
      var last := arrivals[|arrivals| - 1];
      match Collect(arrivals[..|arrivals| - 1])
      case Err => Err
      case Ok(qs) => if last.Err? then Err else Ok(qs + [last.value])
  }

  function Values(arrivals: seq<Result<QueueTree>>): (r: seq<QueueTree>)
    requires forall a :: a in arrivals ==> a.Ok?
    ensures |r| == |arrivals| && forall i :: 0 <= i < |r| ==> r[i] == arrivals[i].value
  {
    seq(|arrivals|, i requires 0 <= i < |arrivals| => assert arrivals[i] in arrivals; arrivals[i].value)
  }

  lemma {:induction false} CollectIs(arrivals: seq<Result<QueueTree>>)
    ensures Collect(arrivals).Ok? <==> forall a :: a in arrivals ==> a.Ok?
    ensures Collect(arrivals).Ok? ==> Collect(arrivals).value == Values(arrivals)
  {
    if arrivals != [] {
      var front, last := arrivals[..|arrivals| - 1], arrivals[|arrivals| - 1];
      assert arrivals == front + [last];
      CollectIs(front);
    }
  }

  // ----- flattening -----

  lemma {:induction false} FlattenAppend(a: seq<QueueTree>, b: seq<QueueTree>, over: Option<string>)
    ensures Flatten(a + b, over) == Flatten(a, over) + Flatten(b, over)
    decreases a
  {
    hide Flatten;
    if a == [] {
      assert a + b == b;
      FlattenNothing(over);
    } else {
      assert (a + b)[0] == a[0] && (a + b)[1..] == a[1..] + b;
      FlattenAppend(a[1..], b, over);
      FlattenSplit(a, over);
      FlattenSplit(a + b, over);
      var q := At(a[0].queue, over);
      var below, rest, more := Flatten(a[0].children, Some(q.partition)), Flatten(a[1..], over), Flatten(b, over);
      Associates([q], below, rest, more);
    }
  }

  lemma Associates<T>(a: seq<T>, b: seq<T>, c: seq<T>, d: seq<T>)
    ensures a + (b + (c + d)) == a + (b + c) + d
  {
  }

  lemma FlattenNothing(over: Option<string>)
    ensures Flatten([], over) == []
  {
  }

  lemma FlattenRemove(front: seq<QueueTree>, x: QueueTree, back: seq<QueueTree>, over: Option<string>)
    ensures multiset(Flatten(front + ([x] + back), over)) ==
            multiset(Flatten([x], over)) + multiset(Flatten(front + back, over))
  {
    hide Flatten;
    FlattenAppend(front, [x] + back, over);
    FlattenAppend([x], back, over);
    FlattenAppend(front, back, over);
  }

  /** Whatever order the hierarchies arrive in, the flattened list holds the same queues the same number of times. */
  lemma {:induction false} FlattenPermutation(a: seq<QueueTree>, b: seq<QueueTree>, over: Option<string>)
    requires multiset(a) == multiset(b)
    ensures multiset(Flatten(a, over)) == multiset(Flatten(b, over))
    decreases |a|
  {
    hide Flatten;
    if a == [] {
      assert |multiset(b)| == |b|;
      assert b == a;
    } else {
      var front, back := PermutationSplit(a, b);
      FlattenPermutation(a[1..], front + back, over);
      FlattenRemove(front, a[0], back, over);
      FlattenRemove([], a[0], a[1..], over);
      assert [] + ([a[0]] + a[1..]) == a && [] + a[1..] == a[1..];
    }
  }

  /** Every queue of one hierarchy ends up in the partition of its root. */
  lemma {:induction false} FlattenPartition(qs: seq<QueueTree>, partition: string)
    ensures forall q :: q in Flatten(qs, Some(partition)) ==> q.partition == partition
    decreases qs
  {
    if qs != [] {
      FlattenPartition(qs[0].children, partition);
      FlattenPartition(qs[1..], partition);
    }
  }

  lemma FlattenRootPartition(q: QueueTree)
    ensures forall x :: x in Flatten([q], None) ==> x.partition == q.queue.partition
  {
    FlattenPartition(q.children, q.queue.partition);
    assert [q][1..] == [];
    assert Flatten([q], None) == [q.queue] + Flatten(q.children, Some(q.queue.partition));
  }

  /** A queue at or before position i has this key. */
  ghost predicate ListedBefore(list: seq<Queue>, i: nat, key: QueueKey)
    requires i <= |list|
  {
    exists j :: 0 <= j < i && KeyOf(list[j]) == key
  }

  /** The parent of list[i] is one of the roots' parents or is listed before it. */
  ghost predicate ParentListed(list: seq<Queue>, i: nat, roots: seq<QueueTree>)
    requires i < |list|
  {
    (exists k :: 0 <= k < |roots| && list[i].parent == roots[k].queue.parent)
    || ListedBefore(list, i, QueueKey(list[i].partition, list[i].parent))
  }

  /** Parents come before their children. */
  lemma {:induction false} ParentsFirst(qs: seq<QueueTree>, over: Option<string>, i: nat)
    requires Matched(qs) && i < |Flatten(qs, over)|
    ensures ParentListed(Flatten(qs, over), i, qs)
    decreases qs
  {
    hide Flatten;
    if qs == [] {
      FlattenNothing(over);
    }
    FlattenSplit(qs, over);
    var q := At(qs[0].queue, over);
    var below, after, all := Flatten(qs[0].children, Some(q.partition)), Flatten(qs[1..], over), Flatten(qs, over);
    if i == 0 {
      assert all[0].parent == qs[0].queue.parent;
    } else if i <= |below| {
      var j := i - 1;
      assert all[i] == below[j];
      ParentsFirst(qs[0].children, Some(q.partition), j);
      if k :| 0 <= k < |qs[0].children| && below[j].parent == qs[0].children[k].queue.parent {
        FlattenPartition(qs[0].children, q.partition);
        assert MatchedTree(qs[0]);
        assert below[j] in below;
        assert KeyOf(all[0]) == QueueKey(all[i].partition, all[i].parent);
      } else {
        var l :| 0 <= l < j && KeyOf(below[l]) == QueueKey(below[j].partition, below[j].parent);
        assert all[l + 1] == below[l];
      }
    } else {
      var j := i - 1 - |below|;
      assert all[i] == after[j];
      ParentsFirst(qs[1..], over, j);
      if k :| 0 <= k < |qs[1..]| && after[j].parent == qs[1..][k].queue.parent {
        assert qs[k + 1] == qs[1..][k];
      } else {
        var l :| 0 <= l < j && KeyOf(after[l]) == QueueKey(after[j].partition, after[j].parent);
        assert all[l + 1 + |below|] == after[l];
      }
    }
  }

  // ----- when the upsert of a flattened hierarchy succeeds -----

  ghost predicate StoredDeleted(t: seq<QRow>, key: QueueKey) {
    Find(t, key).Some? && t[Find(t, key).value].fixed.deleted
  }

  /** t' keeps every key of t and adds only live rows. */
  ghost predicate Kept(t: seq<QRow>, t': seq<QRow>) {
    && UniqueKeys(t')
    && (forall k :: Find(t, k).Some? ==> Find(t', k).Some?)
    && (forall k :: StoredDeleted(t, k) == StoredDeleted(t', k))
  }

  lemma UpsertKeeps(t: seq<QRow>, uuid: Supply, q: Queue)
    requires UniqueKeys(t) && UpsertRow(t, uuid, q).Ok?
    ensures Kept(t, UpsertRow(t, uuid, q).value) && Find(UpsertRow(t, uuid, q).value, KeyOf(q)).Some?
  {
    var t' := UpsertRow(t, uuid, q).value;
    PutKeepsKeys(t, KeyOf(q), NewFixed(uuid(|t|), Lookup(t, q.parent, q.partition).value, q), LivePatch(q));
    forall k
      ensures Find(t, k).Some? ==> Find(t', k) == Find(t, k)
      ensures Find(t, k).None? && k == KeyOf(q) ==> Find(t', k) == Some(|t|)
      ensures StoredDeleted(t, k) == StoredDeleted(t', k)
    {
      if Find(t, k).Some? {
        FindIs(t', k, Find(t, k).value);
      } else if k == KeyOf(q) {
        FindIs(t', k, |t|);
      }
    }
  }

  lemma {:induction false} UpsertAllKeeps(t: seq<QRow>, uuid: Supply, qs: seq<Queue>, budget: nat)
    requires UniqueKeys(t)
    ensures Kept(t, UpsertAll(t, uuid, qs, budget).table)
    ensures UpsertAll(t, uuid, qs, budget).ok ==> |qs| <= budget && UpsertAll(t, uuid, qs, budget).budget == budget - |qs|
    decreases qs
  {
    hide Find;
    hide StoredDeleted;
    hide UpsertRow;
    if qs != [] && budget > 0 && UpsertRow(t, uuid, qs[0]).Ok? {
      UpsertKeeps(t, uuid, qs[0]);
      UpsertAllKeeps(UpsertRow(t, uuid, qs[0]).value, uuid, qs[1..], budget - 1);
    }
  }

  /** No queue that its children name is stored as deleted. */
  ghost predicate TreeLive(t: seq<QRow>, q: QueueTree, over: Option<string>) {
    && (q.children != [] && q.queue.name != "" ==> !StoredDeleted(t, KeyOf(At(q.queue, over))))
    && InnerLive(t, q.children, Some(At(q.queue, over).partition))
  }

  ghost predicate InnerLive(t: seq<QRow>, qs: seq<QueueTree>, over: Option<string>) {
    forall k :: 0 <= k < |qs| ==> TreeLive(t, qs[k], over)
  }

  lemma {:induction false} TreeLiveKept(t: seq<QRow>, t': seq<QRow>, q: QueueTree, over: Option<string>)
    requires Kept(t, t')
    ensures TreeLive(t, q, over) == TreeLive(t', q, over)
    decreases q
  {
    hide StoredDeleted;
    forall c | 0 <= c < |q.children| {
      TreeLiveKept(t, t', q.children[c], Some(At(q.queue, over).partition));
    }
  }

  ghost predicate ParentsFound(t: seq<QRow>, qs: seq<QueueTree>, over: Option<string>) {
    forall k :: 0 <= k < |qs| ==> Lookup(t, qs[k].queue.parent, At(qs[k].queue, over).partition).Ok?
  }

  lemma ParentsFoundKept(t: seq<QRow>, t': seq<QRow>, qs: seq<QueueTree>, over: Option<string>)
    requires Kept(t, t') && ParentsFound(t, qs, over)
    ensures ParentsFound(t', qs, over)
  {
    forall k | 0 <= k < |qs|
      ensures Lookup(t', qs[k].queue.parent, At(qs[k].queue, over).partition).Ok?
    {
      var key := QueueKey(At(qs[k].queue, over).partition, qs[k].queue.parent);
      assert StoredDeleted(t, key) == StoredDeleted(t', key);
      assert Find(t, key).Some? ==> Find(t', key).Some?;
    }
  }

  /** Children find their parent, or name none, unless the row of the parent they name is deleted; then the first fails. */
  lemma ChildrenFound(t: seq<QRow>, uuid: Supply, q: QueueTree, here: Queue, budget: nat)
    requires MatchedTree(q) && here.name == q.queue.name && Find(t, KeyOf(here)).Some? && q.children != []
    ensures here.name == "" || !StoredDeleted(t, KeyOf(here)) ==> ParentsFound(t, q.children, Some(here.partition))
    ensures here.name != "" && StoredDeleted(t, KeyOf(here)) ==> !UpsertAll(t, uuid, Flatten(q.children, Some(here.partition)), budget).ok
  {
    if here.name != "" && StoredDeleted(t, KeyOf(here)) {
      var list := Flatten(q.children, Some(here.partition));
      assert list[0] == At(q.children[0].queue, Some(here.partition));
      assert q.children[0].queue.parent == here.name != "";
      assert UpsertRow(t, uuid, list[0]).Err?;
    }
  }

  /** One queue of the list, then the queues below it, then those after. */
  lemma UpsertSplit(t: seq<QRow>, uuid: Supply, q: Queue, below: seq<Queue>, after: seq<Queue>, budget: nat)
    requires budget > 0 && UpsertRow(t, uuid, q).Ok?
    ensures var kids := UpsertAll(UpsertRow(t, uuid, q).value, uuid, below, budget - 1);
            UpsertAll(t, uuid, [q] + (below + after), budget) ==
            if kids.ok then UpsertAll(kids.table, uuid, after, kids.budget) else kids
  {
    hide UpsertRow;
    hide UpsertAll;
    UpsertUnfold(t, uuid, q, below + after, budget);
    UpsertAllAppend(UpsertRow(t, uuid, q).value, uuid, below, after, budget - 1);
  }

  lemma FlattenSplit(qs: seq<QueueTree>, over: Option<string>)
    requires qs != []
    ensures var q := At(qs[0].queue, over);
            Flatten(qs, over) == [q] + (Flatten(qs[0].children, Some(q.partition)) + Flatten(qs[1..], over))
  {
  }

  lemma KeptTrans(a: seq<QRow>, b: seq<QRow>, c: seq<QRow>)
    requires Kept(a, b) && Kept(b, c)
    ensures Kept(a, c)
  {
    hide Find;
    hide StoredDeleted;
  }

  lemma InnerLiveKept(t: seq<QRow>, t': seq<QRow>, qs: seq<QueueTree>, over: Option<string>)
    requires Kept(t, t')
    ensures InnerLive(t, qs, over) == InnerLive(t', qs, over)
  {
    hide TreeLive;
    forall k | 0 <= k < |qs| ensures TreeLive(t, qs[k], over) == TreeLive(t', qs[k], over) {
      TreeLiveKept(t, t', qs[k], over);
    }
  }

  lemma ConditionSplit(t: seq<QRow>, qs: seq<QueueTree>, over: Option<string>)
    requires qs != []
    ensures Partitions(qs, over) <==> At(qs[0].queue, over).partition != "" && Partitions(qs[1..], over)
    ensures InnerLive(t, qs, over) <==> TreeLive(t, qs[0], over) && InnerLive(t, qs[1..], over)
    ensures ParentsFound(t, qs, over) ==> ParentsFound(t, qs[1..], over)
  {
    hide TreeLive;
    hide Lookup;
    assert forall k :: 0 < k < |qs| ==> qs[k] == qs[1..][k - 1];
    assert forall k :: 0 <= k < |qs[1..]| ==> qs[1..][k] == qs[k + 1];
  }

  /** Once a queue is upserted, the queues below it are upserted too unless one that its children name is stored as deleted. */
  lemma {:induction false} SucceedsBelow(t: seq<QRow>, uuid: Supply, x: QueueTree, over: Option<string>, budget: nat)
    requires UniqueKeys(t) && MatchedTree(x) && ForestSize(x.children) <= budget
    requires At(x.queue, over).partition != "" && Find(t, KeyOf(At(x.queue, over))).Some?
    ensures UpsertAll(t, uuid, Flatten(x.children, Some(At(x.queue, over).partition)), budget).ok <==> TreeLive(t, x, over)
    decreases x
  {
    hide UpsertAll;
    hide Flatten;
    hide Find;
    hide StoredDeleted;
    hide Lookup;
    var part := Some(At(x.queue, over).partition);
    if x.children == [] {
      EmptyForest(t, uuid, None, part, budget);
    } else {
      ChildrenFound(t, uuid, x, At(x.queue, over), budget);
      if x.queue.name == "" || !StoredDeleted(t, KeyOf(At(x.queue, over))) {
        UpsertSucceedsExactly(t, uuid, x.children, part, budget);
      }
    }
  }

  /**
   UpsertQueues of a flattened hierarchy succeeds exactly when every root has a partition and no
   queue that its children name is stored as deleted.
   */
  lemma {:induction false} UpsertSucceedsExactly(t: seq<QRow>, uuid: Supply, qs: seq<QueueTree>, over: Option<string>, budget: nat)
    requires UniqueKeys(t) && Matched(qs) && ParentsFound(t, qs, over) && ForestSize(qs) <= budget
    ensures UpsertAll(t, uuid, Flatten(qs, over), budget).ok <==> Partitions(qs, over) && InnerLive(t, qs, over)
    decreases qs
  {
    hide UpsertAll;
    hide Flatten;
    hide Find;
    hide TreeLive;
    hide Lookup;
    if qs == [] {
      EmptyForest(t, uuid, None, over, budget);
    } else {
      var q, rest := At(qs[0].queue, over), qs[1..];
      FlattenSplit(qs, over);
      ConditionSplit(t, qs, over);
      var below, after := Flatten(qs[0].children, Some(q.partition)), Flatten(rest, over);
      assert Lookup(t, qs[0].queue.parent, q.partition).Ok?;
      if q.partition == "" {
        UpsertUnfold(t, uuid, q, below + after, budget);
      } else {
        UpsertSplit(t, uuid, q, below, after, budget);
        UpsertKeeps(t, uuid, q);
        var t1 := UpsertRow(t, uuid, q).value;
        assert MatchedTree(qs[0]);
        SucceedsBelow(t1, uuid, qs[0], over, budget - 1);
        TreeLiveKept(t, t1, qs[0], over);
        UpsertAllKeeps(t1, uuid, below, budget - 1);
        var kids := UpsertAll(t1, uuid, below, budget - 1);
        if kids.ok {
          KeptTrans(t, t1, kids.table);
          ParentsFoundKept(t, kids.table, rest, over);
          UpsertSucceedsExactly(kids.table, uuid, rest, over, kids.budget);
          InnerLiveKept(t, kids.table, rest, over);
        }
      }
    }
  }

  /** One partition's hierarchy as fetched: a root queue with a partition, its children naming their parents. */
  ghost predicate Reported(q: QueueTree) {
    MatchedTree(q) && q.queue.parent == "" && q.queue.partition != ""
  }

  /** No stored parent queue is deleted. */
  ghost predicate NoParentDeleted(t: seq<QRow>, qs: seq<QueueTree>) {
    forall q :: q in qs ==> TreeLive(t, q, None)
  }

  /**
   Schedule independence: in whatever order the fetches complete, the flattened list holds the same
   queues, each queue's parent before it, and its upsert succeeds exactly when no stored queue that
   its children name is deleted.
   */
  lemma AnyArrivalOrder(t: seq<QRow>, uuid: Supply, fetched: seq<QueueTree>, arrivals: seq<Result<QueueTree>>, budget: nat)
    requires UniqueKeys(t) && multiset(arrivals) == multiset(seq(|fetched|, i requires 0 <= i < |fetched| => Ok(fetched[i])))
    requires forall q :: q in fetched ==> Reported(q)
    ensures Collect(arrivals).Ok?
    ensures var list := Flatten(Collect(arrivals).value, None);
            && multiset(list) == multiset(Flatten(fetched, None))
            && (forall i :: 0 <= i < |list| ==>
                  list[i].parent == "" || ListedBefore(list, i, QueueKey(list[i].partition, list[i].parent)))
            && (|list| <= budget ==> (UpsertAll(t, uuid, list, budget).ok <==> NoParentDeleted(t, fetched)))
  {
    hide Flatten;
    hide UpsertAll;
    hide TreeLive;
    hide MatchedTree;
    var sent: seq<Result<QueueTree>> := seq(|fetched|, i requires 0 <= i < |fetched| => Ok(fetched[i]));
    AllArrived(fetched, arrivals, sent);
    var qs := Collect(arrivals).value;
    FlattenPermutation(qs, fetched, None);
    var list := Flatten(qs, None);
    forall q ensures q in qs <==> q in fetched {
      assert q in qs <==> q in multiset(qs);
      assert q in fetched <==> q in multiset(fetched);
    }
    forall k | 0 <= k < |qs| ensures Reported(qs[k]) {
      assert qs[k] in qs;
    }
    forall i | 0 <= i < |list|
      ensures list[i].parent == "" || ListedBefore(list, i, QueueKey(list[i].partition, list[i].parent))
    {
      ParentsFirst(qs, None, i);
    }
    if |list| <= budget {
      UpsertSucceedsExactly(t, uuid, qs, None, budget);
      assert InnerLive(t, qs, None) <==> NoParentDeleted(t, fetched);
    }
  }

  /** All goroutines succeeded, so the collected list is a permutation of what was fetched. */
  lemma AllArrived(fetched: seq<QueueTree>, arrivals: seq<Result<QueueTree>>, sent: seq<Result<QueueTree>>)
    requires |sent| == |fetched| && forall i :: 0 <= i < |sent| ==> sent[i] == Ok(fetched[i])
    requires multiset(arrivals) == multiset(sent)
    ensures Collect(arrivals).Ok? && multiset(Collect(arrivals).value) == multiset(fetched)
  {
    forall a | a in arrivals ensures a.Ok? {
      assert a in multiset(sent);
      assert a in sent;
    }
    CollectIs(arrivals);
    forall a | a in sent ensures a.Ok? {}
    assert Values(sent) == fetched;
    ValuesPermutation(arrivals, sent);
  }

  lemma ValuesAppend(a: seq<Result<QueueTree>>, b: seq<Result<QueueTree>>)
    requires (forall x :: x in a ==> x.Ok?) && (forall x :: x in b ==> x.Ok?)
    ensures (forall x :: x in a + b ==> x.Ok?) && Values(a + b) == Values(a) + Values(b)
  {
  }

  lemma {:induction false} ValuesPermutation(a: seq<Result<QueueTree>>, b: seq<Result<QueueTree>>)
    requires multiset(a) == multiset(b)
    requires (forall x :: x in a ==> x.Ok?) && (forall x :: x in b ==> x.Ok?)
    ensures multiset(Values(a)) == multiset(Values(b))
    decreases |a|
  {
    hide Values;
    if a == [] {
      assert |multiset(b)| == |b|;
      assert b == a;
    } else {
      var front, back := PermutationSplit(a, b);
      assert forall x :: x in front || x in back ==> x in b;
      ValuesAppend(front, back);
      ValuesPermutation(a[1..], front + back);
      ValuesAppend([a[0]], back);
      ValuesAppend(front, [a[0]] + back);
      assert a == [a[0]] + a[1..];
      ValuesAppend([a[0]], a[1..]);
    }
  }

  // ----- the code -----

  lemma {:induction false} FlattenWithPartition(qs: seq<QueueTree>, partition: string)
    ensures Flatten(WithPartition(qs, partition), None) == Flatten(qs, Some(partition))
  {
    if qs != [] {
      assert WithPartition(qs, partition)[1..] == WithPartition(qs[1..], partition);
      FlattenWithPartition(qs[1..], partition);
    }
  }

  method FlattenQueues(qs: seq<QueueTree>) returns (list: seq<Queue>)
    ensures list == Flatten(qs, None)
    decreases ForestSize(qs)
  {
    hide ForestSize;
    list := [];
    assert qs[0..] == qs;
    for i := 0 to |qs|
      invariant list + Flatten(qs[i..], None) == Flatten(qs, None)
    {
      assert qs[i..][0] == qs[i] && qs[i..][1..] == qs[i + 1..];
      var q := qs[i].queue;
      WithPartitionSize(qs[i].children, q.partition);
      ForestSizeDrop(qs, i);
      var below := FlattenQueues(WithPartition(qs[i].children, q.partition));
      FlattenWithPartition(qs[i].children, q.partition);
      list := list + [q] + below;
    }
    assert qs[|qs|..] == [];
  }

  /** upsertPartitionQueues up to the job it enqueues: collect results in order of completion, then flatten. */
  method FetchQueues(arrivals: seq<Result<QueueTree>>) returns (r: Result<seq<Queue>>)
    ensures r.Ok? <==> Collect(arrivals).Ok?
    ensures r.Ok? ==> r.value == Flatten(Collect(arrivals).value, None)
  {
    var queues: seq<QueueTree> := [];
    var errs := 0;
    for i := 0 to |arrivals|
      invariant errs == 0 <==> Collect(arrivals[..i]).Ok?
      invariant errs == 0 ==> Collect(arrivals[..i]) == Ok(queues)
      invariant errs >= 0
    {
      assert arrivals[..i + 1][..i] == arrivals[..i];
      match arrivals[i] {
        case Ok(queue) => queues := queues + [queue];
        case Err => errs := errs + 1;
      }
    }
    assert arrivals[..|arrivals|] == arrivals;
    if errs > 0 {
      return Err;
    }
    var list := FlattenQueues(queues);
    return Ok(list);
  }
}
