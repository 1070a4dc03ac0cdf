/**
 What the two writers of a queue hierarchy leave in the table: recursive AddQueues, and
 UpsertQueues fed by flattenQueues (internal/yunikorn/sync.go).
 */
module QueueWriters {
  import opened Options
  import opened UpsertTable
  import opened QueueModel
  import opened StoreRuns
  import opened QueueCalls

  // ----- the hierarchy in pre-order -----

  /** flattenQueues: a queue, then its children with its partition written over theirs, then its siblings. */
  function Flatten(qs: seq<QueueTree>, over: Option<string>): (r: seq<Queue>)
    ensures |r| == ForestSize(qs)
  {
    if qs == [] then []
    else
      var q := At(qs[0].queue, over);
      [q] + (Flatten(qs[0].children, Some(q.partition)) + Flatten(qs[1..], over))
  }

  /** The rows a hierarchy stands for, in pre-order, when the next row inserted is number `base`. */
  function Plan(uuid: Supply, parentId: Option<Id>, qs: seq<QueueTree>, over: Option<string>, base: nat): (r: seq<QRow>)
    ensures |r| == ForestSize(qs)
    decreases qs
  {
    if qs == [] then []
    else
      var q := At(qs[0].queue, over);
      [NewRow(uuid(base), parentId, q)]
      + (Plan(uuid, Some(uuid(base)), qs[0].children, Some(q.partition), base + 1)
         + Plan(uuid, parentId, qs[1..], over, base + 1 + ForestSize(qs[0].children)))
  }

  /** Insert rows one after the other until one is rejected. */
  function InsertAll(t: seq<QRow>, rows: seq<QRow>, budget: nat): Outcome
    decreases rows
  {
    if rows == [] then Outcome(t, budget, true)
    else if budget == 0 || rows[0].key.partition == "" || Find(t, rows[0].key).Some? then Outcome(t, budget, false)
    else InsertAll(t + [rows[0]], rows[1..], budget - 1)
  }

  lemma {:induction false} InsertAllAppend(t: seq<QRow>, a: seq<QRow>, b: seq<QRow>, budget: nat)
    ensures var r := InsertAll(t, a, budget);
            InsertAll(t, a + b, budget) == if r.ok then InsertAll(r.table, b, r.budget) else r
    decreases a
  {
    if a == [] {
      assert a + b == b;
    } else {
      assert (a + b)[0] == a[0] && (a + b)[1..] == a[1..] + b;
      if !(budget == 0 || a[0].key.partition == "" || Find(t, a[0].key).Some?) {
        InsertAllAppend(t + [a[0]], a[1..], b, budget - 1);
      }
    }
  }

  /** The statement for row i is rejected: no answer, no partition, or a key already taken. */
  ghost predicate Blocked(t: seq<QRow>, rows: seq<QRow>, i: nat, budget: nat)
    requires i < |rows|
  {
    i >= budget || rows[i].key.partition == "" || Find(t + rows[..i], rows[i].key).Some?
  }

  /** The rows before the first rejected one, and nothing else, are in the table. */
  lemma {:induction false} InsertAllIsPrefix(t: seq<QRow>, rows: seq<QRow>, budget: nat) returns (k: nat)
    ensures k <= |rows| && k <= budget && (forall i :: 0 <= i < k ==> !Blocked(t, rows, i, budget))
    ensures InsertAll(t, rows, budget) == Outcome(t + rows[..k], budget - k, k == |rows|)
    ensures k < |rows| ==> Blocked(t, rows, k, budget)
    decreases rows
  {
    if rows == [] || budget == 0 || rows[0].key.partition == "" || Find(t, rows[0].key).Some? {
      k := 0;
      assert t + rows[..k] == t;
    } else {
      var t1, rest := t + [rows[0]], rows[1..];
      var j := InsertAllIsPrefix(t1, rest, budget - 1);
      k := j + 1;
      assert t1 + rest[..j] == t + rows[..k];
      forall i | 0 <= i < |rows|
        ensures i > 0 ==> Blocked(t, rows, i, budget) == Blocked(t1, rest, i - 1, budget - 1)
      {
        if i > 0 {
          assert t1 + rest[..i - 1] == t + rows[..i];
        }
      }
      assert t + rows[..0] == t;
    }
  }

  /** Insert a row, then the rows below it, then the rows after those. */
  lemma InsertSplit(t: seq<QRow>, head: QRow, below: seq<QRow>, after: seq<QRow>, budget: nat)
    requires budget > 0 && head.key.partition != "" && Find(t, head.key).None?
    ensures var kids := InsertAll(t + [head], below, budget - 1);
            && InsertAll(t, [head] + (below + after), budget) ==
               (if kids.ok then InsertAll(kids.table, after, kids.budget) else kids)
            && (kids.ok ==> kids.table == t + [head] + below && kids.budget == budget - 1 - |below|)
  {
    assert ([head] + (below + after))[1..] == below + after;
    InsertAllAppend(t + [head], below, after, budget - 1);
    var k := InsertAllIsPrefix(t + [head], below, budget - 1);
  }

  /** Nothing is looked up by name: the parent is given, or no top-level queue names one. */
  ghost predicate NoLookup(parentId: Option<Id>, qs: seq<QueueTree>) {
    parentId.Some? || forall k :: 0 <= k < |qs| ==> qs[k].queue.parent == ""
  }

  /** Plan, one level unfolded. */
  lemma PlanSplit(uuid: Supply, parentId: Option<Id>, qs: seq<QueueTree>, over: Option<string>, base: nat)
    returns (head: QRow, below: seq<QRow>, after: seq<QRow>)
    requires qs != []
    ensures head == NewRow(uuid(base), parentId, At(qs[0].queue, over))
    ensures below == Plan(uuid, Some(uuid(base)), qs[0].children, Some(At(qs[0].queue, over).partition), base + 1)
    ensures after == Plan(uuid, parentId, qs[1..], over, base + 1 + ForestSize(qs[0].children))
    ensures Plan(uuid, parentId, qs, over, base) == [head] + (below + after)
  {
    hide ForestSize;
    hide At;
    hide NewRow;
    head := NewRow(uuid(base), parentId, At(qs[0].queue, over));
    below := Plan(uuid, Some(uuid(base)), qs[0].children, Some(At(qs[0].queue, over).partition), base + 1);
    after := Plan(uuid, parentId, qs[1..], over, base + 1 + ForestSize(qs[0].children));
  }

  /** The empty hierarchy flattens to an empty list and stands for no rows. */
  lemma EmptyForest(t: seq<QRow>, uuid: Supply, parentId: Option<Id>, over: Option<string>, budget: nat)
    ensures UpsertAll(t, uuid, Flatten([], over), budget) == Outcome(t, budget, true)
    ensures forall base :: Plan(uuid, parentId, [], over, base) == []
    ensures InsertAll(t, [], budget) == Outcome(t, budget, true)
  {
  }

  lemma InsertStops(t: seq<QRow>, rows: seq<QRow>, budget: nat)
    requires rows != [] && (budget == 0 || rows[0].key.partition == "" || Find(t, rows[0].key).Some?)
    ensures InsertAll(t, rows, budget) == Outcome(t, budget, false)
  {
  }

  /** The recursive AddQueues inserts the pre-order rows one after the other and stops at the first rejected one. */
  lemma {:induction false} AddIsPreOrderInsertion(t: seq<QRow>, uuid: Supply, parentId: Option<Id>, qs: seq<QueueTree>,
                                                  over: Option<string>, budget: nat)
    requires NoLookup(parentId, qs)
    ensures AddForest(t, uuid, parentId, qs, over, budget) == InsertAll(t, Plan(uuid, parentId, qs, over, |t|), budget)
    decreases qs
  {
    hide Plan;
    hide AddForest;
    hide InsertAll;
    hide ForestSize;
    if qs == [] {
      NothingToAdd(t, uuid, parentId, over, budget);
      EmptyForest(t, uuid, parentId, over, budget);
    } else {
      var q := At(qs[0].queue, over);
      var head, below, after := PlanSplit(uuid, parentId, qs, over, |t|);
      AddUnfold(t, uuid, parentId, qs, over, budget);
      if CanInsert(t, parentId, q, budget) {
        AddIsPreOrderInsertion(t + [head], uuid, Some(uuid(|t|)), qs[0].children, Some(q.partition), budget - 1);
        InsertSplit(t, head, below, after, budget);
        var kids := InsertAll(t + [head], below, budget - 1);
        if kids.ok {
          assert |kids.table| == |t| + 1 + ForestSize(qs[0].children);
          AddIsPreOrderInsertion(kids.table, uuid, parentId, qs[1..], over, kids.budget);
        }
      } else {
        InsertStops(t, [head] + (below + after), budget);
      }
    }
  }

  // ----- UpsertQueues(flattenQueues(F)) -----

  lemma {:induction false} UpsertAllAppend(t: seq<QRow>, uuid: Supply, a: seq<Queue>, b: seq<Queue>, budget: nat)
    ensures var r := UpsertAll(t, uuid, a, budget);
            UpsertAll(t, uuid, a + b, budget) == if r.ok then UpsertAll(r.table, uuid, b, r.budget) else r
    decreases a
  {
    if a == [] {
      assert a + b == b;
    } else {
      assert (a + b)[0] == a[0] && (a + b)[1..] == a[1..] + b;
      if budget > 0 && UpsertRow(t, uuid, a[0]).Ok? {
        UpsertAllAppend(UpsertRow(t, uuid, a[0]).value, uuid, a[1..], b, budget - 1);
      }
    }
  }

  /** Each child's Parent is the name of the queue it sits under, and that name is not empty. */
  ghost predicate NamedTree(q: QueueTree) {
    && (forall c :: 0 <= c < |q.children| ==> q.children[c].queue.parent == q.queue.name != "")
    && Named(q.children)
  }

  ghost predicate Named(qs: seq<QueueTree>) {
    forall k :: 0 <= k < |qs| ==> NamedTree(qs[k])
  }

  ghost predicate Partitions(qs: seq<QueueTree>, over: Option<string>) {
    forall k :: 0 <= k < |qs| ==> At(qs[k].queue, over).partition != ""
  }

  /** The Parent of every top-level queue is looked up as parentId. */
  ghost predicate ParentFound(t: seq<QRow>, parentId: Option<Id>, qs: seq<QueueTree>, over: Option<string>) {
    forall k :: 0 <= k < |qs| ==> Lookup(t, qs[k].queue.parent, At(qs[k].queue, over).partition) == Ok(parentId)
  }

  lemma LookupStays(t: seq<QRow>, t': seq<QRow>, name: string, partition: string)
    requires t <= t' && UniqueKeys(t') && Lookup(t, name, partition).Ok?
    ensures Lookup(t', name, partition) == Lookup(t, name, partition)
  {
    if name != "" {
      var i := Find(t, QueueKey(partition, name)).value;
      FindIs(t', QueueKey(partition, name), i);
    }
  }

  lemma ChildrenFindParent(t: seq<QRow>, id: Id, parentId: Option<Id>, qs: seq<QueueTree>, over: Option<string>)
    requires qs != [] && Named(qs)
    requires UniqueKeys(t + [NewRow(id, parentId, At(qs[0].queue, over))])
    ensures var q := At(qs[0].queue, over);
            ParentFound(t + [NewRow(id, parentId, q)], Some(id), qs[0].children, Some(q.partition))
  {
    var q := At(qs[0].queue, over);
    FindIs(t + [NewRow(id, parentId, q)], KeyOf(q), |t|);
  }

  lemma RestFindsParent(t: seq<QRow>, t': seq<QRow>, parentId: Option<Id>, qs: seq<QueueTree>, over: Option<string>)
    requires t <= t' && UniqueKeys(t') && qs != [] && ParentFound(t, parentId, qs, over)
    ensures ParentFound(t', parentId, qs[1..], over)
  {
    forall k | 0 <= k < |qs[1..]|
      ensures Lookup(t', qs[1..][k].queue.parent, At(qs[1..][k].queue, over).partition) == Ok(parentId)
    {
      LookupStays(t, t', qs[k + 1].queue.parent, At(qs[k + 1].queue, over).partition);
    }
  }

  lemma UniquePrefix(a: seq<QRow>, b: seq<QRow>)
    requires UniqueKeys(a + b)
    ensures UniqueKeys(a)
  {
    assert forall i :: 0 <= i < |a| ==> (a + b)[i] == a[i];
  }

  lemma FreshKey(t: seq<QRow>, rows: seq<QRow>, k: nat)
    requires k < |rows| && UniqueKeys(t + rows)
    ensures Find(t + rows[..k], rows[k].key).None?
  {
    forall i | 0 <= i < |t| + k
      ensures (t + rows[..k])[i].key != rows[k].key
    {
      assert (t + rows)[i] == (t + rows[..k])[i] && (t + rows)[|t| + k] == rows[k];
    }
  }

  lemma FirstUpsertAppends(t: seq<QRow>, uuid: Supply, parentId: Option<Id>, q: Queue)
    requires UniqueKeys(t + [NewRow(uuid(|t|), parentId, q)])
    requires Lookup(t, q.parent, q.partition) == Ok(parentId) && q.partition != ""
    ensures Find(t, KeyOf(q)).None?
    ensures UpsertRow(t, uuid, q) == Ok(t + [NewRow(uuid(|t|), parentId, q)])
  {
    var rows := [NewRow(uuid(|t|), parentId, q)];
    assert t + rows[..0] == t;
    FreshKey(t, rows, 0);
  }

  /** UpsertQueues, one row unfolded. */
  lemma UpsertUnfold(t: seq<QRow>, uuid: Supply, q: Queue, rest: seq<Queue>, budget: nat)
    ensures UpsertAll(t, uuid, [q] + rest, budget) ==
            if budget == 0 || UpsertRow(t, uuid, q).Err? then Outcome(t, budget, false)
            else UpsertAll(UpsertRow(t, uuid, q).value, uuid, rest, budget - 1)
  {
    assert ([q] + rest)[1..] == rest;
  }

  lemma SplitUnique(t: seq<QRow>, head: QRow, below: seq<QRow>, after: seq<QRow>)
    requires UniqueKeys(t + ([head] + (below + after)))
    ensures UniqueKeys(t + [head]) && UniqueKeys(t + [head] + below) && UniqueKeys(t + [head] + below + after)
  {
    assert t + ([head] + (below + after)) == t + [head] + below + after;
    UniquePrefix(t + [head] + below, after);
    UniquePrefix(t + [head], below);
  }

  /** UpsertQueues of the flattened hierarchy inserts the same rows in the same order. */
  lemma {:induction false} UpsertIsPreOrderInsertion(t: seq<QRow>, uuid: Supply, parentId: Option<Id>, qs: seq<QueueTree>,
                                                     over: Option<string>, budget: nat)
    requires Named(qs) && Partitions(qs, over) && ParentFound(t, parentId, qs, over)
    requires UniqueKeys(t + Plan(uuid, parentId, qs, over, |t|))
    ensures UpsertAll(t, uuid, Flatten(qs, over), budget) == InsertAll(t, Plan(uuid, parentId, qs, over, |t|), budget)
    decreases qs
  {
    hide Plan;
    hide InsertAll;
    hide UpsertAll;
    hide UpsertRow;
    hide ForestSize;
    hide Lookup;
    hide Find;
    hide UniqueKeys;
    if qs == [] {
      EmptyForest(t, uuid, parentId, over, budget);
    } else {
      var q, kids := At(qs[0].queue, over), qs[0].children;
      var head, below, after := PlanSplit(uuid, parentId, qs, over, |t|);
      SplitUnique(t, head, below, after);
      FirstUpsertAppends(t, uuid, parentId, q);
      var flatKids, flatRest := Flatten(kids, Some(q.partition)), Flatten(qs[1..], over);
      UpsertUnfold(t, uuid, q, flatKids + flatRest, budget);
      if budget == 0 {
        InsertStops(t, [head] + (below + after), budget);
      } else {
        var t1 := t + [head];
        UpsertAllAppend(t1, uuid, flatKids, flatRest, budget - 1);
        InsertSplit(t, head, below, after, budget);
        ChildrenFindParent(t, uuid(|t|), parentId, qs, over);
        UpsertIsPreOrderInsertion(t1, uuid, Some(uuid(|t|)), kids, Some(q.partition), budget - 1);
        if InsertAll(t1, below, budget - 1).ok {
          RestFindsParent(t, t1 + below, parentId, qs, over);
          assert |t1 + below| == |t| + 1 + ForestSize(kids);
          UpsertIsPreOrderInsertion(t1 + below, uuid, parentId, qs[1..], over, budget - 1 - |below|);
        }
      }
    }
  }

  /** The top-level queues name no parent and have a partition. */
  ghost predicate Roots(qs: seq<QueueTree>) {
    Partitions(qs, None) && forall k :: 0 <= k < |qs| ==> qs[k].queue.parent == ""
  }

  /** A hierarchy of root queues as the scheduler reports it. */
  ghost predicate Rooted(qs: seq<QueueTree>) {
    Named(qs) && Roots(qs)
  }

  lemma {:induction false} PlanPartitions(uuid: Supply, parentId: Option<Id>, qs: seq<QueueTree>, over: Option<string>, base: nat)
    requires Partitions(qs, over)
    ensures forall r :: r in Plan(uuid, parentId, qs, over, base) ==> r.key.partition != ""
    decreases qs
  {
    hide Plan;
    if qs == [] {
      EmptyForest([], uuid, parentId, over, 0);
      assert Plan(uuid, parentId, qs, over, base) == [];
    } else {
      var head, below, after := PlanSplit(uuid, parentId, qs, over, base);
      PlanPartitions(uuid, Some(uuid(base)), qs[0].children, Some(At(qs[0].queue, over).partition), base + 1);
      PlanPartitions(uuid, parentId, qs[1..], over, base + 1 + ForestSize(qs[0].children));
    }
  }

  /**
   The two writers agree: for a reported hierarchy whose keys are distinct and absent from the
   table, AddQueues(nil, F) and UpsertQueues(flattenQueues(F)) leave the same rows in the same
   order with the same links, wherever the database breaks off; given enough budget both succeed.
   */
  lemma TwoWritersAgree(t: seq<QRow>, uuid: Supply, qs: seq<QueueTree>, budget: nat)
    requires Rooted(qs) && UniqueKeys(t + Plan(uuid, None, qs, None, |t|))
    ensures AddForest(t, uuid, None, qs, None, budget) == UpsertAll(t, uuid, Flatten(qs, None), budget)
    ensures ForestSize(qs) <= budget ==>
              AddForest(t, uuid, None, qs, None, budget) ==
              Outcome(t + Plan(uuid, None, qs, None, |t|), budget - ForestSize(qs), true)
  {
    hide Plan;
    hide InsertAll;
    hide AddForest;
    hide UpsertAll;
    hide Flatten;
    AddIsPreOrderInsertion(t, uuid, None, qs, None, budget);
    UpsertIsPreOrderInsertion(t, uuid, None, qs, None, budget);
    if ForestSize(qs) <= budget {
      AddInsertsPlan(t, uuid, qs, budget);
    }
  }

  /** New roots with their own partitions are all inserted. */
  lemma AddInsertsPlan(t: seq<QRow>, uuid: Supply, qs: seq<QueueTree>, budget: nat)
    requires Roots(qs) && UniqueKeys(t + Plan(uuid, None, qs, None, |t|)) && ForestSize(qs) <= budget
    ensures AddForest(t, uuid, None, qs, None, budget) ==
            Outcome(t + Plan(uuid, None, qs, None, |t|), budget - ForestSize(qs), true)
  {
    hide Plan;
    hide InsertAll;
    hide AddForest;
    var rows := Plan(uuid, None, qs, None, |t|);
    AddIsPreOrderInsertion(t, uuid, None, qs, None, budget);
    var k := InsertAllIsPrefix(t, rows, budget);
    PlanPartitions(uuid, None, qs, None, |t|);
    if k < |rows| {
      FreshKey(t, rows, k);
      assert false;
    }
  }

  // ----- the same rows up to generated ids -----

  /** Two links name the row of the same insertion rank, or none. */
  ghost predicate SameLink(u1: Supply, u2: Supply, p1: Option<Id>, p2: Option<Id>) {
    (p1.None? && p2.None?) || exists j: nat :: p1 == Some(u1(j)) && p2 == Some(u2(j))
  }

  /** Two rows of insertion rank i agree in everything but the ids. */
  ghost predicate SameRow(u1: Supply, u2: Supply, i: nat, a: QRow, b: QRow) {
    && a.key == b.key && a.cols == b.cols
    && a.fixed.id == u1(i) && b.fixed.id == u2(i) && SameLink(u1, u2, a.fixed.parentId, b.fixed.parentId)
    && a.fixed.(id := "", parentId := None) == b.fixed.(id := "", parentId := None)
  }

  lemma {:induction false} PlanUpToIds(u1: Supply, u2: Supply, p1: Option<Id>, p2: Option<Id>, qs: seq<QueueTree>,
                                       over: Option<string>, base: nat)
    requires SameLink(u1, u2, p1, p2)
    ensures forall i :: 0 <= i < ForestSize(qs) ==>
              SameRow(u1, u2, base + i, Plan(u1, p1, qs, over, base)[i], Plan(u2, p2, qs, over, base)[i])
    decreases qs
  {
    hide Plan;
    hide SameRow;
    if qs != [] {
      var q, n := At(qs[0].queue, over), ForestSize(qs[0].children);
      var h1, b1, a1 := PlanSplit(u1, p1, qs, over, base);
      var h2, b2, a2 := PlanSplit(u2, p2, qs, over, base);
      PlanUpToIds(u1, u2, Some(u1(base)), Some(u2(base)), qs[0].children, Some(q.partition), base + 1);
      PlanUpToIds(u1, u2, p1, p2, qs[1..], over, base + 1 + n);
      HeadUpToIds(u1, u2, p1, p2, q, base);
      var all1, all2 := [h1] + (b1 + a1), [h2] + (b2 + a2);
      forall i | 0 <= i < ForestSize(qs) ensures SameRow(u1, u2, base + i, all1[i], all2[i]) {
        if 0 < i <= n {
          assert all1[i] == b1[i - 1] && all2[i] == b2[i - 1];
          assert SameRow(u1, u2, base + 1 + (i - 1), b1[i - 1], b2[i - 1]);
        } else if i > n {
          var k := i - 1 - n;
          assert all1[i] == a1[k] && all2[i] == a2[k];
          assert SameRow(u1, u2, base + 1 + n + k, a1[k], a2[k]);
        }
      }
    }
  }

  lemma HeadUpToIds(u1: Supply, u2: Supply, p1: Option<Id>, p2: Option<Id>, q: Queue, base: nat)
    requires SameLink(u1, u2, p1, p2)
    ensures SameRow(u1, u2, base, NewRow(u1(base), p1, q), NewRow(u2(base), p2, q))
  {
  }

  /**
   The two writers, handed whatever ids, insert the same rows up to ids: same columns, same order,
   and links to rows of the same rank.
   */
  lemma TwoWritersAgreeUpToIds(t: seq<QRow>, u1: Supply, u2: Supply, qs: seq<QueueTree>, budget: nat)
    requires Rooted(qs) && ForestSize(qs) <= budget
    requires UniqueKeys(t + Plan(u1, None, qs, None, |t|))
    ensures var added := AddForest(t, u1, None, qs, None, budget);
            var upserted := UpsertAll(t, u2, Flatten(qs, None), budget);
            && added.ok && upserted.ok && t <= added.table && t <= upserted.table
            && |added.table| == |upserted.table| == |t| + ForestSize(qs)
            && forall i :: |t| <= i < |added.table| ==> SameRow(u1, u2, i, added.table[i], upserted.table[i])
  {
    hide Plan;
    hide AddForest;
    hide UpsertAll;
    hide Flatten;
    hide Rooted;
    hide SameRow;
    var rows1, rows2 := Plan(u1, None, qs, None, |t|), Plan(u2, None, qs, None, |t|);
    PlanUpToIds(u1, u2, None, None, qs, None, |t|);
    SameKeysUnique(t, u1, u2, rows1, rows2);
    TwoWritersAgree(t, u1, qs, budget);
    TwoWritersAgree(t, u2, qs, budget);
    forall i | |t| <= i < |t| + ForestSize(qs) ensures SameRow(u1, u2, i, (t + rows1)[i], (t + rows2)[i]) {
      assert (t + rows1)[i] == rows1[i - |t|] && (t + rows2)[i] == rows2[i - |t|];
      assert SameRow(u1, u2, |t| + (i - |t|), rows1[i - |t|], rows2[i - |t|]);
    }
  }

  lemma SameKeysUnique(t: seq<QRow>, u1: Supply, u2: Supply, a: seq<QRow>, b: seq<QRow>)
    requires |a| == |b| && forall i :: 0 <= i < |a| ==> SameRow(u1, u2, |t| + i, a[i], b[i])
    requires UniqueKeys(t + a)
    ensures UniqueKeys(t + b)
  {
    forall i | 0 <= i < |t + b| ensures (t + b)[i].key == (t + a)[i].key {
      if i >= |t| {
        assert SameRow(u1, u2, |t| + (i - |t|), a[i - |t|], b[i - |t|]);
      }
    }
  }

  // ----- parents without a name -----

  /** Each child's Parent is the name of the queue it sits under, empty or not. */
  ghost predicate MatchedTree(q: QueueTree) {
    && (forall c :: 0 <= c < |q.children| ==> q.children[c].queue.parent == q.queue.name)
    && Matched(q.children)
  }

  ghost predicate Matched(qs: seq<QueueTree>) {
    forall k :: 0 <= k < |qs| ==> MatchedTree(qs[k])
  }

  /** A row without a Parent has no link. */
  ghost predicate NullLink(r: QRow) {
    r.fixed.parent == "" ==> r.fixed.parentId == None
  }

  lemma UpsertRowLinks(t: seq<QRow>, uuid: Supply, q: Queue)
    requires UpsertRow(t, uuid, q).Ok?
    ensures var t' := UpsertRow(t, uuid, q).value;
            && |t| <= |t'| && (forall i :: 0 <= i < |t| ==> t'[i].fixed == t[i].fixed)
            && (forall i :: |t| <= i < |t'| ==> NullLink(t'[i]))
  {
  }

  /** UpsertQueues leaves stored rows' fixed columns alone and never links a new row that names no parent. */
  lemma {:induction false} UpsertLinksOnlyNamed(t: seq<QRow>, uuid: Supply, qs: seq<Queue>, budget: nat)
    ensures var t' := UpsertAll(t, uuid, qs, budget).table;
            && |t| <= |t'| && (forall i :: 0 <= i < |t| ==> t'[i].fixed == t[i].fixed)
            && (forall i :: |t| <= i < |t'| ==> NullLink(t'[i]))
    decreases qs
  {
    hide UpsertRow;
    if qs != [] && budget > 0 && UpsertRow(t, uuid, qs[0]).Ok? {
      UpsertRowLinks(t, uuid, qs[0]);
      UpsertLinksOnlyNamed(UpsertRow(t, uuid, qs[0]).value, uuid, qs[1..], budget - 1);
    }
  }

  lemma NamedSplit(qs: seq<QueueTree>)
    requires Matched(qs)
    ensures qs == [] ==> Named(qs)
    ensures qs != [] ==>
              && Matched(qs[0].children) && Matched(qs[1..])
              && (qs[0].children != [] ==> qs[0].children[0].queue.parent == qs[0].queue.name)
              && (Named(qs) <==> (qs[0].children == [] || qs[0].queue.name != "") && Named(qs[0].children) && Named(qs[1..]))
  {
    if qs != [] {
      assert MatchedTree(qs[0]);
      assert forall k :: 0 < k < |qs| ==> qs[k] == qs[1..][k - 1];
      assert forall k :: 0 <= k < |qs[1..]| ==> qs[1..][k] == qs[k + 1];
      assert NamedTree(qs[0]) <==> (qs[0].children == [] || qs[0].queue.name != "") && Named(qs[0].children) by {
        if NamedTree(qs[0]) && qs[0].children != [] {
          assert qs[0].children[0].queue.parent == qs[0].queue.name;
        }
      }
      assert Named(qs) <==> NamedTree(qs[0]) && Named(qs[1..]);
    }
  }

  /** A queue without a name that has children puts a linked row that names no parent in the plan. */
  lemma {:induction false} UnnamedParentLinks(uuid: Supply, parentId: Option<Id>, qs: seq<QueueTree>, over: Option<string>,
                                              base: nat)
    requires Matched(qs) && !Named(qs)
    ensures exists r :: r in Plan(uuid, parentId, qs, over, base) && !NullLink(r)
    decreases qs
  {
    hide Plan;
    hide Matched;
    hide Named;
    NamedSplit(qs);
    var kids, part := qs[0].children, Some(At(qs[0].queue, over).partition);
    var head, below, after := PlanSplit(uuid, parentId, qs, over, base);
    if kids != [] && qs[0].queue.name == "" {
      var first, _, _ := PlanSplit(uuid, Some(uuid(base)), kids, part, base + 1);
      assert first in below && !NullLink(first);
    } else if !Named(kids) {
      UnnamedParentLinks(uuid, Some(uuid(base)), kids, part, base + 1);
    } else {
      UnnamedParentLinks(uuid, parentId, qs[1..], over, base + 1 + ForestSize(kids));
    }
  }

  /**
   For new keys and matching Parent fields the two writers have the same outcome exactly when every
   queue that has children has a name.
   */
  lemma TwoWritersAgreeExactly(t: seq<QRow>, uuid: Supply, qs: seq<QueueTree>, budget: nat)
    requires Roots(qs) && Matched(qs) && ForestSize(qs) <= budget
    requires UniqueKeys(t + Plan(uuid, None, qs, None, |t|))
    ensures AddForest(t, uuid, None, qs, None, budget) == UpsertAll(t, uuid, Flatten(qs, None), budget) <==> Named(qs)
  {
    hide Plan;
    hide AddForest;
    hide UpsertAll;
    hide Flatten;
    hide Matched;
    hide Named;
    if Named(qs) {
      TwoWritersAgree(t, uuid, qs, budget);
    } else {
      var rows, upserted := Plan(uuid, None, qs, None, |t|), UpsertAll(t, uuid, Flatten(qs, None), budget).table;
      AddInsertsPlan(t, uuid, qs, budget);
      UpsertLinksOnlyNamed(t, uuid, Flatten(qs, None), budget);
      UnnamedParentLinks(uuid, None, qs, None, |t|);
      var k :| 0 <= k < |rows| && !NullLink(rows[k]);
      assert (t + rows)[|t| + k] == rows[k];
    }
  }

  /** A queue with an empty name cannot be named as a parent: the upsert leaves its child a root, AddQueues nests it. */
  lemma NamelessParentDiffers(uuid: Supply, q: Queue, c: Queue)
    requires q.name == "" && q.parent == "" && q.partition != "" && c.parent == "" && c.name != ""
    ensures var f := [QueueTree(q, [QueueTree(c, [])])];
            var added, upserted := AddForest([], uuid, None, f, None, 2), UpsertAll([], uuid, Flatten(f, None), 2);
            && added.ok && upserted.ok && |added.table| == |upserted.table| == 2
            && added.table[1].fixed.parentId == Some(uuid(0)) && upserted.table[1].fixed.parentId == None
  {
    var child := QueueTree(c, []);
    var f := [QueueTree(q, [child])];
    var c' := c.(partition := q.partition);
    var first := NewRow(uuid(0), None, q);
    assert f[1..] == [] && [child][1..] == [] && [] + [first] == [first];
    AddUnfold([], uuid, None, f, None, 2);
    AddUnfold([first], uuid, Some(uuid(0)), [child], Some(q.partition), 1);
    assert Flatten([child], Some(q.partition)) == [c'];
    assert Flatten(f, None) == [q] + [c'];
    UpsertUnfold([], uuid, q, [c'], 2);
    assert [c'] == [c'] + [];
    UpsertUnfold([first], uuid, c', [], 1);
  }

  // ----- the parent that sticks -----

  lemma {:induction false} AddedSize(t: seq<QRow>, uuid: Supply, parentId: Option<Id>, qs: seq<QueueTree>,
                                     over: Option<string>, budget: nat)
    requires AddForest(t, uuid, parentId, qs, over, budget).ok
    ensures |AddForest(t, uuid, parentId, qs, over, budget).table| == |t| + ForestSize(qs)
    decreases qs
  {
    hide AddForest;
    if qs == [] {
      NothingToAdd(t, uuid, parentId, over, budget);
    } else {
      AddUnfold(t, uuid, parentId, qs, over, budget);
      var q := At(qs[0].queue, over);
      var p := Resolve(t, parentId, q).value;
      var t1 := t + [NewRow(uuid(|t|), p, q)];
      var kids := AddForest(t1, uuid, Some(uuid(|t|)), qs[0].children, Some(q.partition), budget - 1);
      AddedSize(t1, uuid, Some(uuid(|t|)), qs[0].children, Some(q.partition), budget - 1);
      AddedSize(kids.table, uuid, p, qs[1..], over, kids.budget);
    }
  }

  /** From row `base` of the table on, each top-level queue is linked to the queue its own Parent names. */
  ghost predicate LinkedAsNamed(t: seq<QRow>, base: nat, qs: seq<QueueTree>)
    requires base + ForestSize(qs) <= |t|
    decreases qs
  {
    qs == [] ||
    (&& Lookup(t[..base], qs[0].queue.parent, qs[0].queue.partition) == Ok(t[base].fixed.parentId)
     && LinkedAsNamed(t, base + 1 + ForestSize(qs[0].children), qs[1..]))
  }

  /** After a queue that names a parent, all queues of the call name that same parent in that same partition. */
  ghost predicate Steady(qs: seq<QueueTree>) {
    qs == [] ||
    if qs[0].queue.parent == "" then Steady(qs[1..]) else AllUnder(qs[1..], qs[0].queue.parent, qs[0].queue.partition)
  }

  ghost predicate AllUnder(qs: seq<QueueTree>, name: string, partition: string) {
    forall k :: 0 <= k < |qs| ==> qs[k].queue.parent == name && qs[k].queue.partition == partition
  }

  /** What one round of the loop leaves: the queue's row, its descendants, and the table the next round starts from. */
  lemma AddRound(t: seq<QRow>, uuid: Supply, parentId: Option<Id>, qs: seq<QueueTree>, budget: nat)
    returns (t2: seq<QRow>, b2: nat)
    requires Forest(t, uuid) && Injective(uuid) && qs != [] && AddForest(t, uuid, parentId, qs, None, budget).ok
    requires parentId.Some? ==> HasId(t, parentId.value)
    ensures Resolve(t, parentId, qs[0].queue).Ok?
    ensures var p := Resolve(t, parentId, qs[0].queue).value;
            var all := AddForest(t, uuid, parentId, qs, None, budget).table;
            && AddForest(t2, uuid, p, qs[1..], None, b2) == AddForest(t, uuid, parentId, qs, None, budget)
            && |t| + 1 + ForestSize(qs[0].children) == |t2| <= |all| && t <= t2 <= all
            && all[..|t|] == t && all[|t|].fixed.parentId == p && all[|t|].key == KeyOf(qs[0].queue)
            && Forest(t2, uuid)
  {
    hide AddForest;
    var q := qs[0].queue;
    AddUnfold(t, uuid, parentId, qs, None, budget);
    var p := Resolve(t, parentId, q).value;
    var t1 := t + [NewRow(uuid(|t|), p, q)];
    var kids := AddForest(t1, uuid, Some(uuid(|t|)), qs[0].children, Some(q.partition), budget - 1);
    t2, b2 := kids.table, kids.budget;
    AddedSize(t1, uuid, Some(uuid(|t|)), qs[0].children, Some(q.partition), budget - 1);
    AddOnlyAppends(t1, uuid, Some(uuid(|t|)), qs[0].children, Some(q.partition), budget - 1);
    AddOnlyAppends(t2, uuid, p, qs[1..], None, b2);
    ResolvedIsGood(t, uuid, parentId, qs, None);
    AppendKeepsForest(t, uuid, q, p);
    NewParentIsGood(t, uuid, p, q);
    AddKeepsForest(t1, uuid, Some(uuid(|t|)), qs[0].children, Some(q.partition), budget - 1);
    assert t2[|t|] == t1[|t|];
  }

  lemma AddKeepsForest(t: seq<QRow>, uuid: Supply, parentId: Option<Id>, qs: seq<QueueTree>, over: Option<string>, budget: nat)
    requires Forest(t, uuid) && Injective(uuid) && (parentId.Some? ==> HasId(t, parentId.value))
    ensures Forest(AddForest(t, uuid, parentId, qs, over, budget).table, uuid)
  {
    hide AddForest;
    var s, u := Store(t, []), Supplies(uuid, uuid);
    var stmts := AddForestIsRun(s, u, parentId, qs, over, budget);
    RunKeepsForest(s, u, stmts);
  }

  lemma OneNamePerId(t: seq<QRow>, uuid: Supply, a: string, p: string, b: string, q: string)
    requires Forest(t, uuid) && Injective(uuid) && a != "" && Lookup(t, a, p).Ok?
    ensures Lookup(t, b, q) == Lookup(t, a, p) <==> b == a && q == p
  {
    if Lookup(t, b, q) == Lookup(t, a, p) {
      OneRowPerId(t, uuid, Find(t, QueueKey(p, a)).value, Find(t, QueueKey(q, b)).value);
    }
  }

  lemma AllUnderHead(qs: seq<QueueTree>, name: string, partition: string)
    requires qs != []
    ensures AllUnder(qs, name, partition) <==>
            qs[0].queue.parent == name && qs[0].queue.partition == partition && AllUnder(qs[1..], name, partition)
  {
    assert forall k :: 0 < k < |qs| ==> qs[k] == qs[1..][k - 1];
    assert forall k :: 0 <= k < |qs[1..]| ==> qs[1..][k] == qs[k + 1];
  }

  /** A parent id once resolved is given to every later queue, whatever it names. */
  lemma {:induction false} StuckParent(t: seq<QRow>, uuid: Supply, id: Id, qs: seq<QueueTree>, budget: nat,
                                       name: string, partition: string)
    requires Forest(t, uuid) && Injective(uuid) && name != "" && Lookup(t, name, partition) == Ok(Some(id))
    requires AddForest(t, uuid, Some(id), qs, None, budget).ok
    ensures |AddForest(t, uuid, Some(id), qs, None, budget).table| == |t| + ForestSize(qs)
    ensures LinkedAsNamed(AddForest(t, uuid, Some(id), qs, None, budget).table, |t|, qs) <==> AllUnder(qs, name, partition)
    decreases qs
  {
    hide AddForest;
    hide Lookup;
    AddedSize(t, uuid, Some(id), qs, None, budget);
    LookupIsGood(t, uuid, name, partition);
    if qs != [] {
      var t2, b2 := AddRound(t, uuid, Some(id), qs, budget);
      LookupStays(t, t2, name, partition);
      StuckParent(t2, uuid, id, qs[1..], b2, name, partition);
      OneNamePerId(t, uuid, name, partition, qs[0].queue.parent, qs[0].queue.partition);
      AllUnderHead(qs, name, partition);
    }
  }

  /**
   AddQueues(nil, F) links every top-level queue to the queue its Parent names exactly when no
   queue after one with a parent names a different parent.
   */
  lemma {:induction false} ParentSticksExactly(t: seq<QRow>, uuid: Supply, qs: seq<QueueTree>, budget: nat)
    requires Forest(t, uuid) && Injective(uuid) && AddForest(t, uuid, None, qs, None, budget).ok
    ensures |AddForest(t, uuid, None, qs, None, budget).table| == |t| + ForestSize(qs)
    ensures LinkedAsNamed(AddForest(t, uuid, None, qs, None, budget).table, |t|, qs) <==> Steady(qs)
    decreases qs
  {
    hide AddForest;
    AddedSize(t, uuid, None, qs, None, budget);
    if qs != [] {
      var q := qs[0].queue;
      var t2, b2 := AddRound(t, uuid, None, qs, budget);
      if q.parent == "" {
        ParentSticksExactly(t2, uuid, qs[1..], b2);
      } else {
        LookupStays(t, t2, q.parent, q.partition);
        StuckParent(t2, uuid, Lookup(t, q.parent, q.partition).value.value, qs[1..], b2, q.parent, q.partition);
      }
    }
  }

  /** A root queue listed after a queue with a parent ends up under that parent. */
  lemma ParentSticksExample(t: seq<QRow>, uuid: Supply, a: Queue, b: Queue)
    requires Forest(t, uuid) && Injective(uuid) && a.parent != "" && Lookup(t, a.parent, a.partition).Ok?
    requires b.parent == "" && a.partition != "" && b.partition != "" && KeyOf(a) != KeyOf(b)
    requires Find(t, KeyOf(a)).None? && Find(t, KeyOf(b)).None?
    ensures var r := AddForest(t, uuid, None, [QueueTree(a, []), QueueTree(b, [])], None, 2);
            && r.ok && |r.table| == |t| + 2
            && r.table[|t| + 1].key == KeyOf(b)
            && r.table[|t| + 1].fixed.parentId == Lookup(t, a.parent, a.partition).value != None
  {
    var qs := [QueueTree(a, []), QueueTree(b, [])];
    var p := Lookup(t, a.parent, a.partition).value;
    var t1 := t + [NewRow(uuid(|t|), p, a)];
    assert qs[1..] == [QueueTree(b, [])] && qs[1..][1..] == [];
    assert CanInsert(t, None, a, 2) && CanInsert(t1, p, b, 1);
    AddUnfold(t, uuid, None, qs, None, 2);
    AddUnfold(t1, uuid, p, qs[1..], None, 1);
  }

  // ----- parent and child in one partition -----

  /** A stored id lies in exactly one partition. */
  lemma OnePartitionPerId(t: seq<QRow>, uuid: Supply, id: Id, x: string, y: string)
    requires Forest(t, uuid) && Injective(uuid) && HasId(t, id) && InPartition(t, Some(id), x)
    ensures InPartition(t, Some(id), y) <==> x == y
  {
    var j :| 0 <= j < |t| && t[j].fixed.id == id;
    assert t[j].key.partition == x;
  }

  lemma RowInPartition(t: seq<QRow>, all: seq<QRow>, uuid: Supply, p: Option<Id>)
    requires Forest(t, uuid) && Injective(uuid) && |t| < |all| && all[..|t|] == t && SamePartition(all)
    requires p.Some? ==> HasId(t, p.value)
    requires all[|t|].fixed.parentId == p
    ensures InPartition(t, p, all[|t|].key.partition)
  {
    forall j | 0 <= j < |t| && p == Some(t[j].fixed.id) ensures t[j].key.partition == all[|t|].key.partition {
      assert all[j] == t[j];
    }
  }

  /** What a table with parent and child in one partition says about the call that wrote it. */
  lemma {:induction false} WrittenInOnePartition(t: seq<QRow>, uuid: Supply, parentId: Option<Id>, qs: seq<QueueTree>, budget: nat)
    requires Forest(t, uuid) && Injective(uuid) && (parentId.Some? ==> HasId(t, parentId.value))
    requires AddForest(t, uuid, parentId, qs, None, budget).ok
    requires SamePartition(AddForest(t, uuid, parentId, qs, None, budget).table)
    ensures OnePartition(t, parentId, qs, None)
    decreases qs
  {
    hide AddForest;
    hide SamePartition;
    hide InPartition;
    hide Lookup;
    if qs != [] {
      var q := qs[0].queue;
      var t2, b2 := AddRound(t, uuid, parentId, qs, budget);
      var p := Resolve(t, parentId, q).value;
      ResolvedIsGood(t, uuid, parentId, qs, None);
      GoodParentStays(t, t2, uuid, p);
      NoLinkExactly(t, parentId, q);
      WrittenInOnePartition(t2, uuid, p, qs[1..], b2);
      RowInPartition(t, AddForest(t, uuid, parentId, qs, None, budget).table, uuid, p);
      if p.Some? {
        forall k | 0 < k < |qs| ensures qs[k].queue.partition == q.partition {
          assert qs[1..][k - 1] == qs[k];
          assert At(qs[1..][k - 1].queue, None) == qs[k].queue;
          OnePartitionPerId(t2, uuid, p.value, q.partition, qs[k].queue.partition);
        }
      }
    }
  }

  /** A queue gets no link exactly if no parent is in force and it names none. */
  lemma NoLinkExactly(t: seq<QRow>, parentId: Option<Id>, q: Queue)
    requires Resolve(t, parentId, q).Ok?
    ensures Resolve(t, parentId, q).value.None? <==> parentId.None? && q.parent == ""
  {
  }

  /**
   A successful AddQueues keeps parent and child in one partition exactly when its queues lie in the partition of
   the explicit parent, or, without one, when all queues from the first that names a parent on share its partition.
   */
  lemma AddKeepsPartitionsExactly(t: seq<QRow>, uuid: Supply, parentId: Option<Id>, qs: seq<QueueTree>, budget: nat)
    requires Forest(t, uuid) && Injective(uuid) && SamePartition(t) && (parentId.Some? ==> HasId(t, parentId.value))
    requires AddForest(t, uuid, parentId, qs, None, budget).ok
    ensures SamePartition(AddForest(t, uuid, parentId, qs, None, budget).table) <==> OnePartition(t, parentId, qs, None)
  {
    hide AddForest;
    if OnePartition(t, parentId, qs, None) {
      var s, u := Store(t, []), Supplies(uuid, uuid);
      var stmts := AddForestIsRun(s, u, parentId, qs, None, budget);
      RunsKeepPartitions(s, u, stmts);
    } else if SamePartition(AddForest(t, uuid, parentId, qs, None, budget).table) {
      WrittenInOnePartition(t, uuid, parentId, qs, budget);
    }
  }

  /** A root of one partition listed after a queue with a parent in another is put under that parent. */
  lemma PartitionsMixExample(t: seq<QRow>, uuid: Supply, a: Queue, b: Queue)
    requires Forest(t, uuid) && Injective(uuid) && a.parent != "" && Lookup(t, a.parent, a.partition).Ok?
    requires b.parent == "" && a.partition != "" && b.partition != "" && a.partition != b.partition
    requires Find(t, KeyOf(a)).None? && Find(t, KeyOf(b)).None?
    ensures var r := AddForest(t, uuid, None, [QueueTree(a, []), QueueTree(b, [])], None, 2);
            r.ok && !SamePartition(r.table)
  {
    hide AddForest;
    var r := AddForest(t, uuid, None, [QueueTree(a, []), QueueTree(b, [])], None, 2);
    ParentSticksExample(t, uuid, a, b);
    AddOnlyAppends(t, uuid, None, [QueueTree(a, []), QueueTree(b, [])], None, 2);
    var j := Find(t, QueueKey(a.partition, a.parent)).value;
    assert r.table[j] == t[j] && r.table[|t| + 1].fixed.parentId == Some(r.table[j].fixed.id);
  }
}
