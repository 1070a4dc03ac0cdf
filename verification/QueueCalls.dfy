/**
 Whole calls of the queue and application writers, each of which may break off anywhere:
 a call is a run of single statements, so what every run keeps, every sequence of calls keeps.
 */
module QueueCalls {
  import opened Options
  import opened UpsertTable
  import opened QueueModel
  import opened AppModel
  import opened StoreRuns

  // ----- ids name one row -----

  lemma OneRowPerId(t: seq<QRow>, uuid: Supply, i: nat, j: nat)
    requires Forest(t, uuid) && Injective(uuid) && i < |t| && j < |t| && t[i].fixed.id == t[j].fixed.id
    ensures i == j
  {
    assert uuid(i) == uuid(j);
  }

  /** A successful lookup names a stored live row of the given partition. */
  lemma LookupIsGood(t: seq<QRow>, uuid: Supply, name: string, partition: string)
    requires Forest(t, uuid) && Injective(uuid) && Lookup(t, name, partition).Ok?
    ensures var p := Lookup(t, name, partition).value;
            (p.Some? ==> HasId(t, p.value)) && Live(t, p) && InPartition(t, p, partition)
  {
    var p := Lookup(t, name, partition).value;
    if p.Some? {
      var i := Find(t, QueueKey(partition, name)).value;
      forall j | 0 <= j < |t| && p == Some(t[j].fixed.id)
        ensures j == i
      {
        OneRowPerId(t, uuid, i, j);
      }
    }
  }

  /** Appending rows changes neither the row an id names nor its liveness and partition. */
  lemma GoodParentStays(t: seq<QRow>, t': seq<QRow>, uuid: Supply, p: Option<Id>)
    requires Forest(t, uuid) && Forest(t', uuid) && Injective(uuid) && t <= t'
    requires p.Some? ==> HasId(t, p.value)
    ensures p.Some? ==> HasId(t', p.value)
    ensures Live(t, p) ==> Live(t', p)
    ensures forall x :: InPartition(t, p, x) ==> InPartition(t', p, x)
  {
    if p.Some? {
      var i :| 0 <= i < |t| && t[i].fixed.id == p.value;
      assert t'[i] == t[i];
      forall j | 0 <= j < |t'| && p == Some(t'[j].fixed.id)
        ensures j == i
      {
        OneRowPerId(t', uuid, i, j);
      }
    }
  }

  // ----- UpsertQueues and UpsertApplications -----

  ghost predicate Good(s: Store, stmt: Stmt) {
    Local(s, stmt) && Careful(s, stmt)
  }

  lemma {:induction false} UpsertAllIsRun(s: Store, u: Supplies, qs: seq<Queue>, budget: nat) returns (stmts: seq<Stmt>)
    requires Forest(s.queues, u.queue) && Injective(u.queue)
    ensures Run(s, u, stmts) == s.(queues := UpsertAll(s.queues, u.queue, qs, budget).table)
    ensures Along(Good, s, u, stmts)
    decreases qs
  {
    if qs == [] || budget == 0 || UpsertRow(s.queues, u.queue, qs[0]).Err? {
      stmts := [];
    } else {
      var first := UpsertQueue(qs[0], Lookup(s.queues, qs[0].parent, qs[0].partition).value);
      LookupIsGood(s.queues, u.queue, qs[0].parent, qs[0].partition);
      ExecKeepsForest(s, u, first);
      var rest := UpsertAllIsRun(Exec(s, u, first), u, qs[1..], budget - 1);
      stmts := [first] + rest;
      assert stmts[1..] == rest;
    }
  }

  lemma {:induction false} UpsertAppsIsRun(s: Store, u: Supplies, apps: seq<App>, budget: nat) returns (stmts: seq<Stmt>)
    requires Forest(s.queues, u.queue)
    ensures Run(s, u, stmts) == s.(apps := UpsertApps(s.apps, s.queues, u.app, apps, budget).table)
    ensures Along(Good, s, u, stmts)
    decreases apps
  {
    if apps == [] || budget == 0 || AppRow(s.apps, s.queues, u.app, apps[0]).Err? {
      stmts := [];
    } else {
      var id := Lookup(s.queues, apps[0].queueName, apps[0].partition).value;
      var first := UpsertApp(apps[0], id);
      assert Good(s, first);
      var rest := UpsertAppsIsRun(Exec(s, u, first), u, apps[1..], budget - 1);
      stmts := [first] + rest;
      assert stmts[1..] == rest;
    }
  }

  lemma {:induction false} GoodRun(s: Store, u: Supplies, stmts: seq<Stmt>)
    requires Along(Good, s, u, stmts)
    ensures Along(Sound, s, u, stmts) && Along(Local, s, u, stmts) && Along(Careful, s, u, stmts)
    decreases stmts
  {
    if stmts != [] {
      GoodRun(Exec(s, u, stmts[0]), u, stmts[1..]);
    }
  }

  // ----- AddQueues -----

  /** One round of AddQueues: the queue's row, then the calls below and after it; or nothing. */
  lemma AddUnfold(t: seq<QRow>, uuid: Supply, parentId: Option<Id>, qs: seq<QueueTree>, over: Option<string>, budget: nat)
    requires qs != []
    ensures var q := At(qs[0].queue, over);
            if CanInsert(t, parentId, q, budget) then
              var p := Resolve(t, parentId, q).value;
              var kids := AddForest(t + [NewRow(uuid(|t|), p, q)], uuid, Some(uuid(|t|)), qs[0].children, Some(q.partition), budget - 1);
              AddForest(t, uuid, parentId, qs, over, budget) ==
              if kids.ok then AddForest(kids.table, uuid, p, qs[1..], over, kids.budget) else kids
            else AddForest(t, uuid, parentId, qs, over, budget) == Outcome(t, budget, false)
  {
  }

  /** An empty list writes nothing. */
  lemma NothingToAdd(t: seq<QRow>, uuid: Supply, parentId: Option<Id>, over: Option<string>, budget: nat)
    ensures AddForest(t, uuid, parentId, [], over, budget) == Outcome(t, budget, true)
  {
  }

  lemma {:induction false} AddOnlyAppends(t: seq<QRow>, uuid: Supply, parentId: Option<Id>, qs: seq<QueueTree>,
                                          over: Option<string>, budget: nat)
    ensures t <= AddForest(t, uuid, parentId, qs, over, budget).table
    decreases qs
  {
    if qs != [] {
      var q := At(qs[0].queue, over);
      if CanInsert(t, parentId, q, budget) {
        var p := Resolve(t, parentId, q).value;
        var t1 := t + [NewRow(uuid(|t|), p, q)];
        AddOnlyAppends(t1, uuid, Some(uuid(|t|)), qs[0].children, Some(q.partition), budget - 1);
        var kids := AddForest(t1, uuid, Some(uuid(|t|)), qs[0].children, Some(q.partition), budget - 1);
        if kids.ok {
          AddOnlyAppends(kids.table, uuid, p, qs[1..], over, kids.budget);
        }
      }
    }
  }

  /** The queues of a call lie in the partition of the parent they are put under. */
  ghost predicate OnePartition(t: seq<QRow>, parentId: Option<Id>, qs: seq<QueueTree>, over: Option<string>) {
    if parentId.Some? then forall k :: 0 <= k < |qs| ==> InPartition(t, parentId, At(qs[k].queue, over).partition)
    else SteadyPartition(qs, over)
  }

  /** From the first queue that names a parent on, all queues have the partition of that queue. */
  ghost predicate SteadyPartition(qs: seq<QueueTree>, over: Option<string>) {
    qs == [] ||
    if qs[0].queue.parent == "" then SteadyPartition(qs[1..], over)
    else forall k :: 0 < k < |qs| ==> At(qs[k].queue, over).partition == At(qs[0].queue, over).partition
  }

  lemma {:induction false} AddForestIsRun(s: Store, u: Supplies, parentId: Option<Id>, qs: seq<QueueTree>,
                                          over: Option<string>, budget: nat)
    returns (stmts: seq<Stmt>)
    requires Forest(s.queues, u.queue) && Injective(u.queue)
    requires parentId.Some? ==> HasId(s.queues, parentId.value)
    ensures Run(s, u, stmts) == s.(queues := AddForest(s.queues, u.queue, parentId, qs, over, budget).table)
    ensures Along(Sound, s, u, stmts)
    ensures Live(s.queues, parentId) ==> Along(Careful, s, u, stmts)
    ensures OnePartition(s.queues, parentId, qs, over) ==> Along(Local, s, u, stmts)
    decreases qs
  {
    hide AddForest;
    hide Lookup;
    hide Find;
    stmts := [];
    if qs == [] {
      NothingToAdd(s.queues, u.queue, parentId, over, budget);
    } else {
      AddUnfold(s.queues, u.queue, parentId, qs, over, budget);
    }
    if qs != [] && CanInsert(s.queues, parentId, At(qs[0].queue, over), budget) {
      var t, q, id := s.queues, At(qs[0].queue, over), u.queue(|s.queues|);
      var p := Resolve(t, parentId, q).value;
      ResolvedIsGood(t, u.queue, parentId, qs, over);
      var s1 := Exec(s, u, InsertQueue(q, p));
      assert s1 == s.(queues := t + [NewRow(id, p, q)]);
      ExecKeepsForest(s, u, InsertQueue(q, p));
      NewParentIsGood(t, u.queue, p, q);
      var below := AddForestIsRun(s1, u, Some(id), qs[0].children, Some(q.partition), budget - 1);
      stmts := [InsertQueue(q, p)] + below;
      assert stmts[1..] == below;
      var kids := AddForest(s1.queues, u.queue, Some(id), qs[0].children, Some(q.partition), budget - 1);
      if kids.ok {
        var s2 := Run(s, u, stmts);
        AddOnlyAppends(s1.queues, u.queue, Some(id), qs[0].children, Some(q.partition), budget - 1);
        RunKeepsForest(s1, u, below);
        GoodParentStays(t, s2.queues, u.queue, p);
        var after := AddForestIsRun(s2, u, p, qs[1..], over, kids.budget);
        RunAppend(s, u, stmts, after);
        AppendRuns(s, u, stmts, after);
        stmts := stmts + after;
      }
    }
  }

  lemma AppendRuns(s: Store, u: Supplies, a: seq<Stmt>, b: seq<Stmt>)
    ensures Along(Sound, s, u, a) && Along(Sound, Run(s, u, a), u, b) ==> Along(Sound, s, u, a + b)
    ensures Along(Local, s, u, a) && Along(Local, Run(s, u, a), u, b) ==> Along(Local, s, u, a + b)
    ensures Along(Careful, s, u, a) && Along(Careful, Run(s, u, a), u, b) ==> Along(Careful, s, u, a + b)
  {
    if Along(Sound, s, u, a) && Along(Sound, Run(s, u, a), u, b) {
      AlongAppend(Sound, s, u, a, b);
    }
    if Along(Local, s, u, a) && Along(Local, Run(s, u, a), u, b) {
      AlongAppend(Local, s, u, a, b);
    }
    if Along(Careful, s, u, a) && Along(Careful, Run(s, u, a), u, b) {
      AlongAppend(Careful, s, u, a, b);
    }
  }

  /** The parent in force for the first queue is stored, live and local, and stays so for the queues after it. */
  lemma ResolvedIsGood(t: seq<QRow>, uuid: Supply, parentId: Option<Id>, qs: seq<QueueTree>, over: Option<string>)
    requires Forest(t, uuid) && Injective(uuid) && qs != [] && Resolve(t, parentId, At(qs[0].queue, over)).Ok?
    requires parentId.Some? ==> HasId(t, parentId.value)
    ensures var q := At(qs[0].queue, over);
            var p := Resolve(t, parentId, q).value;
            && (p.Some? ==> HasId(t, p.value))
            && (Live(t, parentId) ==> Live(t, p))
            && (OnePartition(t, parentId, qs, over) ==> InPartition(t, p, q.partition) && OnePartition(t, p, qs[1..], over))
  {
    if parentId.None? {
      LookupIsGood(t, uuid, qs[0].queue.parent, At(qs[0].queue, over).partition);
    }
  }

  lemma NewParentIsGood(t: seq<QRow>, uuid: Supply, p: Option<Id>, q: Queue)
    requires Forest(t, uuid) && Injective(uuid) && Forest(t + [NewRow(uuid(|t|), p, q)], uuid)
    ensures var t1 := t + [NewRow(uuid(|t|), p, q)];
            HasId(t1, uuid(|t|)) && Live(t1, Some(uuid(|t|))) && InPartition(t1, Some(uuid(|t|)), q.partition)
  {
    var t1 := t + [NewRow(uuid(|t|), p, q)];
    assert t1[|t|].fixed.id == uuid(|t|);
    forall j | 0 <= j < |t1| && uuid(|t|) == t1[j].fixed.id
      ensures j == |t|
    {
      assert t1[j].fixed.id == uuid(j);
    }
  }

  lemma {:induction false} RunKeepsForest(s: Store, u: Supplies, stmts: seq<Stmt>)
    requires Forest(s.queues, u.queue) && Along(Sound, s, u, stmts)
    ensures Forest(Run(s, u, stmts).queues, u.queue)
    decreases stmts
  {
    if stmts != [] {
      ExecKeepsForest(s, u, stmts[0]);
      RunKeepsForest(Exec(s, u, stmts[0]), u, stmts[1..]);
    }
  }

  // ----- DeleteQueues -----

  function PostOrder(f: seq<Tree>): seq<Id> {
    if f == [] then [] else PostOrder(f[0].children) + [f[0].row.fixed.id] + PostOrder(f[1..])
  }

  function MarkAll(t: seq<QRow>, ids: seq<Id>): seq<QRow>
    decreases ids
  {
    if ids == [] then t else MarkAll(Mark(t, ids[0]), ids[1..])
  }

  lemma {:induction false} MarkAllAppend(t: seq<QRow>, a: seq<Id>, b: seq<Id>)
    ensures MarkAll(t, a + b) == MarkAll(MarkAll(t, a), b)
    decreases a
  {
    if a == [] {
      assert a + b == b;
    } else {
      assert (a + b)[0] == a[0] && (a + b)[1..] == a[1..] + b;
      MarkAllAppend(Mark(t, a[0]), a[1..], b);
    }
  }

  lemma {:induction false} MarkAllRows(t: seq<QRow>, ids: seq<Id>)
    ensures |MarkAll(t, ids)| == |t|
    ensures forall i :: 0 <= i < |t| ==>
              (MarkAll(t, ids)[i] == if t[i].fixed.id in ids then t[i].(fixed := t[i].fixed.(deleted := true)) else t[i])
    decreases ids
  {
    if ids != [] {
      MarkAllRows(Mark(t, ids[0]), ids[1..]);
      assert forall i :: 0 <= i < |t| ==> Mark(t, ids[0])[i] == MarkRow(t[i], ids[0]);
    }
  }

  function Taken(ids: seq<Id>, budget: nat): seq<Id> {
    if budget < |ids| then ids[..budget] else ids
  }

  /** DeleteQueues marks exactly the first `budget` ids of the post-order, and fails iff there were more. */
  lemma {:induction false} DeleteIsPostOrderPrefix(t: seq<QRow>, f: seq<Tree>, budget: nat)
    ensures var r := DeleteForest(t, f, budget);
            && r.table == MarkAll(t, Taken(PostOrder(f), budget))
            && r.ok == (|PostOrder(f)| <= budget)
            && (r.ok ==> r.budget == budget - |PostOrder(f)|)
    decreases f
  {
    if f != [] {
      var below, id, rest := PostOrder(f[0].children), f[0].row.fixed.id, PostOrder(f[1..]);
      DeleteIsPostOrderPrefix(t, f[0].children, budget);
      var kids := DeleteForest(t, f[0].children, budget);
      if kids.ok && kids.budget > 0 {
        var left := kids.budget - 1;
        DeleteIsPostOrderPrefix(Mark(kids.table, id), f[1..], left);
        MarkAllAppend(t, below, [id]);
        assert MarkAll(kids.table, [id]) == Mark(kids.table, id);
        MarkAllAppend(t, below + [id], Taken(rest, left));
        assert Taken(PostOrder(f), budget) == below + [id] + Taken(rest, left);
      } else {
        assert Taken(PostOrder(f), budget) == Taken(below, budget);
      }
    }
  }

  lemma {:induction false} DeleteForestIsRun(s: Store, u: Supplies, ids: seq<Id>) returns (stmts: seq<Stmt>)
    ensures Run(s, u, stmts) == s.(queues := MarkAll(s.queues, ids))
    ensures Along(Local, s, u, stmts) && Along(Sound, s, u, stmts)
    decreases ids
  {
    if ids == [] {
      stmts := [];
    } else {
      var first := DeleteQueue(ids[0]);
      var rest := DeleteForestIsRun(Exec(s, u, first), u, ids[1..]);
      stmts := [first] + rest;
      assert stmts[1..] == rest;
    }
  }

  /** Every live child of ids[k] comes before ids[k]. */
  ghost predicate ChildrenFirst(t: seq<QRow>, ids: seq<Id>) {
    forall k, i :: 0 <= k < |ids| && 0 <= i < |t| && t[i].fixed.parentId == Some(ids[k]) && !t[i].fixed.deleted ==>
      t[i].fixed.id in ids[..k]
  }

  /** No live queue is left under a deleted one when DeleteQueues stops after `budget` rows. */
  ghost predicate AliveAfter(t: seq<QRow>, f: seq<Tree>, budget: nat) {
    Alive(DeleteForest(t, f, budget).table)
  }

  lemma DeleteKeepsAlive(t: seq<QRow>, f: seq<Tree>, budget: nat)
    requires Alive(t) && ChildrenFirst(t, PostOrder(f))
    ensures AliveAfter(t, f, budget)
  {
    DeleteIsPostOrderPrefix(t, f, budget);
    PrefixKeepsAlive(t, PostOrder(f), Taken(PostOrder(f), budget));
  }

  lemma DeleteBreaksAlive(t: seq<QRow>, uuid: Supply, f: seq<Tree>, k: nat, i: nat)
    requires Forest(t, uuid) && Injective(uuid) && k < |PostOrder(f)| && i < |t|
    requires t[i].fixed.parentId == Some(PostOrder(f)[k]) && !t[i].fixed.deleted
    requires t[i].fixed.id !in PostOrder(f)[..k]
    ensures !AliveAfter(t, f, k + 1)
  {
    var ids := PostOrder(f);
    DeleteIsPostOrderPrefix(t, f, k + 1);
    assert Taken(ids, k + 1) == ids[..k] + [ids[k]];
    if AliveAfter(t, f, k + 1) {
      AliveShowsOrder(t, uuid, ids[..k], ids[k], i);
    }
  }

  /**
   DeleteQueues leaves no live queue under a deleted one, wherever it breaks off, exactly when
   the ids it visits list the live children of each queue before the queue.
   */
  lemma DeleteKeepsAliveExactly(t: seq<QRow>, uuid: Supply, f: seq<Tree>)
    requires Forest(t, uuid) && Injective(uuid) && Alive(t)
    ensures (forall b: nat :: AliveAfter(t, f, b)) <==> ChildrenFirst(t, PostOrder(f))
  {
    var ids := PostOrder(f);
    if ChildrenFirst(t, ids) {
      forall b: nat ensures AliveAfter(t, f, b) {
        DeleteKeepsAlive(t, f, b);
      }
    } else {
      var k, i :| 0 <= k < |ids| && 0 <= i < |t| && t[i].fixed.parentId == Some(ids[k]) && !t[i].fixed.deleted
                  && t[i].fixed.id !in ids[..k];
      DeleteBreaksAlive(t, uuid, f, k, i);
    }
  }

  lemma PrefixKeepsAlive(t: seq<QRow>, ids: seq<Id>, done: seq<Id>)
    requires Alive(t) && ChildrenFirst(t, ids) && done <= ids
    ensures Alive(MarkAll(t, done))
  {
    MarkAllRows(t, done);
    var t' := MarkAll(t, done);
    forall i, j | 0 <= i < |t'| && 0 <= j < |t'| && t'[i].fixed.parentId == Some(t'[j].fixed.id) && t'[j].fixed.deleted
      ensures t'[i].fixed.deleted
    {
      if !t[i].fixed.deleted && !t[j].fixed.deleted {
        var k :| 0 <= k < |done| && done[k] == t[j].fixed.id;
        assert ids[k] == done[k] && ids[..k] == done[..k];
        assert t[i].fixed.id in ids[..k];
      }
    }
  }

  lemma AliveShowsOrder(t: seq<QRow>, uuid: Supply, before: seq<Id>, id: Id, i: nat)
    requires Forest(t, uuid) && Injective(uuid) && Alive(MarkAll(t, before + [id]))
    requires i < |t| && t[i].fixed.parentId == Some(id) && !t[i].fixed.deleted
    ensures t[i].fixed.id in before
  {
    MarkAllRows(t, before + [id]);
    var t' := MarkAll(t, before + [id]);
    assert LinkedBefore(t, uuid, i);
    var j: nat :| j < i && uuid(j) == id;
    assert t[j].fixed.id == id && id in before + [id];
    assert t'[i].fixed.parentId == Some(t'[j].fixed.id) && t'[j].fixed.deleted;
    assert t[i].fixed.id == uuid(i) != id;
  }

  /** The live rows stored directly under the queue are among its children. */
  ghost predicate CarriesKids(t: seq<QRow>, x: Tree) {
    forall i :: 0 <= i < |t| && t[i].fixed.parentId == Some(x.row.fixed.id) && !t[i].fixed.deleted ==>
      exists c :: 0 <= c < |x.children| && x.children[c].row.fixed.id == t[i].fixed.id
  }

  /** Every queue of the forest, at any depth, carries all live rows stored directly under it. */
  ghost predicate Complete(t: seq<QRow>, f: seq<Tree>) {
    forall n :: 0 <= n < |f| ==> CarriesKids(t, f[n]) && Complete(t, f[n].children)
  }

  lemma {:induction false} RootsInPostOrder(f: seq<Tree>, c: nat)
    requires c < |f|
    ensures f[c].row.fixed.id in PostOrder(f)
    decreases f
  {
    if c > 0 {
      RootsInPostOrder(f[1..], c - 1);
    }
  }

  /** Complete stored subtrees meet the condition. */
  lemma {:induction false} CompleteIsChildrenFirst(t: seq<QRow>, f: seq<Tree>)
    requires Complete(t, f)
    ensures ChildrenFirst(t, PostOrder(f))
    decreases f
  {
    if f != [] {
      var below, id, rest := PostOrder(f[0].children), f[0].row.fixed.id, PostOrder(f[1..]);
      CompleteIsChildrenFirst(t, f[0].children);
      CompleteIsChildrenFirst(t, f[1..]);
      var ids := below + [id] + rest;
      forall k, i | 0 <= k < |ids| && 0 <= i < |t| && t[i].fixed.parentId == Some(ids[k]) && !t[i].fixed.deleted
        ensures t[i].fixed.id in ids[..k]
      {
        if k < |below| {
          assert ids[k] == below[k] && ids[..k] == below[..k];
        } else if k == |below| {
          assert ids[k] == f[0].row.fixed.id && CarriesKids(t, f[0]);
          var c :| 0 <= c < |f[0].children| && f[0].children[c].row.fixed.id == t[i].fixed.id;
          RootsInPostOrder(f[0].children, c);
          assert ids[..k] == below;
        } else {
          var l := k - |below| - 1;
          assert ids[k] == rest[l] && ids[..k] == below + [id] + rest[..l];
          assert t[i].fixed.id in rest[..l];
        }
      }
    }
  }

  // ----- sequences of calls -----

  datatype Call =
    | UpsertQueuesCall(qs: seq<Queue>, budget: nat)
    | AddQueuesCall(parentId: Option<Id>, trees: seq<QueueTree>, budget: nat)
    | DeleteQueuesCall(f: seq<Tree>, budget: nat)
    | UpsertApplicationsCall(apps: seq<App>, budget: nat)

  function ExecCall(s: Store, u: Supplies, c: Call): Store {
    match c
    case UpsertQueuesCall(qs, b) => s.(queues := UpsertAll(s.queues, u.queue, qs, b).table)
    case AddQueuesCall(p, qs, b) => s.(queues := AddForest(s.queues, u.queue, p, qs, None, b).table)
    case DeleteQueuesCall(f, b) => s.(queues := DeleteForest(s.queues, f, b).table)
    case UpsertApplicationsCall(apps, b) => s.(apps := UpsertApps(s.apps, s.queues, u.app, apps, b).table)
  }

  /** An explicit parent id names a stored queue. */
  ghost predicate KnownParent(s: Store, c: Call) {
    c.AddQueuesCall? && c.parentId.Some? ==> HasId(s.queues, c.parentId.value)
  }

  /** The explicit parent of an AddQueues is live and DeleteQueues receives complete stored subtrees. */
  ghost predicate Disciplined(s: Store, c: Call) {
    && KnownParent(s, c)
    && (c.AddQueuesCall? ==> Live(s.queues, c.parentId))
    && (c.DeleteQueuesCall? ==> Complete(s.queues, c.f))
  }

  /** As KnownParent, and each AddQueues keeps to the partition of the parent it links to. */
  ghost predicate Partitioned(s: Store, c: Call) {
    && KnownParent(s, c)
    && (c.AddQueuesCall? ==> OnePartition(s.queues, c.parentId, c.trees, None))
  }

  function ExecCalls(s: Store, u: Supplies, cs: seq<Call>): Store
    decreases cs
  {
    if cs == [] then s else ExecCalls(ExecCall(s, u, cs[0]), u, cs[1..])
  }

  ghost predicate CallsAlong(P: (Store, Call) -> bool, s: Store, u: Supplies, cs: seq<Call>)
    decreases cs
  {
    cs == [] || (P(s, cs[0]) && CallsAlong(P, ExecCall(s, u, cs[0]), u, cs[1..]))
  }

  /** Each call, wherever it breaks off, is a run of sound statements. */
  lemma CallIsRun(s: Store, u: Supplies, c: Call) returns (stmts: seq<Stmt>)
    requires Forest(s.queues, u.queue) && Injective(u.queue) && KnownParent(s, c)
    ensures Run(s, u, stmts) == ExecCall(s, u, c)
    ensures Along(Sound, s, u, stmts)
    ensures Partitioned(s, c) ==> Along(Local, s, u, stmts)
    ensures Disciplined(s, c) && !c.DeleteQueuesCall? ==> Along(Careful, s, u, stmts)
  {
    match c {
      case UpsertQueuesCall(qs, b) =>
        stmts := UpsertAllIsRun(s, u, qs, b);
        GoodRun(s, u, stmts);
      case AddQueuesCall(p, qs, b) =>
        stmts := AddForestIsRun(s, u, p, qs, None, b);
      case DeleteQueuesCall(f, b) =>
        DeleteIsPostOrderPrefix(s.queues, f, b);
        stmts := DeleteForestIsRun(s, u, Taken(PostOrder(f), b));
      case UpsertApplicationsCall(apps, b) =>
        stmts := UpsertAppsIsRun(s, u, apps, b);
        GoodRun(s, u, stmts);
    }
  }

  lemma {:induction false} CallsKeepForestAndReferences(s: Store, u: Supplies, cs: seq<Call>)
    requires Inv(s, u) && Injective(u.queue) && CallsAlong(KnownParent, s, u, cs)
    ensures Inv(ExecCalls(s, u, cs), u)
    decreases cs
  {
    if cs != [] {
      var stmts := CallIsRun(s, u, cs[0]);
      RunsKeepForestAndReferences(s, u, stmts);
      CallsKeepForestAndReferences(ExecCall(s, u, cs[0]), u, cs[1..]);
    }
  }

  lemma {:induction false} CallsKeepPartitions(s: Store, u: Supplies, cs: seq<Call>)
    requires Inv(s, u) && Injective(u.queue) && SamePartition(s.queues) && CallsAlong(Partitioned, s, u, cs)
    ensures SamePartition(ExecCalls(s, u, cs).queues)
    decreases cs
  {
    if cs != [] {
      var stmts := CallIsRun(s, u, cs[0]);
      RunsKeepForestAndReferences(s, u, stmts);
      RunsKeepPartitions(s, u, stmts);
      CallsKeepPartitions(ExecCall(s, u, cs[0]), u, cs[1..]);
    }
  }

  lemma CallKeepsAlive(s: Store, u: Supplies, c: Call)
    requires Inv(s, u) && Injective(u.queue) && Alive(s.queues) && Disciplined(s, c)
    ensures Alive(ExecCall(s, u, c).queues)
  {
    if c.DeleteQueuesCall? {
      CompleteIsChildrenFirst(s.queues, c.f);
      DeleteKeepsAlive(s.queues, c.f, c.budget);
    } else {
      var stmts := CallIsRun(s, u, c);
      RunsKeepAlive(s, u, stmts);
    }
  }

  lemma {:induction false} CallsKeepAlive(s: Store, u: Supplies, cs: seq<Call>)
    requires Inv(s, u) && Injective(u.queue) && Alive(s.queues) && CallsAlong(Disciplined, s, u, cs)
    ensures Alive(ExecCalls(s, u, cs).queues)
    decreases cs
  {
    if cs != [] {
      CallKeepsAlive(s, u, cs[0]);
      var stmts := CallIsRun(s, u, cs[0]);
      RunsKeepForestAndReferences(s, u, stmts);
      CallsKeepAlive(ExecCall(s, u, cs[0]), u, cs[1..]);
    }
  }

  /** On every run of disciplined calls, broken off or not, no live queue lies below a deleted one. */
  lemma CallsKeepAncestorsLive(s: Store, u: Supplies, cs: seq<Call>, path: seq<nat>)
    requires Inv(s, u) && Injective(u.queue) && Alive(s.queues) && CallsAlong(Disciplined, s, u, cs)
    requires |path| > 0 && Chain(ExecCalls(s, u, cs).queues, path)
    requires ExecCalls(s, u, cs).queues[path[|path| - 1]].fixed.deleted
    ensures ExecCalls(s, u, cs).queues[path[0]].fixed.deleted
  {
    CallsKeepAlive(s, u, cs);
    NoLiveQueueBelowDeleted(ExecCalls(s, u, cs).queues, path);
  }
}
