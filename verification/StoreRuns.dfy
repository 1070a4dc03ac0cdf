/**
 Both tables under runs of single statements.  What a run keeps depends on the ids its statements
 carry; `QueueCalls` and `Overlap` show which ids the calls of the source use.
 */
module StoreRuns {
  import opened Options
  import opened UpsertTable
  import opened QueueModel
  import opened AppModel

  datatype Store = Store(queues: seq<QRow>, apps: seq<ARow>)

  /** The id supplies of the two tables. */
  datatype Supplies = Supplies(queue: Supply, app: Supply)

  /** A write with the id its call looked up, or had returned to it, earlier. */
  datatype Stmt =
    | UpsertQueue(q: Queue, parentId: Option<Id>)
    | InsertQueue(q: Queue, parentId: Option<Id>)
    | DeleteQueue(id: Id)
    | UpsertApp(a: App, queueId: Option<Id>)

  /** A statement the database rejects changes nothing. */
  function Exec(s: Store, u: Supplies, stmt: Stmt): Store {
    match stmt
    case UpsertQueue(q, p) =>
      (match UpsertExec(s.queues, u.queue, q, p) case Ok(t) => s.(queues := t) case Err => s)
    case InsertQueue(q, p) =>
      if q.partition == "" || Find(s.queues, KeyOf(q)).Some? then s
      else s.(queues := s.queues + [NewRow(u.queue(|s.queues|), p, q)])
    case DeleteQueue(id) => s.(queues := Mark(s.queues, id))
    case UpsertApp(a, id) =>
      (match AppExec(s.apps, u.app, a, id) case Ok(t) => s.(apps := t) case Err => s)
  }

  function Run(s: Store, u: Supplies, stmts: seq<Stmt>): Store
    decreases stmts
  {
    if stmts == [] then s else Run(Exec(s, u, stmts[0]), u, stmts[1..])
  }

  /** Every state of a run satisfies P for the statement about to execute. */
  ghost predicate Along(P: (Store, Stmt) -> bool, s: Store, u: Supplies, stmts: seq<Stmt>)
    decreases stmts
  {
    stmts == [] || (P(s, stmts[0]) && Along(P, Exec(s, u, stmts[0]), u, stmts[1..]))
  }

  lemma {:induction false} RunAppend(s: Store, u: Supplies, a: seq<Stmt>, b: seq<Stmt>)
    ensures Run(s, u, a + b) == Run(Run(s, u, a), u, b)
    decreases a
  {
    if a == [] {
      assert a + b == b;
    } else {
      assert (a + b)[0] == a[0] && (a + b)[1..] == a[1..] + b;
      RunAppend(Exec(s, u, a[0]), u, a[1..], b);
    }
  }

  lemma {:induction false} AlongAppend(P: (Store, Stmt) -> bool, s: Store, u: Supplies, a: seq<Stmt>, b: seq<Stmt>)
    requires Along(P, s, u, a) && Along(P, Run(s, u, a), u, b)
    ensures Along(P, s, u, a + b)
    decreases a
  {
    if a == [] {
      assert a + b == b;
    } else {
      assert (a + b)[0] == a[0] && (a + b)[1..] == a[1..] + b;
      AlongAppend(P, Exec(s, u, a[0]), u, a[1..], b);
    }
  }

  // ----- what no statement ever changes -----

  /** Rows are never removed or reordered; ids, keys and parent links never change; a deletion is never undone. */
  ghost predicate Extends(s: Store, s': Store) {
    && |s.queues| <= |s'.queues| && |s.apps| <= |s'.apps|
    && (forall i :: 0 <= i < |s.queues| ==> QueueRowKept(s.queues[i], s'.queues[i]))
    && (forall i :: 0 <= i < |s.apps| ==> s'.apps[i].key == s.apps[i].key && s'.apps[i].fixed == s.apps[i].fixed)
  }

  ghost predicate QueueRowKept(r: QRow, r': QRow) {
    && r'.key == r.key
    && (r'.fixed == r.fixed || r'.fixed == r.fixed.(deleted := true))
  }

  lemma ExecExtends(s: Store, u: Supplies, stmt: Stmt)
    ensures Extends(s, Exec(s, u, stmt))
  {
  }

  lemma {:induction false} RunExtends(s: Store, u: Supplies, stmts: seq<Stmt>)
    ensures Extends(s, Run(s, u, stmts))
    decreases stmts
  {
    if stmts != [] {
      var s1 := Exec(s, u, stmts[0]);
      ExecExtends(s, u, stmts[0]);
      RunExtends(s1, u, stmts[1..]);
      var s2 := Run(s1, u, stmts[1..]);
      forall i | 0 <= i < |s.queues|
        ensures QueueRowKept(s.queues[i], s2.queues[i])
      {
        assert QueueRowKept(s.queues[i], s1.queues[i]) && QueueRowKept(s1.queues[i], s2.queues[i]);
      }
    }
  }

  // ----- forest and referential integrity -----

  /** Row i is the i-th inserted, keys are unique, and a parent link names a row inserted strictly earlier. */
  ghost predicate Forest(t: seq<QRow>, uuid: Supply) {
    && UniqueKeys(t)
    && (forall i :: 0 <= i < |t| ==> t[i].fixed.id == uuid(i))
    && (forall i :: 0 <= i < |t| && t[i].fixed.parentId.Some? ==> LinkedBefore(t, uuid, i))
  }

  ghost predicate LinkedBefore(t: seq<QRow>, uuid: Supply, i: nat)
    requires i < |t| && t[i].fixed.parentId.Some?
  {
    exists j: nat :: j < i && uuid(j) == t[i].fixed.parentId.value
  }

  ghost predicate HasKeyAndId(t: seq<QRow>, key: QueueKey, id: Id) {
    exists j :: 0 <= j < |t| && t[j].key == key && t[j].fixed.id == id
  }

  /** Each application's queue_id is the id of the queue row with its partition and queue name. */
  ghost predicate Referential(s: Store) {
    forall i :: 0 <= i < |s.apps| ==>
      HasKeyAndId(s.queues, QueueKey(s.apps[i].key.partition, s.apps[i].key.queueName), s.apps[i].fixed.queueId)
  }

  ghost predicate Inv(s: Store, u: Supplies) {
    Forest(s.queues, u.queue) && UniqueKeys(s.apps) && Referential(s)
  }

  ghost predicate HasId(t: seq<QRow>, id: Id) {
    exists j :: 0 <= j < |t| && t[j].fixed.id == id
  }

  /** The id a statement carries names a stored row: for an application, the row of its queue. */
  ghost predicate Sound(s: Store, stmt: Stmt) {
    match stmt
    case UpsertQueue(q, p) => p.Some? ==> HasId(s.queues, p.value)
    case InsertQueue(q, p) => p.Some? ==> HasId(s.queues, p.value)
    case DeleteQueue(id) => true
    case UpsertApp(a, id) => id.Some? ==> HasKeyAndId(s.queues, QueueKey(a.partition, a.queueName), id.value)
  }

  /** The statement adds a queue row: the partition is set and the key is new. */
  ghost predicate Inserts(s: Store, stmt: Stmt) {
    (stmt.UpsertQueue? || stmt.InsertQueue?) && stmt.q.partition != "" && Find(s.queues, KeyOf(stmt.q)).None?
  }

  /** Only such a statement makes the table longer. */
  lemma InsertsRow(s: Store, u: Supplies, stmt: Stmt)
    ensures if Inserts(s, stmt)
            then Exec(s, u, stmt).queues == s.queues + [NewRow(u.queue(|s.queues|), stmt.parentId, stmt.q)]
            else |Exec(s, u, stmt).queues| == |s.queues|
  {
  }

  lemma AppendKeepsForest(t: seq<QRow>, uuid: Supply, q: Queue, p: Option<Id>)
    requires Forest(t, uuid) && Find(t, KeyOf(q)).None?
    requires p.Some? ==> HasId(t, p.value)
    ensures Forest(t + [NewRow(uuid(|t|), p, q)], uuid)
  {
    var t' := t + [NewRow(uuid(|t|), p, q)];
    forall i | 0 <= i < |t'| && t'[i].fixed.parentId.Some?
      ensures LinkedBefore(t', uuid, i)
    {
      if i < |t| {
        assert LinkedBefore(t, uuid, i);
      } else {
        var j :| 0 <= j < |t| && t[j].fixed.id == p.value;
        assert uuid(j) == t'[i].fixed.parentId.value;
      }
    }
  }

  lemma SameLinksKeepForest(t: seq<QRow>, t': seq<QRow>, uuid: Supply)
    requires Forest(t, uuid) && |t'| == |t|
    requires forall i :: 0 <= i < |t| ==> QueueRowKept(t[i], t'[i])
    ensures Forest(t', uuid)
  {
    forall i | 0 <= i < |t'|
      ensures t'[i].fixed.id == uuid(i) && (t'[i].fixed.parentId.Some? ==> LinkedBefore(t', uuid, i))
    {
      assert QueueRowKept(t[i], t'[i]);
      assert t[i].fixed.parentId.Some? ==> LinkedBefore(t, uuid, i);
    }
  }

  lemma ExecKeepsForest(s: Store, u: Supplies, stmt: Stmt)
    requires Forest(s.queues, u.queue) && Sound(s, stmt)
    ensures Forest(Exec(s, u, stmt).queues, u.queue)
  {
    var s' := Exec(s, u, stmt);
    ExecExtends(s, u, stmt);
    if |s'.queues| == |s.queues| {
      SameLinksKeepForest(s.queues, s'.queues, u.queue);
    } else {
      AppendKeepsForest(s.queues, u.queue, stmt.q, stmt.parentId);
      assert stmt.UpsertQueue? ==> s'.queues == s.queues + [NewRow(u.queue(|s.queues|), stmt.parentId, stmt.q)];
    }
  }

  lemma KeyAndIdStays(s: Store, s': Store, key: QueueKey, id: Id)
    requires Extends(s, s') && HasKeyAndId(s.queues, key, id)
    ensures HasKeyAndId(s'.queues, key, id)
  {
    var j :| 0 <= j < |s.queues| && s.queues[j].key == key && s.queues[j].fixed.id == id;
    assert QueueRowKept(s.queues[j], s'.queues[j]);
  }

  lemma ExecKeepsReferential(s: Store, u: Supplies, stmt: Stmt)
    requires Inv(s, u) && Sound(s, stmt)
    ensures UniqueKeys(Exec(s, u, stmt).apps) && Referential(Exec(s, u, stmt))
  {
    var s' := Exec(s, u, stmt);
    ExecExtends(s, u, stmt);
    if stmt.UpsertApp? && stmt.queueId.Some? {
      PutKeepsKeys(s.apps, AppKeyOf(stmt.a), NewAppFixed(u.app(|s.apps|), stmt.queueId.value, stmt.a), stmt.a.values);
    }
    forall i | 0 <= i < |s'.apps|
      ensures HasKeyAndId(s'.queues, QueueKey(s'.apps[i].key.partition, s'.apps[i].key.queueName), s'.apps[i].fixed.queueId)
    {
      if i < |s.apps| {
        KeyAndIdStays(s, s', QueueKey(s.apps[i].key.partition, s.apps[i].key.queueName), s.apps[i].fixed.queueId);
      }
    }
  }

  /**
   After any sequence of statements, parent links form a forest (every link names a strictly
   earlier row) and every application points at the row of its own queue, deleted or not.
   */
  lemma {:induction false} RunsKeepForestAndReferences(s: Store, u: Supplies, stmts: seq<Stmt>)
    requires Inv(s, u) && Along(Sound, s, u, stmts)
    ensures Inv(Run(s, u, stmts), u)
    decreases stmts
  {
    if stmts != [] {
      ExecKeepsForest(s, u, stmts[0]);
      ExecKeepsReferential(s, u, stmts[0]);
      RunsKeepForestAndReferences(Exec(s, u, stmts[0]), u, stmts[1..]);
    }
  }

  /** Following parent links cannot return to where it started. */
  lemma {:induction false} LinksAreAcyclic(t: seq<QRow>, uuid: Supply, path: seq<nat>)
    requires Forest(t, uuid) && Injective(uuid)
    requires |path| > 1 && Chain(t, path)
    ensures path[|path| - 1] < path[0]
    decreases |path|
  {
    assert t[path[0]].fixed.parentId == Some(t[path[1]].fixed.id);
    assert LinkedBefore(t, uuid, path[0]);
    if |path| > 2 {
      assert Chain(t, path[1..]);
      LinksAreAcyclic(t, uuid, path[1..]);
    }
  }

  /** Each queue of the path is the parent of the one before. */
  ghost predicate Chain(t: seq<QRow>, path: seq<nat>) {
    && (forall k :: 0 <= k < |path| ==> path[k] < |t|)
    && (forall k :: 0 <= k < |path| - 1 ==> t[path[k]].fixed.parentId == Some(t[path[k + 1]].fixed.id))
  }

  // ----- partitions -----

  ghost predicate SamePartition(t: seq<QRow>) {
    forall i, j :: 0 <= i < |t| && 0 <= j < |t| && t[i].fixed.parentId == Some(t[j].fixed.id) ==>
      t[i].key.partition == t[j].key.partition
  }

  ghost predicate InPartition(t: seq<QRow>, p: Option<Id>, partition: string) {
    forall j :: 0 <= j < |t| && p == Some(t[j].fixed.id) ==> t[j].key.partition == partition
  }

  /** A new row goes under a stored parent of its own partition. */
  ghost predicate Local(s: Store, stmt: Stmt) {
    Sound(s, stmt) && (Inserts(s, stmt) ==> InPartition(s.queues, stmt.parentId, stmt.q.partition))
  }

  /** A statement keeps parent and child in one partition exactly when it is local. */
  lemma ExecKeepsPartitionsExactly(s: Store, u: Supplies, stmt: Stmt)
    requires Forest(s.queues, u.queue) && Injective(u.queue) && SamePartition(s.queues) && Sound(s, stmt)
    ensures SamePartition(Exec(s, u, stmt).queues) <==> Local(s, stmt)
  {
    if Local(s, stmt) {
      ExecKeepsPartitions(s, u, stmt);
    } else {
      var t, t' := s.queues, Exec(s, u, stmt).queues;
      var j :| 0 <= j < |t| && stmt.parentId == Some(t[j].fixed.id) && t[j].key.partition != stmt.q.partition;
      InsertsRow(s, u, stmt);
      assert t'[|t|].fixed.parentId == Some(t'[j].fixed.id);
    }
  }

  lemma ExecKeepsPartitions(s: Store, u: Supplies, stmt: Stmt)
    requires Forest(s.queues, u.queue) && Injective(u.queue) && SamePartition(s.queues) && Local(s, stmt)
    ensures SamePartition(Exec(s, u, stmt).queues)
  {
    var t, t' := s.queues, Exec(s, u, stmt).queues;
    ExecExtends(s, u, stmt);
    ExecKeepsForest(s, u, stmt);
    forall i, j | 0 <= i < |t'| && 0 <= j < |t'| && t'[i].fixed.parentId == Some(t'[j].fixed.id)
      ensures t'[i].key.partition == t'[j].key.partition
    {
      assert LinkedBefore(t', u.queue, i);
      assert j < i;
      assert QueueRowKept(t[j], t'[j]);
      if i < |t| {
        assert QueueRowKept(t[i], t'[i]);
      }
    }
  }

  /** Parent and child share a partition in every reachable table. */
  lemma {:induction false} RunsKeepPartitions(s: Store, u: Supplies, stmts: seq<Stmt>)
    requires Forest(s.queues, u.queue) && Injective(u.queue) && SamePartition(s.queues) && Along(Local, s, u, stmts)
    ensures SamePartition(Run(s, u, stmts).queues)
    decreases stmts
  {
    if stmts != [] {
      ExecKeepsForest(s, u, stmts[0]);
      ExecKeepsPartitions(s, u, stmts[0]);
      RunsKeepPartitions(Exec(s, u, stmts[0]), u, stmts[1..]);
    }
  }

  // ----- liveness of ancestors -----

  ghost predicate Alive(t: seq<QRow>) {
    forall i, j :: 0 <= i < |t| && 0 <= j < |t| && t[i].fixed.parentId == Some(t[j].fixed.id) ==>
      (t[j].fixed.deleted ==> t[i].fixed.deleted)
  }

  ghost predicate Live(t: seq<QRow>, p: Option<Id>) {
    forall j :: 0 <= j < |t| && p == Some(t[j].fixed.id) ==> !t[j].fixed.deleted
  }

  /** No live row has the row with this id as its parent. */
  ghost predicate Childless(t: seq<QRow>, id: Id) {
    forall i :: 0 <= i < |t| && t[i].fixed.parentId == Some(id) ==> t[i].fixed.deleted
  }

  /** A new row goes under a live parent; a row is deleted only once its children are. */
  ghost predicate Careful(s: Store, stmt: Stmt) {
    && Sound(s, stmt)
    && (Inserts(s, stmt) ==> Live(s.queues, stmt.parentId))
    && (stmt.DeleteQueue? ==> Childless(s.queues, stmt.id))
  }

  /** A statement leaves no live queue under a deleted one exactly when it is careful. */
  lemma ExecKeepsAliveExactly(s: Store, u: Supplies, stmt: Stmt)
    requires Forest(s.queues, u.queue) && Injective(u.queue) && Alive(s.queues) && Sound(s, stmt)
    ensures Alive(Exec(s, u, stmt).queues) <==> Careful(s, stmt)
  {
    if Careful(s, stmt) {
      ExecKeepsAlive(s, u, stmt);
    } else if stmt.DeleteQueue? {
      DeleteLeavesOrphan(s, u, stmt);
    } else {
      var t, t' := s.queues, Exec(s, u, stmt).queues;
      var j :| 0 <= j < |t| && stmt.parentId == Some(t[j].fixed.id) && t[j].fixed.deleted;
      InsertsRow(s, u, stmt);
      assert t'[|t|].fixed.parentId == Some(t'[j].fixed.id) && t'[j].fixed.deleted && !t'[|t|].fixed.deleted;
    }
  }

  lemma DeleteLeavesOrphan(s: Store, u: Supplies, stmt: Stmt)
    requires Forest(s.queues, u.queue) && Injective(u.queue) && stmt.DeleteQueue?
    requires !Childless(s.queues, stmt.id)
    ensures !Alive(Exec(s, u, stmt).queues)
  {
    var t, t' := s.queues, Exec(s, u, stmt).queues;
    var i :| 0 <= i < |t| && t[i].fixed.parentId == Some(stmt.id) && !t[i].fixed.deleted;
    assert LinkedBefore(t, u.queue, i);
    var j: nat :| j < i && u.queue(j) == stmt.id;
    assert t[i].fixed.id == u.queue(i) && t[j].fixed.id == u.queue(j);
    assert t'[j].fixed.deleted && !t'[i].fixed.deleted && t'[i].fixed.parentId == Some(t'[j].fixed.id);
  }

  lemma ExecKeepsAlive(s: Store, u: Supplies, stmt: Stmt)
    requires Forest(s.queues, u.queue) && Injective(u.queue) && Alive(s.queues) && Careful(s, stmt)
    ensures Alive(Exec(s, u, stmt).queues)
  {
    var t, t' := s.queues, Exec(s, u, stmt).queues;
    ExecExtends(s, u, stmt);
    ExecKeepsForest(s, u, stmt);
    InsertsRow(s, u, stmt);
    forall i, j | 0 <= i < |t'| && 0 <= j < |t'| && t'[i].fixed.parentId == Some(t'[j].fixed.id) && t'[j].fixed.deleted
      ensures t'[i].fixed.deleted
    {
      assert LinkedBefore(t', u.queue, i);
      assert j < i;
      assert QueueRowKept(t[j], t'[j]);
      if i < |t| {
        assert QueueRowKept(t[i], t'[i]);
        if !t[j].fixed.deleted {
          assert stmt.DeleteQueue? && t[j].fixed.id == stmt.id;
        }
      }
    }
  }

  /** Every state of the run keeps parents of live rows live. */
  ghost predicate AliveThroughout(s: Store, u: Supplies, stmts: seq<Stmt>)
    decreases stmts
  {
    Alive(s.queues) && (stmts == [] || AliveThroughout(Exec(s, u, stmts[0]), u, stmts[1..]))
  }

  /** On every run of sound statements no live queue ever lies below a deleted one exactly when each is careful. */
  lemma {:induction false} RunsKeepAliveExactly(s: Store, u: Supplies, stmts: seq<Stmt>)
    requires Forest(s.queues, u.queue) && Injective(u.queue) && Alive(s.queues) && Along(Sound, s, u, stmts)
    ensures AliveThroughout(s, u, stmts) <==> Along(Careful, s, u, stmts)
    decreases stmts
  {
    hide Alive;
    hide Careful;
    hide Exec;
    if stmts != [] {
      ExecKeepsForest(s, u, stmts[0]);
      ExecKeepsAliveExactly(s, u, stmts[0]);
      if Alive(Exec(s, u, stmts[0]).queues) {
        RunsKeepAliveExactly(Exec(s, u, stmts[0]), u, stmts[1..]);
      }
    }
  }

  lemma {:induction false} RunsKeepAlive(s: Store, u: Supplies, stmts: seq<Stmt>)
    requires Forest(s.queues, u.queue) && Injective(u.queue) && Alive(s.queues) && Along(Careful, s, u, stmts)
    ensures Alive(Run(s, u, stmts).queues)
    decreases stmts
  {
    if stmts != [] {
      ExecKeepsForest(s, u, stmts[0]);
      ExecKeepsAlive(s, u, stmts[0]);
      RunsKeepAlive(Exec(s, u, stmts[0]), u, stmts[1..]);
    }
  }

  /** With links kept alive, everything below a deleted queue, at any depth, is deleted. */
  lemma {:induction false} NoLiveQueueBelowDeleted(t: seq<QRow>, path: seq<nat>)
    requires Alive(t) && |path| > 0 && Chain(t, path)
    requires t[path[|path| - 1]].fixed.deleted
    ensures t[path[0]].fixed.deleted
    decreases |path|
  {
    if |path| > 1 {
      assert Chain(t, path[1..]);
      NoLiveQueueBelowDeleted(t, path[1..]);
      assert t[path[0]].fixed.parentId == Some(t[path[1]].fixed.id);
    }
  }
}
