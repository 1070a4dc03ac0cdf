/**
 The queues table, the queue hierarchy the scheduler reports, and the writers of
 internal/database/repository/queue.go as functions on the table.

 `uuid(n)` is the id that the n-th inserted row receives.  Quantifying over every
 injective `uuid` covers every way fresh ids can be generated.

 Every writer takes a `budget`: the number of rows whose statements the database still
 accepts.  When it is used up the next statement fails without effect, so quantifying over
 budgets covers every point at which a call can break off.
 */
module QueueModel {
  import opened Options
  import opened UpsertTable

  type Id = string
  type Json = string
  type Supply = nat -> Id

  ghost predicate Injective(uuid: Supply) {
    forall i: nat, j: nat :: uuid(i) == uuid(j) ==> i == j
  }

  /** Columns that a conflict update overwrites, NULL included. */
  datatype LiveValues = LiveValues(
    status: Option<Json>, pendingResource: Option<Json>, maxResource: Option<Json>,
    guaranteedResource: Option<Json>, allocatedResource: Option<Json>, preemptingResource: Option<Json>,
    headRoom: Option<Json>, isLeaf: Option<Json>, isManaged: Option<Json>,
    maxRunningApps: Option<Json>, runningApps: Option<Json>)

  /** They are always overwritten together, so the table keeps them as one composite column. */
  datatype LiveColumn = LiveColumns

  /** Columns that are written on insertion only. */
  datatype InsertOnly = InsertOnly(
    properties: Option<Json>, templateInfo: Option<Json>, absUsedCapacity: Option<Json>,
    currentPriority: Option<Json>, allocatingAcceptedApps: Option<Json>)

  datatype Queue = Queue(name: string, partition: string, parent: string, live: LiveValues, once: InsertOnly)

  datatype QueueTree = QueueTree(queue: Queue, children: seq<QueueTree>)

  datatype QueueKey = QueueKey(partition: string, name: string)

  datatype QueueFixed = QueueFixed(id: Id, parentId: Option<Id>, deleted: bool, parent: string, once: InsertOnly)

  type QRow = Row<QueueKey, QueueFixed, LiveColumn, LiveValues>

  function KeyOf(q: Queue): QueueKey {
    QueueKey(q.partition, q.name)
  }

  function LivePatch(q: Queue): map<LiveColumn, LiveValues> {
    map[LiveColumns := q.live]
  }

  function NewFixed(id: Id, parentId: Option<Id>, q: Queue): QueueFixed {
    QueueFixed(id, parentId, false, q.parent, q.once)
  }

  function NewRow(id: Id, parentId: Option<Id>, q: Queue): QRow {
    Row(KeyOf(q), NewFixed(id, parentId, q), LivePatch(q))
  }

  /** What a call leaves behind: the table, the unused budget, and whether it returned nil. */
  datatype Outcome = Outcome(table: seq<QRow>, budget: nat, ok: bool)

  // ----- getQueueID -----

  /** The empty name means "no parent"; a missing or deleted queue is an error. */
  function Lookup(t: seq<QRow>, name: string, partition: string): Result<Option<Id>> {
    if name == "" then Ok(None)
    else match Find(t, QueueKey(partition, name))
      case Some(i) => if t[i].fixed.deleted then Err else Ok(Some(t[i].fixed.id))
      case None => Err
  }

  // ----- UpsertQueues -----

  /** The upsert statement, given the parent id looked up before; the table rejects an empty partition. */
  function UpsertExec(t: seq<QRow>, uuid: Supply, q: Queue, parentId: Option<Id>): Result<seq<QRow>> {
    if q.partition == "" then Err
    else Ok(Put(t, KeyOf(q), NewFixed(uuid(|t|), parentId, q), LivePatch(q)))
  }

  function UpsertRow(t: seq<QRow>, uuid: Supply, q: Queue): Result<seq<QRow>> {
    match Lookup(t, q.parent, q.partition)
    case Err => Err
    case Ok(parentId) => UpsertExec(t, uuid, q, parentId)
  }

  function UpsertAll(t: seq<QRow>, uuid: Supply, qs: seq<Queue>, budget: nat): Outcome
    decreases qs
  {
    if qs == [] then Outcome(t, budget, true)
    else if budget == 0 || UpsertRow(t, uuid, qs[0]).Err? then Outcome(t, budget, false)
    else UpsertAll(UpsertRow(t, uuid, qs[0]).value, uuid, qs[1..], budget - 1)
  }

  // ----- AddQueues -----

  function ForestSize(qs: seq<QueueTree>): nat {
    if qs == [] then 0 else 1 + ForestSize(qs[0].children) + ForestSize(qs[1..])
  }

  /**
   A queue writes its partition over that of its children, which the scheduler leaves empty.
   `over` is the partition so written over a list of queues; None for the list the caller passed.
   */
  function At(q: Queue, over: Option<string>): Queue {
    if over.Some? then q.(partition := over.value) else q
  }

  /** The parent id in force for a queue: the one passed or resolved before, else the one its Parent names. */
  function Resolve(t: seq<QRow>, parentId: Option<Id>, q: Queue): Result<Option<Id>> {
    if parentId.Some? then Ok(parentId) else Lookup(t, q.parent, q.partition)
  }

  /** The parent resolves, the partition is set, the database answers and the unique index has no such key. */
  predicate CanInsert(t: seq<QRow>, parentId: Option<Id>, q: Queue, budget: nat) {
    Resolve(t, parentId, q).Ok? && q.partition != "" && budget > 0 && Find(t, KeyOf(q)).None?
  }

  /**
   AddQueues(parentId, queues).  A parent id resolved for one queue is kept for the queues
   after it, because the loop assigns to its own parameter.
   */
  function AddForest(t: seq<QRow>, uuid: Supply, parentId: Option<Id>, qs: seq<QueueTree>, over: Option<string>,
                     budget: nat): Outcome
    decreases qs
  {
    if qs == [] then Outcome(t, budget, true) else
    var q := At(qs[0].queue, over);
    if !CanInsert(t, parentId, q, budget) then Outcome(t, budget, false)
    else
      var p := Resolve(t, parentId, q).value;
      var kids := AddForest(t + [NewRow(uuid(|t|), p, q)], uuid, Some(uuid(|t|)), qs[0].children, Some(q.partition), budget - 1);
      if !kids.ok then kids
      else AddForest(kids.table, uuid, p, qs[1..], over, kids.budget)
  }

  // ----- DeleteQueues -----

  /** A queue as the readers return it. */
  datatype Tree = Tree(row: QRow, children: seq<Tree>)

  function MarkRow(r: QRow, id: Id): QRow {
    if r.fixed.id == id then r.(fixed := r.fixed.(deleted := true)) else r
  }

  /** UPDATE queues SET deleted_at WHERE id; touches no row when no row has the id. */
  function Mark(t: seq<QRow>, id: Id): (r: seq<QRow>)
    ensures |r| == |t|
    ensures forall i :: 0 <= i < |t| ==> r[i] == MarkRow(t[i], id)
  {
    seq(|t|, i requires 0 <= i < |t| => MarkRow(t[i], id))
  }

  /** DeleteQueues: the children of a queue before the queue itself. */
  function DeleteForest(t: seq<QRow>, f: seq<Tree>, budget: nat): Outcome
    decreases f
  {
    if f == [] then Outcome(t, budget, true) else
    var kids := DeleteForest(t, f[0].children, budget);
    if !kids.ok then kids
    else if kids.budget == 0 then Outcome(kids.table, 0, false)
    else DeleteForest(Mark(kids.table, f[0].row.fixed.id), f[1..], kids.budget - 1)
  }
}
