/**
 Any number of UpsertQueues, AddQueues, DeleteQueues and UpsertApplications calls in flight at once.
 There is no transaction: a call looks an id up in one statement and uses it in a later one, and
 the statements of other calls may come between.
 */
module Overlap {
  import opened Options
  import opened UpsertTable
  import opened QueueModel
  import opened AppModel
  import opened StoreRuns
  import opened QueueCalls

  // ----- calls in flight -----

  /** One level of AddQueues: the parent id in force and the queues still to write. */
  datatype Frame = Frame(parentId: Option<Id>, rest: seq<QueueTree>, over: Option<string>)

  /** Where a call stands; `held` is the id it looked up for its next write. */
  datatype InFlight =
    | Upserting(qs: seq<Queue>, held: Option<Option<Id>>)
    | Adding(stack: seq<Frame>, held: Option<Option<Id>>)
    | Deleting(ids: seq<Id>)
    | Storing(apps: seq<App>, held: Option<Option<Id>>)

  datatype World = World(store: Store, calls: map<nat, InFlight>)

  /** A call arrives, executes its next statement, or breaks off because that statement failed. */
  datatype Step = Begin(n: nat, call: Call) | Advance(n: nat) | Abort(n: nat)

  /** A call before its first statement.  Where it breaks off is an Abort step, so its budget is not used. */
  function Entry(c: Call): InFlight {
    match c
    case UpsertQueuesCall(qs, _) => Upserting(qs, None)
    case AddQueuesCall(p, qs, _) => Adding([Frame(p, qs, None)], None)
    case DeleteQueuesCall(f, _) => Deleting(PostOrder(f))
    case UpsertApplicationsCall(apps, _) => Storing(apps, None)
  }

  /** The write a call is about to execute, if it has the id it needs. */
  function Pending(c: InFlight): Option<Stmt> {
    match c
    case Upserting(qs, held) => if qs != [] && held.Some? then Some(UpsertQueue(qs[0], held.value)) else None
    case Adding(stack, held) =>
      if stack != [] && stack[0].rest != [] && held.Some? then
        Some(InsertQueue(At(stack[0].rest[0].queue, stack[0].over), held.value))
      else None
    case Deleting(ids) => if ids != [] then Some(DeleteQueue(ids[0])) else None
    case Storing(apps, held) => if apps != [] && held.Some? then Some(UpsertApp(apps[0], held.value)) else None
  }

  predicate Accepts(s: Store, stmt: Stmt) {
    match stmt
    case UpsertQueue(q, _) => q.partition != ""
    case InsertQueue(q, _) => q.partition != "" && Find(s.queues, KeyOf(q)).None?
    case DeleteQueue(_) => true
    case UpsertApp(_, id) => id.Some?
  }

  /** The call after its write.  The INSERT of AddQueues returns the id under which the children go next. */
  function Resume(s: Store, u: Supplies, c: InFlight): InFlight
    requires Pending(c).Some?
  {
    match c
    case Upserting(qs, _) => Upserting(qs[1..], None)
    case Adding(stack, held) =>
      var (top, q) := (stack[0], At(stack[0].rest[0].queue, stack[0].over));
      var below := Frame(Some(u.queue(|s.queues|)), top.rest[0].children, Some(q.partition));
      Adding([below, Frame(held.value, top.rest[1..], top.over)] + stack[1..], None)
    case Deleting(ids) => Deleting(ids[1..])
    case Storing(apps, _) => Storing(apps[1..], None)
  }

  /** What a call without a pending write does: look an id up or leave a level; None if it returns. */
  function Prepare(s: Store, c: InFlight): Option<InFlight> {
    match c
    case Upserting(qs, _) =>
      if qs == [] then None
      else (match Lookup(s.queues, qs[0].parent, qs[0].partition) case Ok(id) => Some(Upserting(qs, Some(id))) case Err => None)
    case Adding(stack, _) =>
      if stack == [] then None
      else if stack[0].rest == [] then Some(Adding(stack[1..], None))
      else (match Resolve(s.queues, stack[0].parentId, At(stack[0].rest[0].queue, stack[0].over))
            case Ok(id) => Some(Adding(stack, Some(id))) case Err => None)
    case Deleting(_) => None
    case Storing(apps, _) =>
      if apps == [] then None
      else (match Lookup(s.queues, apps[0].queueName, apps[0].partition) case Ok(id) => Some(Storing(apps, Some(id))) case Err => None)
  }

  function Next(w: World, u: Supplies, step: Step): World {
    match step
    case Begin(n, call) => if n in w.calls then w else w.(calls := w.calls[n := Entry(call)])
    case Abort(n) => w.(calls := w.calls - {n})
    case Advance(n) =>
      if n !in w.calls then w else
      match Pending(w.calls[n])
      case Some(stmt) =>
        World(Exec(w.store, u, stmt),
              if Accepts(w.store, stmt) then w.calls[n := Resume(w.store, u, w.calls[n])] else w.calls - {n})
      case None =>
        (match Prepare(w.store, w.calls[n])
         case Some(c) => w.(calls := w.calls[n := c])
         case None => w.(calls := w.calls - {n}))
  }

  function Play(w: World, u: Supplies, steps: seq<Step>): World
    decreases steps
  {
    if steps == [] then w else Play(Next(w, u, steps[0]), u, steps[1..])
  }

  /** The write a step executes. */
  function Writes(w: World, step: Step): seq<Stmt> {
    if step.Advance? && step.n in w.calls && Pending(w.calls[step.n]).Some? then [Pending(w.calls[step.n]).value] else []
  }

  /** The writes of all calls in the order the database executes them. */
  function Trace(w: World, u: Supplies, steps: seq<Step>): seq<Stmt>
    decreases steps
  {
    if steps == [] then [] else Writes(w, steps[0]) + Trace(Next(w, u, steps[0]), u, steps[1..])
  }

  ghost predicate StepsAlong(P: (World, Step) -> bool, w: World, u: Supplies, steps: seq<Step>)
    decreases steps
  {
    steps == [] || (P(w, steps[0]) && StepsAlong(P, Next(w, u, steps[0]), u, steps[1..]))
  }

  lemma StepIsRun(w: World, u: Supplies, step: Step)
    ensures Next(w, u, step).store == Run(w.store, u, Writes(w, step))
  {
    hide Exec;
    var stmts := Writes(w, step);
    if stmts != [] {
      assert stmts[1..] == [];
      assert Run(Exec(w.store, u, stmts[0]), u, []) == Exec(w.store, u, stmts[0]);
    }
  }

  // ----- the ids calls hold -----

  /** The call holds this id as the parent of rows it may still write. */
  ghost predicate Mentions(c: InFlight, id: Id) {
    match c
    case Upserting(_, held) => held == Some(Some(id))
    case Adding(stack, held) => held == Some(Some(id)) || exists k :: 0 <= k < |stack| && stack[k].parentId == Some(id)
    case Deleting(_) => false
    case Storing(_, _) => false
  }

  ghost predicate HasLive(t: seq<QRow>, id: Id) {
    exists j :: 0 <= j < |t| && t[j].fixed.id == id && !t[j].fixed.deleted
  }

  /** After a write the call holds no id it did not hold, except that of the row just inserted. */
  lemma ResumeMentions(s: Store, u: Supplies, c: InFlight, id: Id)
    requires Pending(c).Some? && Accepts(s, Pending(c).value) && Mentions(Resume(s, u, c), id)
    ensures Mentions(c, id) || HasLive(Exec(s, u, Pending(c).value).queues, id)
  {
    if c.Adding? && !Mentions(c, id) {
      var (stack, stack') := (c.stack, Resume(s, u, c).stack);
      assert forall k :: 2 <= k < |stack'| ==> stack'[k] == stack[k - 1];
      var k :| 0 <= k < |stack'| && stack'[k].parentId == Some(id);
      assert k == 0 && id == u.queue(|s.queues|);
      var t' := Exec(s, u, Pending(c).value).queues;
      assert t'[|s.queues|].fixed.id == id && !t'[|s.queues|].fixed.deleted;
    }
  }

  /** An id a call takes up was held before or is that of a live row. */
  lemma PrepareMentions(s: Store, c: InFlight, id: Id)
    requires Prepare(s, c).Some? && Mentions(Prepare(s, c).value, id)
    ensures Mentions(c, id) || HasLive(s.queues, id)
  {
    if c.Adding? && c.stack != [] {
      var stack' := Prepare(s, c).value.stack;
      assert forall k :: 0 <= k < |stack'| && stack' == c.stack[1..] ==> stack'[k] == c.stack[k + 1];
    }
  }

  /** The ids a call holds are those of stored rows, and for an application that of its own queue. */
  ghost predicate Grounded(s: Store, c: InFlight) {
    && (forall id :: Mentions(c, id) ==> HasId(s.queues, id))
    && (c.Storing? && Pending(c).Some? ==> Sound(s, Pending(c).value))
  }

  ghost predicate AllGrounded(w: World) {
    forall n :: n in w.calls ==> Grounded(w.store, w.calls[n])
  }

  lemma GroundedStays(s: Store, u: Supplies, stmt: Stmt, c: InFlight)
    requires Grounded(s, c)
    ensures Grounded(Exec(s, u, stmt), c)
  {
    hide Exec;
    hide Mentions;
    var s' := Exec(s, u, stmt);
    ExecExtends(s, u, stmt);
    forall id | Mentions(c, id) ensures HasId(s'.queues, id) {
      assert HasId(s.queues, id);
      var j :| 0 <= j < |s.queues| && s.queues[j].fixed.id == id;
      assert QueueRowKept(s.queues[j], s'.queues[j]);
    }
    if c.Storing? && Pending(c).Some? && Pending(c).value.queueId.Some? {
      var a := c.apps[0];
      KeyAndIdStays(s, s', QueueKey(a.partition, a.queueName), Pending(c).value.queueId.value);
    }
  }

  lemma PendingIsSound(s: Store, c: InFlight)
    requires Grounded(s, c) && Pending(c).Some?
    ensures Sound(s, Pending(c).value)
  {
    var stmt := Pending(c).value;
    if (stmt.UpsertQueue? || stmt.InsertQueue?) && stmt.parentId.Some? {
      assert Mentions(c, stmt.parentId.value);
    }
  }

  lemma ResumeGrounded(s: Store, u: Supplies, c: InFlight)
    requires Grounded(s, c) && Pending(c).Some? && Accepts(s, Pending(c).value)
    ensures Grounded(Exec(s, u, Pending(c).value), Resume(s, u, c))
  {
    hide Exec;
    hide Mentions;
    var (s', c') := (Exec(s, u, Pending(c).value), Resume(s, u, c));
    GroundedStays(s, u, Pending(c).value, c);
    forall id | Mentions(c', id) ensures HasId(s'.queues, id) {
      ResumeMentions(s, u, c, id);
    }
  }

  lemma PrepareGrounded(s: Store, c: InFlight)
    requires Grounded(s, c) && Prepare(s, c).Some?
    ensures Grounded(s, Prepare(s, c).value)
  {
    hide Mentions;
    var c' := Prepare(s, c).value;
    forall id | Mentions(c', id) ensures HasId(s.queues, id) {
      PrepareMentions(s, c, id);
    }
  }

  /** An explicit parent id names a stored queue when the call arrives. */
  ghost predicate Known(w: World, step: Step) {
    step.Begin? && step.n !in w.calls ==> KnownParent(w.store, step.call)
  }

  lemma EntryGrounded(s: Store, c: Call)
    requires KnownParent(s, c)
    ensures Grounded(s, Entry(c))
  {
  }

  /** Every write is sound when it is executed, however old the id it carries. */
  lemma StepIsSound(w: World, u: Supplies, step: Step)
    requires AllGrounded(w) && Known(w, step)
    ensures AllGrounded(Next(w, u, step)) && Along(Sound, w.store, u, Writes(w, step))
  {
    hide Exec;
    hide Grounded;
    hide Sound;
    hide Prepare;
    hide Resume;
    var w' := Next(w, u, step);
    var stmts := Writes(w, step);
    if step.Begin? && step.n !in w.calls {
      EntryGrounded(w.store, step.call);
    } else if stmts != [] {
      PendingIsSound(w.store, w.calls[step.n]);
      assert stmts[1..] == [];
      forall n | n in w'.calls ensures Grounded(w'.store, w'.calls[n]) {
        if n == step.n {
          ResumeGrounded(w.store, u, w.calls[n]);
        } else {
          GroundedStays(w.store, u, stmts[0], w.calls[n]);
        }
      }
    } else if step.Advance? && step.n in w.calls && Prepare(w.store, w.calls[step.n]).Some? {
      PrepareGrounded(w.store, w.calls[step.n]);
    }
  }

  /** Every interleaving of calls is a run of sound statements. */
  lemma {:induction false} InterleavingIsRun(w: World, u: Supplies, steps: seq<Step>)
    requires AllGrounded(w) && StepsAlong(Known, w, u, steps)
    ensures Play(w, u, steps).store == Run(w.store, u, Trace(w, u, steps))
    ensures Along(Sound, w.store, u, Trace(w, u, steps))
    decreases steps
  {
    hide Next;
    hide AllGrounded;
    hide Writes;
    hide Known;
    if steps != [] {
      var (w1, first) := (Next(w, u, steps[0]), Writes(w, steps[0]));
      var rest := Trace(w1, u, steps[1..]);
      StepIsRun(w, u, steps[0]);
      StepIsSound(w, u, steps[0]);
      InterleavingIsRun(w1, u, steps[1..]);
      RunAppend(w.store, u, first, rest);
      AlongAppend(Sound, w.store, u, first, rest);
    }
  }

  /**
   However the statements of any number of calls interleave and wherever each breaks off, parent links
   form a forest and every application points at the row of its own queue.
   */
  lemma OverlapKeepsForestAndReferences(w: World, u: Supplies, steps: seq<Step>)
    requires Inv(w.store, u) && w.calls == map[] && StepsAlong(Known, w, u, steps)
    ensures Inv(Play(w, u, steps).store, u)
  {
    InterleavingIsRun(w, u, steps);
    RunsKeepForestAndReferences(w.store, u, Trace(w, u, steps));
  }

  // ----- liveness of ancestors -----

  predicate Inserting(c: InFlight) {
    c.Upserting? || c.Adding?
  }

  /** Parents a call holds are live; the ids a DeleteQueues has left list each queue's live children before it. */
  ghost predicate Orderly(s: Store, c: InFlight) {
    && (forall id :: Mentions(c, id) ==> HasLive(s.queues, id))
    && (c.Deleting? ==> ChildrenFirst(s.queues, c.ids))
  }

  /** No DeleteQueues is in flight together with an UpsertQueues or AddQueues. */
  ghost predicate Apart(w: World) {
    forall n, m :: n in w.calls && m in w.calls ==> !(w.calls[n].Deleting? && Inserting(w.calls[m]))
  }

  ghost predicate AllOrderly(w: World) {
    Apart(w) && forall n :: n in w.calls ==> Orderly(w.store, w.calls[n])
  }

  /**
   DeleteQueues receives complete stored subtrees and explicit parents are live when the call arrives, and a
   DeleteQueues arrives only while no queue writer is in flight, and the other way round.
   */
  ghost predicate Exclusive(w: World, step: Step) {
    step.Begin? && step.n !in w.calls ==>
      && Disciplined(w.store, step.call)
      && Apart(w.(calls := w.calls[step.n := Entry(step.call)]))
  }

  /** A write of a call that may overlap with this one leaves it orderly. */
  lemma OrderlyStays(s: Store, u: Supplies, stmt: Stmt, c: InFlight)
    requires Orderly(s, c)
    requires c.Deleting? ==> !stmt.UpsertQueue? && !stmt.InsertQueue?
    requires Inserting(c) ==> !stmt.DeleteQueue?
    ensures Orderly(Exec(s, u, stmt), c)
  {
    hide Mentions;
    var (t, t') := (s.queues, Exec(s, u, stmt).queues);
    forall id | Mentions(c, id) ensures HasLive(t', id) {
      MentionsInserting(c, id);
      assert HasLive(t, id);
      var j :| 0 <= j < |t| && t[j].fixed.id == id && !t[j].fixed.deleted;
      assert t'[j].fixed == t[j].fixed;
    }
    if c.Deleting? {
      assert forall i :: 0 <= i < |t'| ==>
          t'[i].fixed.id == t[i].fixed.id && t'[i].fixed.parentId == t[i].fixed.parentId &&
          (t[i].fixed.deleted ==> t'[i].fixed.deleted);
    }
  }

  lemma MentionsInserting(c: InFlight, id: Id)
    requires Mentions(c, id)
    ensures Inserting(c)
  {
  }

  /** The next write of an orderly call is careful. */
  lemma PendingIsCareful(s: Store, u: Supplies, c: InFlight)
    requires Forest(s.queues, u.queue) && Injective(u.queue) && Grounded(s, c) && Orderly(s, c) && Pending(c).Some?
    ensures Careful(s, Pending(c).value)
  {
    var stmt := Pending(c).value;
    PendingIsSound(s, c);
    if Inserting(c) && stmt.parentId.Some? {
      assert Mentions(c, stmt.parentId.value);
      LiveIs(s.queues, u.queue, stmt.parentId.value);
    }
  }

  lemma LiveIs(t: seq<QRow>, uuid: Supply, id: Id)
    requires Forest(t, uuid) && Injective(uuid) && HasLive(t, id)
    ensures Live(t, Some(id))
  {
    var j :| 0 <= j < |t| && t[j].fixed.id == id && !t[j].fixed.deleted;
    forall i | 0 <= i < |t| && t[i].fixed.id == id ensures i == j {
      OneRowPerId(t, uuid, i, j);
    }
  }

  lemma ResumeOrderly(s: Store, u: Supplies, c: InFlight)
    requires Orderly(s, c) && Pending(c).Some? && Accepts(s, Pending(c).value)
    ensures Orderly(Exec(s, u, Pending(c).value), Resume(s, u, c))
  {
    hide Mentions;
    var (stmt, c') := (Pending(c).value, Resume(s, u, c));
    var (t, t') := (s.queues, Exec(s, u, stmt).queues);
    if c.Deleting? {
      MarkedFirst(t, c.ids);
      forall id ensures !Mentions(c', id) {
        if Mentions(c', id) {
          MentionsInserting(c', id);
          assert false;
        }
      }
    } else {
      OrderlyStays(s, u, stmt, c);
      forall id | Mentions(c', id) ensures HasLive(t', id) {
        ResumeMentions(s, u, c, id);
      }
    }
  }

  /** Marking the first id leaves the rest in order. */
  lemma MarkedFirst(t: seq<QRow>, ids: seq<Id>)
    requires ids != [] && ChildrenFirst(t, ids)
    ensures ChildrenFirst(Mark(t, ids[0]), ids[1..])
  {
    var t' := Mark(t, ids[0]);
    forall k, i | 0 <= k < |ids[1..]| && 0 <= i < |t'| && t'[i].fixed.parentId == Some(ids[1..][k]) && !t'[i].fixed.deleted
      ensures t'[i].fixed.id in ids[1..][..k]
    {
      assert t'[i] == MarkRow(t[i], ids[0]);
      assert t[i].fixed.id in ids[..k + 1];
      assert ids[..k + 1] == [ids[0]] + ids[1..][..k];
    }
  }

  lemma PrepareOrderly(s: Store, c: InFlight)
    requires Orderly(s, c) && Prepare(s, c).Some?
    ensures Orderly(s, Prepare(s, c).value)
  {
    hide Mentions;
    var c' := Prepare(s, c).value;
    forall id | Mentions(c', id) ensures HasLive(s.queues, id) {
      PrepareMentions(s, c, id);
    }
  }

  lemma EntryOrderly(s: Store, u: Supplies, c: Call)
    requires Forest(s.queues, u.queue) && Injective(u.queue) && Disciplined(s, c)
    ensures Orderly(s, Entry(c))
  {
    if c.DeleteQueuesCall? {
      CompleteIsChildrenFirst(s.queues, c.f);
    }
    if c.AddQueuesCall? && c.parentId.Some? {
      var j :| 0 <= j < |s.queues| && s.queues[j].fixed.id == c.parentId.value;
      assert !s.queues[j].fixed.deleted;
    }
  }

  /** What a write and the calls it may overlap with are to each other. */
  lemma ApartWrites(w: World, n: nat, m: nat)
    requires Apart(w) && n in w.calls && m in w.calls && Pending(w.calls[n]).Some?
    ensures var stmt := Pending(w.calls[n]).value;
            && (w.calls[m].Deleting? ==> !stmt.UpsertQueue? && !stmt.InsertQueue?)
            && (Inserting(w.calls[m]) ==> !stmt.DeleteQueue?)
  {
  }

  /** A call keeps its kind. */
  lemma ApartStays(w: World, u: Supplies, step: Step)
    requires Apart(w) && Exclusive(w, step)
    ensures Apart(Next(w, u, step))
  {
    hide Exec;
    hide Disciplined;
  }

  lemma StepIsCareful(w: World, u: Supplies, step: Step)
    requires Forest(w.store.queues, u.queue) && Injective(u.queue)
    requires AllGrounded(w) && AllOrderly(w) && Exclusive(w, step)
    ensures AllOrderly(Next(w, u, step)) && Along(Careful, w.store, u, Writes(w, step))
  {
    hide Exec;
    hide Orderly;
    hide Grounded;
    hide Careful;
    hide Prepare;
    hide Resume;
    hide Disciplined;
    var w' := Next(w, u, step);
    var stmts := Writes(w, step);
    ApartStays(w, u, step);
    hide Apart;
    if step.Begin? && step.n !in w.calls {
      EntryOrderly(w.store, u, step.call);
    } else if stmts != [] {
      PendingIsCareful(w.store, u, w.calls[step.n]);
      assert stmts[1..] == [];
      forall n | n in w'.calls ensures Orderly(w'.store, w'.calls[n]) {
        if n == step.n {
          ResumeOrderly(w.store, u, w.calls[n]);
        } else {
          ApartWrites(w, step.n, n);
          OrderlyStays(w.store, u, stmts[0], w.calls[n]);
        }
      }
    } else if step.Advance? && step.n in w.calls && Prepare(w.store, w.calls[step.n]).Some? {
      PrepareOrderly(w.store, w.calls[step.n]);
    }
  }

  lemma {:induction false} InterleavingIsCareful(w: World, u: Supplies, steps: seq<Step>)
    requires Forest(w.store.queues, u.queue) && Injective(u.queue)
    requires AllGrounded(w) && AllOrderly(w) && StepsAlong(Exclusive, w, u, steps)
    ensures StepsAlong(Known, w, u, steps) && Along(Careful, w.store, u, Trace(w, u, steps))
    decreases steps
  {
    hide Next;
    hide AllGrounded;
    hide AllOrderly;
    hide Writes;
    hide Forest;
    if steps != [] {
      var (w1, first) := (Next(w, u, steps[0]), Writes(w, steps[0]));
      StepIsRun(w, u, steps[0]);
      StepIsSound(w, u, steps[0]);
      StepIsCareful(w, u, steps[0]);
      RunKeepsForest(w.store, u, first);
      InterleavingIsCareful(w1, u, steps[1..]);
      AlongAppend(Careful, w.store, u, first, Trace(w1, u, steps[1..]));
    }
  }

  /**
   Ancestor liveness for overlapping calls: if DeleteQueues calls and queue writers do not overlap with each
   other, though any number of either kind may overlap among themselves and with UpsertApplications, then in
   every state of every interleaving no live queue lies below a deleted one.
   */
  lemma OverlapKeepsAncestorsLive(w: World, u: Supplies, steps: seq<Step>, path: seq<nat>)
    requires Inv(w.store, u) && Injective(u.queue) && Alive(w.store.queues) && w.calls == map[]
    requires StepsAlong(Exclusive, w, u, steps)
    ensures AliveThroughout(w.store, u, Trace(w, u, steps))
    ensures var t := Play(w, u, steps).store.queues;
            |path| > 0 && Chain(t, path) && t[path[|path| - 1]].fixed.deleted ==> t[path[0]].fixed.deleted
  {
    hide Trace;
    hide Alive;
    InterleavingIsCareful(w, u, steps);
    InterleavingIsRun(w, u, steps);
    var stmts := Trace(w, u, steps);
    RunsKeepAliveExactly(w.store, u, stmts);
    RunsKeepAlive(w.store, u, stmts);
    var t := Run(w.store, u, stmts).queues;
    if |path| > 0 && Chain(t, path) && t[path[|path| - 1]].fixed.deleted {
      NoLiveQueueBelowDeleted(t, path);
    }
  }

  /**
   Without that condition: every interleaving keeps ancestors live throughout exactly when each row is inserted
   under a parent that is live, and deleted when its children are, at the moment of the statement.
   */
  lemma OverlapKeepsAliveExactly(w: World, u: Supplies, steps: seq<Step>)
    requires Inv(w.store, u) && Injective(u.queue) && Alive(w.store.queues) && w.calls == map[]
    requires StepsAlong(Known, w, u, steps)
    ensures AliveThroughout(w.store, u, Trace(w, u, steps)) <==> Along(Careful, w.store, u, Trace(w, u, steps))
  {
    InterleavingIsRun(w, u, steps);
    RunsKeepAliveExactly(w.store, u, Trace(w, u, steps));
  }

  /** An UpsertQueues that looked a live parent up, the complete DeleteQueues of that parent, and then the insert. */
  function OrphaningSteps(parent: QRow, child: Queue): seq<Step> {
    [Begin(0, UpsertQueuesCall([child], 1)), Advance(0),
     Begin(1, DeleteQueuesCall([Tree(parent, [])], 1)), Advance(1), Advance(0)]
  }

  lemma PlayUnfold(w: World, u: Supplies, first: Step, rest: seq<Step>)
    ensures Play(w, u, [first] + rest) == Play(Next(w, u, first), u, rest)
  {
    hide Next;
    assert ([first] + rest)[1..] == rest;
  }

  /** What the three statements of such an overlap see and leave. */
  lemma OrphaningTable(s: Store, u: Supplies, i: nat, child: Queue)
    requires UniqueKeys(s.queues) && i < |s.queues| && !s.queues[i].fixed.deleted
    requires child.parent == s.queues[i].key.name != "" && child.partition == s.queues[i].key.partition != ""
    requires Find(s.queues, KeyOf(child)).None?
    ensures var (t, id) := (s.queues, s.queues[i].fixed.id);
            var s1 := Exec(s, u, DeleteQueue(id));
            && Lookup(t, child.parent, child.partition) == Ok(Some(id))
            && s1 == s.(queues := Mark(t, id))
            && Exec(s1, u, UpsertQueue(child, Some(id))).queues == Mark(t, id) + [NewRow(u.queue(|t|), Some(id), child)]
  {
    FindIs(s.queues, QueueKey(child.partition, child.parent), i);
    assert Find(Mark(s.queues, s.queues[i].fixed.id), KeyOf(child)).None?;
  }

  lemma LeafIsComplete(t: seq<QRow>, i: nat)
    requires i < |t| && Childless(t, t[i].fixed.id)
    ensures Complete(t, [Tree(t[i], [])]) && PostOrder([Tree(t[i], [])]) == [t[i].fixed.id]
  {
    var f := [Tree(t[i], [])];
    assert Complete(t, f[0].children);
    assert PostOrder(f[0].children) == [] && f[1..] == [];
  }

  /** Two disciplined calls that overlap so leave a live queue under a deleted one, in any table with a live childless queue. */
  lemma OverlapOrphansQueue(s: Store, u: Supplies, i: nat, child: Queue)
    requires UniqueKeys(s.queues) && i < |s.queues|
    requires var parent := s.queues[i];
             && !parent.fixed.deleted && Childless(s.queues, parent.fixed.id)
             && child.parent == parent.key.name != "" && child.partition == parent.key.partition != ""
    requires Find(s.queues, KeyOf(child)).None?
    ensures Disciplined(s, UpsertQueuesCall([child], 1)) && Disciplined(s, DeleteQueuesCall([Tree(s.queues[i], [])], 1))
    ensures var t := Play(World(s, map[]), u, OrphaningSteps(s.queues[i], child)).store.queues;
            && |t| == |s.queues| + 1 && t[i].fixed.deleted
            && !t[|s.queues|].fixed.deleted && t[|s.queues|].fixed.parentId == Some(t[i].fixed.id)
  {
    hide Play;
    hide Exec;
    hide Lookup;
    hide Find;
    hide Complete;
    hide PostOrder;
    var (parent, id) := (s.queues[i], s.queues[i].fixed.id);
    var up, delete := UpsertQueuesCall([child], 1), DeleteQueuesCall([Tree(parent, [])], 1);
    LeafIsComplete(s.queues, i);
    OrphaningTable(s, u, i, child);
    var held := Upserting([child], Some(Some(id)));
    var w1 := World(s, map[0 := Upserting([child], None)]);
    var w2 := World(s, map[0 := held]);
    var w3 := World(s, map[0 := held, 1 := Deleting([id])]);
    var w4 := Next(w3, u, Advance(1));
    assert Next(w1, u, Advance(0)) == w2;
    assert Next(w2, u, Begin(1, delete)) == w3;
    assert w4.calls[0] == held;
    FiveSteps(World(s, map[]), u, Begin(0, up), Advance(0), Begin(1, delete), Advance(1), Advance(0));
  }

  lemma FiveSteps(w: World, u: Supplies, a: Step, b: Step, c: Step, d: Step, e: Step)
    ensures Play(w, u, [a, b, c, d, e]) == Next(Next(Next(Next(Next(w, u, a), u, b), u, c), u, d), u, e)
  {
    hide Next;
    hide Play;
    assert [a, b, c, d, e] == [a] + ([b] + ([c] + ([d] + ([e] + []))));
    var w1 := Next(w, u, a);
    var w2 := Next(w1, u, b);
    var w3 := Next(w2, u, c);
    var w4 := Next(w3, u, d);
    PlayUnfold(w, u, a, [b] + ([c] + ([d] + ([e] + []))));
    PlayUnfold(w1, u, b, [c] + ([d] + ([e] + [])));
    PlayUnfold(w2, u, c, [d] + ([e] + []));
    PlayUnfold(w3, u, d, [e] + []);
    PlayUnfold(w4, u, e, []);
    PlayNothing(Next(w4, u, e), u);
  }

  lemma PlayNothing(w: World, u: Supplies)
    ensures Play(w, u, []) == w
  {
  }

  // ----- partitions -----

  /** The queues a level of AddQueues has left lie in the partition of the parent in force there. */
  ghost predicate FrameInPlace(t: seq<QRow>, f: Frame) {
    OnePartition(t, f.parentId, f.rest, f.over)
  }

  /** So do those of every level, and the row about to be written lies in the partition of its parent. */
  ghost predicate InPlace(s: Store, c: InFlight) {
    && (c.Adding? ==> forall k :: 0 <= k < |c.stack| ==> FrameInPlace(s.queues, c.stack[k]))
    && (Inserting(c) && Pending(c).Some? ==>
          InPartition(s.queues, Pending(c).value.parentId, Pending(c).value.q.partition))
    && (c.Adding? && Pending(c).Some? ==> FrameInPlace(s.queues, Frame(c.held.value, c.stack[0].rest[1..], c.stack[0].over)))
  }

  ghost predicate AllInPlace(w: World) {
    forall n :: n in w.calls ==> InPlace(w.store, w.calls[n])
  }

  ghost predicate OnOnePartition(w: World, step: Step) {
    step.Begin? && step.n !in w.calls ==> Partitioned(w.store, step.call)
  }

  lemma PartitionStays(s: Store, u: Supplies, stmt: Stmt, p: Option<Id>, x: string)
    requires Forest(s.queues, u.queue) && Injective(u.queue) && Sound(s, stmt)
    requires (p.Some? ==> HasId(s.queues, p.value)) && InPartition(s.queues, p, x)
    ensures InPartition(Exec(s, u, stmt).queues, p, x)
  {
    hide Exec;
    var (t, t') := (s.queues, Exec(s, u, stmt).queues);
    ExecExtends(s, u, stmt);
    ExecKeepsForest(s, u, stmt);
    if p.Some? {
      var i :| 0 <= i < |t| && t[i].fixed.id == p.value;
      assert QueueRowKept(t[i], t'[i]);
      forall j | 0 <= j < |t'| && p == Some(t'[j].fixed.id) ensures j == i {
        OneRowPerId(t', u.queue, i, j);
      }
    }
  }

  lemma FrameStays(s: Store, u: Supplies, stmt: Stmt, f: Frame)
    requires Forest(s.queues, u.queue) && Injective(u.queue) && Sound(s, stmt)
    requires (f.parentId.Some? ==> HasId(s.queues, f.parentId.value)) && FrameInPlace(s.queues, f)
    ensures FrameInPlace(Exec(s, u, stmt).queues, f)
  {
    hide Exec;
    hide InPartition;
    hide SteadyPartition;
    if f.parentId.Some? {
      forall k | 0 <= k < |f.rest| ensures InPartition(Exec(s, u, stmt).queues, f.parentId, At(f.rest[k].queue, f.over).partition) {
        PartitionStays(s, u, stmt, f.parentId, At(f.rest[k].queue, f.over).partition);
      }
    }
  }

  lemma InPlaceStays(s: Store, u: Supplies, stmt: Stmt, c: InFlight)
    requires Forest(s.queues, u.queue) && Injective(u.queue) && Sound(s, stmt) && Grounded(s, c) && InPlace(s, c)
    ensures InPlace(Exec(s, u, stmt), c)
  {
    hide Exec;
    hide FrameInPlace;
    hide InPartition;
    hide Sound;
    hide Forest;
    var s' := Exec(s, u, stmt);
    if c.Adding? {
      forall k | 0 <= k < |c.stack| ensures FrameInPlace(s'.queues, c.stack[k]) {
        assert c.stack[k].parentId.Some? ==> Mentions(c, c.stack[k].parentId.value);
        FrameStays(s, u, stmt, c.stack[k]);
      }
    }
    if Inserting(c) && Pending(c).Some? {
      assert c.held.value.Some? ==> Mentions(c, c.held.value.value);
      PartitionStays(s, u, stmt, c.held.value, Pending(c).value.q.partition);
      if c.Adding? {
        FrameStays(s, u, stmt, Frame(c.held.value, c.stack[0].rest[1..], c.stack[0].over));
      }
    }
  }

  lemma PendingIsLocal(s: Store, c: InFlight)
    requires Grounded(s, c) && InPlace(s, c) && Pending(c).Some?
    ensures Local(s, Pending(c).value)
  {
    PendingIsSound(s, c);
  }

  lemma ResumeInPlace(s: Store, u: Supplies, c: InFlight)
    requires Forest(s.queues, u.queue) && Injective(u.queue) && Grounded(s, c) && InPlace(s, c)
    requires Pending(c).Some? && Accepts(s, Pending(c).value)
    ensures InPlace(Exec(s, u, Pending(c).value), Resume(s, u, c))
  {
    hide FrameInPlace;
    hide Forest;
    hide Grounded;
    hide Sound;
    hide Exec;
    var (stmt, s') := (Pending(c).value, Exec(s, u, Pending(c).value));
    PendingIsSound(s, c);
    InPlaceStays(s, u, stmt, c);
    if c.Adding? {
      var stack' := Resume(s, u, c).stack;
      assert forall k :: 2 <= k < |stack'| ==> stack'[k] == c.stack[k - 1];
      NewFrameInPlace(s, u, stmt, c.stack[0].rest[0].children);
    }
  }

  lemma NewFrameInPlace(s: Store, u: Supplies, stmt: Stmt, children: seq<QueueTree>)
    requires Forest(s.queues, u.queue) && Injective(u.queue) && stmt.InsertQueue? && Sound(s, stmt) && Accepts(s, stmt)
    ensures FrameInPlace(Exec(s, u, stmt).queues, Frame(Some(u.queue(|s.queues|)), children, Some(stmt.q.partition)))
  {
    ExecKeepsForest(s, u, stmt);
    InsertsRow(s, u, stmt);
    NewParentIsGood(s.queues, u.queue, stmt.parentId, stmt.q);
  }

  lemma PrepareInPlace(s: Store, u: Supplies, c: InFlight)
    requires Forest(s.queues, u.queue) && Injective(u.queue) && Grounded(s, c) && InPlace(s, c) && Prepare(s, c).Some?
    ensures InPlace(s, Prepare(s, c).value)
  {
    hide InPartition;
    hide SteadyPartition;
    hide Forest;
    hide Lookup;
    var c' := Prepare(s, c).value;
    match c {
      case Upserting(qs, _) =>
        LookupIsGood(s.queues, u.queue, qs[0].parent, qs[0].partition);
      case Adding(stack, _) =>
        if stack[0].rest == [] {
          assert forall k :: 0 <= k < |c'.stack| ==> c'.stack[k] == stack[k + 1];
        } else {
          assert stack[0].parentId.Some? ==> Mentions(c, stack[0].parentId.value);
          assert FrameInPlace(s.queues, stack[0]);
          ResolvedIsGood(s.queues, u.queue, stack[0].parentId, stack[0].rest, stack[0].over);
        }
      case _ =>
    }
  }

  lemma StepIsLocal(w: World, u: Supplies, step: Step)
    requires Forest(w.store.queues, u.queue) && Injective(u.queue)
    requires AllGrounded(w) && AllInPlace(w) && OnOnePartition(w, step)
    ensures AllInPlace(Next(w, u, step)) && Along(Local, w.store, u, Writes(w, step))
  {
    hide Exec;
    hide Grounded;
    hide Local;
    hide Sound;
    hide Prepare;
    hide Resume;
    hide Forest;
    var w' := Next(w, u, step);
    var stmts := Writes(w, step);
    if step.Begin? && step.n !in w.calls {
      assert InPlace(w.store, Entry(step.call));
    } else if stmts != [] {
      PendingIsLocal(w.store, w.calls[step.n]);
      PendingIsSound(w.store, w.calls[step.n]);
      assert stmts[1..] == [];
      hide InPlace;
      forall n | n in w'.calls ensures InPlace(w'.store, w'.calls[n]) {
        if n == step.n {
          ResumeInPlace(w.store, u, w.calls[n]);
        } else {
          InPlaceStays(w.store, u, stmts[0], w.calls[n]);
        }
      }
    } else if step.Advance? && step.n in w.calls && Prepare(w.store, w.calls[step.n]).Some? {
      PrepareInPlace(w.store, u, w.calls[step.n]);
    }
  }

  lemma {:induction false} InterleavingIsLocal(w: World, u: Supplies, steps: seq<Step>)
    requires Forest(w.store.queues, u.queue) && Injective(u.queue)
    requires AllGrounded(w) && AllInPlace(w) && StepsAlong(OnOnePartition, w, u, steps)
    ensures StepsAlong(Known, w, u, steps) && Along(Local, w.store, u, Trace(w, u, steps))
    decreases steps
  {
    hide Next;
    hide AllGrounded;
    hide AllInPlace;
    hide Writes;
    hide Forest;
    if steps != [] {
      var (w1, first) := (Next(w, u, steps[0]), Writes(w, steps[0]));
      StepIsRun(w, u, steps[0]);
      StepIsSound(w, u, steps[0]);
      StepIsLocal(w, u, steps[0]);
      RunKeepsForest(w.store, u, first);
      InterleavingIsLocal(w1, u, steps[1..]);
      AlongAppend(Local, w.store, u, first, Trace(w1, u, steps[1..]));
    }
  }

  /** Parent and child share a partition in every interleaving of calls that each keep to one. */
  lemma OverlapKeepsPartitions(w: World, u: Supplies, steps: seq<Step>)
    requires Inv(w.store, u) && Injective(u.queue) && SamePartition(w.store.queues) && w.calls == map[]
    requires StepsAlong(OnOnePartition, w, u, steps)
    ensures SamePartition(Play(w, u, steps).store.queues)
  {
    hide Trace;
    InterleavingIsLocal(w, u, steps);
    InterleavingIsRun(w, u, steps);
    RunsKeepPartitions(w.store, u, Trace(w, u, steps));
  }

  // ----- one call alone -----

  lemma {:induction false} PlayAppend(w: World, u: Supplies, a: seq<Step>, b: seq<Step>)
    ensures Play(w, u, a + b) == Play(Play(w, u, a), u, b)
    decreases a
  {
    hide Next;
    if a == [] {
      assert a + b == b;
    } else {
      assert (a + b)[0] == a[0] && (a + b)[1..] == a[1..] + b;
      PlayAppend(Next(w, u, a[0]), u, a[1..], b);
    }
  }

  /** The call does not break off for want of an answer. */
  ghost predicate NoAbort(steps: seq<Step>) {
    forall step :: step in steps ==> !step.Abort?
  }

  /** Two steps, then the others. */
  lemma TwoSteps(w: World, u: Supplies, n: nat, w1: World, w2: World, rest: seq<Step>) returns (steps: seq<Step>)
    requires Next(w, u, Advance(n)) == w1 && Next(w1, u, Advance(n)) == w2
    ensures Play(w, u, steps) == Play(w2, u, rest) && steps == [Advance(n), Advance(n)] + rest
  {
    hide Next;
    steps := [Advance(n)] + ([Advance(n)] + rest);
    PlayUnfold(w, u, Advance(n), [Advance(n)] + rest);
    PlayUnfold(w1, u, Advance(n), rest);
  }

  /** A call that breaks off here. */
  lemma BreakOff(w: World, u: Supplies, n: nat) returns (steps: seq<Step>)
    ensures Play(w, u, steps) == w.(calls := w.calls - {n})
  {
    steps := [Abort(n)] + [];
    PlayUnfold(w, u, Abort(n), []);
    PlayNothing(Next(w, u, Abort(n)), u);
  }

  /** A call returns: its lists are exhausted or it found no queue of the name. */
  lemma Return(w: World, u: Supplies, n: nat) returns (steps: seq<Step>)
    requires n in w.calls && Pending(w.calls[n]).None? && Prepare(w.store, w.calls[n]).None?
    ensures Play(w, u, steps) == w.(calls := w.calls - {n}) && NoAbort(steps)
  {
    steps := [Advance(n)] + [];
    PlayUnfold(w, u, Advance(n), []);
    PlayNothing(Next(w, u, Advance(n)), u);
  }

  lemma {:induction false} SoloUpsert(w: World, u: Supplies, n: nat, qs: seq<Queue>, budget: nat) returns (steps: seq<Step>)
    requires n in w.calls && w.calls[n] == Upserting(qs, None)
    ensures var r := UpsertAll(w.store.queues, u.queue, qs, budget);
            && Play(w, u, steps) == World(w.store.(queues := r.table), w.calls - {n})
            && (r.ok || r.budget > 0 ==> NoAbort(steps))
    decreases qs
  {
    hide Play;
    var t := w.store.queues;
    if qs == [] {
      steps := Return(w, u, n);
    } else if budget == 0 {
      steps := BreakOff(w, u, n);
    } else if Lookup(t, qs[0].parent, qs[0].partition).Err? {
      steps := Return(w, u, n);
    } else if UpsertRow(t, u.queue, qs[0]).Err? {
      steps := Rejected(w, u, n, Upserting(qs, Some(Lookup(t, qs[0].parent, qs[0].partition).value)));
    } else {
      var id := Lookup(t, qs[0].parent, qs[0].partition).value;
      var w1 := w.(calls := w.calls[n := Upserting(qs, Some(id))]);
      var w2 := World(w.store.(queues := UpsertRow(t, u.queue, qs[0]).value), w.calls[n := Upserting(qs[1..], None)]);
      var rest := SoloUpsert(w2, u, n, qs[1..], budget - 1);
      steps := TwoSteps(w, u, n, w1, w2, rest);
    }
  }

  lemma {:induction false} SoloStore(w: World, u: Supplies, n: nat, apps: seq<App>, budget: nat) returns (steps: seq<Step>)
    requires n in w.calls && w.calls[n] == Storing(apps, None)
    ensures var r := UpsertApps(w.store.apps, w.store.queues, u.app, apps, budget);
            && Play(w, u, steps) == World(w.store.(apps := r.table), w.calls - {n})
            && (r.ok || r.budget > 0 ==> NoAbort(steps))
    decreases apps
  {
    hide Play;
    var (t, queues) := (w.store.apps, w.store.queues);
    if apps == [] {
      steps := Return(w, u, n);
    } else if budget == 0 {
      steps := BreakOff(w, u, n);
    } else if Lookup(queues, apps[0].queueName, apps[0].partition).Err? {
      steps := Return(w, u, n);
    } else if AppRow(t, queues, u.app, apps[0]).Err? {
      steps := Rejected(w, u, n, Storing(apps, Some(Lookup(queues, apps[0].queueName, apps[0].partition).value)));
    } else {
      var id := Lookup(queues, apps[0].queueName, apps[0].partition).value;
      var w1 := w.(calls := w.calls[n := Storing(apps, Some(id))]);
      var w2 := World(w.store.(apps := AppRow(t, queues, u.app, apps[0]).value), w.calls[n := Storing(apps[1..], None)]);
      var rest := SoloStore(w2, u, n, apps[1..], budget - 1);
      steps := TwoSteps(w, u, n, w1, w2, rest);
    }
  }

  /** DeleteQueues marks a prefix `done` of its ids and returns or breaks off. */
  lemma {:induction false} SoloDelete(w: World, u: Supplies, n: nat, done: seq<Id>, left: seq<Id>) returns (steps: seq<Step>)
    requires n in w.calls && w.calls[n] == Deleting(done + left)
    ensures Play(w, u, steps) == World(w.store.(queues := MarkAll(w.store.queues, done)), w.calls - {n})
    ensures left == [] ==> NoAbort(steps)
    decreases done
  {
    hide Play;
    if done == [] && left == [] {
      steps := Return(w, u, n);
    } else if done == [] {
      steps := BreakOff(w, u, n);
    } else {
      assert (done + left)[1..] == done[1..] + left;
      var w1 := World(w.store.(queues := Mark(w.store.queues, done[0])), w.calls[n := Deleting(done[1..] + left)]);
      assert Next(w, u, Advance(n)) == w1;
      var rest := SoloDelete(w1, u, n, done[1..], left);
      steps := [Advance(n)] + rest;
      PlayUnfold(w, u, Advance(n), rest);
    }
  }

  /** AddQueues on one level of its stack leaves what AddForest leaves, and the levels around it. */
  lemma {:induction false} SoloAdd(w: World, u: Supplies, n: nat, p: Option<Id>, qs: seq<QueueTree>, over: Option<string>,
                                   around: seq<Frame>, budget: nat) returns (steps: seq<Step>)
    requires n in w.calls && w.calls[n] == Adding([Frame(p, qs, over)] + around, None)
    ensures var r := AddForest(w.store.queues, u.queue, p, qs, over, budget);
            && Play(w, u, steps) ==
               World(w.store.(queues := r.table), if r.ok then w.calls[n := Adding(around, None)] else w.calls - {n})
            && (r.ok || r.budget > 0 ==> NoAbort(steps))
    decreases qs
  {
    hide Play;
    hide Next;
    hide AddForest;
    hide CanInsert;
    hide Resolve;
    var t := w.store.queues;
    if qs == [] {
      NothingToAdd(t, u.queue, p, over, budget);
      steps := LeaveLevel(w, u, n, p, over, around);
    } else {
      AddUnfold(t, u.queue, p, qs, over, budget);
      var q := At(qs[0].queue, over);
      if !CanInsert(t, p, q, budget) {
        if budget == 0 {
          steps := BreakOff(w, u, n);
        } else {
          steps := NotInserted(w, u, n, p, qs, over, around, budget);
        }
      } else {
        ResolvesIfInserted(t, p, q, budget);
        var (id, held) := (u.queue(|t|), Resolve(t, p, q).value);
        var below, after := Frame(Some(id), qs[0].children, Some(q.partition)), Frame(held, qs[1..], over);
        var s2 := w.store.(queues := t + [NewRow(id, held, q)]);
        var w2 := World(s2, w.calls[n := Adding([below] + ([after] + around), None)]);
        AddOne(w, u, n, p, qs, over, around, budget);
        Overwrite(w.calls, n, Adding([below] + ([after] + around), None), Adding([after] + around, None));
        Overwrite(w.calls, n, Adding([after] + around, None), Adding(around, None));
        var first := SoloAdd(w2, u, n, Some(id), qs[0].children, Some(q.partition), [after] + around, budget - 1);
        steps := TwoSteps(w, u, n, w.(calls := w.calls[n := Adding([Frame(p, qs, over)] + around, Some(held))]), w2, first);
        var kids := AddForest(s2.queues, u.queue, Some(id), qs[0].children, Some(q.partition), budget - 1);
        if kids.ok {
          var w3 := World(w.store.(queues := kids.table), w.calls[n := Adding([after] + around, None)]);
          var rest := SoloAdd(w3, u, n, held, qs[1..], over, around, kids.budget);
          PlayAppend(w, u, steps, rest);
          steps := steps + rest;
        }
      }
    }
  }

  /** A queue whose parent is not found or whose row is rejected ends the call. */
  lemma NotInserted(w: World, u: Supplies, n: nat, p: Option<Id>, qs: seq<QueueTree>, over: Option<string>,
                    around: seq<Frame>, budget: nat) returns (steps: seq<Step>)
    requires n in w.calls && w.calls[n] == Adding([Frame(p, qs, over)] + around, None)
    requires qs != [] && budget > 0 && !CanInsert(w.store.queues, p, At(qs[0].queue, over), budget)
    ensures Play(w, u, steps) == w.(calls := w.calls - {n}) && NoAbort(steps)
  {
    hide Play;
    var stack, q := [Frame(p, qs, over)] + around, At(qs[0].queue, over);
    assert stack[0] == Frame(p, qs, over);
    match Resolve(w.store.queues, p, q) {
      case Err =>
        steps := Return(w, u, n);
      case Ok(id) =>
        steps := Rejected(w, u, n, Adding(stack, Some(id)));
    }
  }

  /** The call looks its id up, and the database rejects its write. */
  lemma Rejected(w: World, u: Supplies, n: nat, held: InFlight) returns (steps: seq<Step>)
    requires n in w.calls && Pending(w.calls[n]).None? && Prepare(w.store, w.calls[n]) == Some(held)
    requires Pending(held).Some? && !Accepts(w.store, Pending(held).value)
    ensures Play(w, u, steps) == w.(calls := w.calls - {n}) && NoAbort(steps)
  {
    hide Play;
    var w1 := w.(calls := w.calls[n := held]);
    var w2 := w.(calls := w.calls - {n});
    Overwrite(w.calls, n, held, held);
    RejectedChangesNothing(w.store, u, Pending(held).value);
    steps := TwoSteps(w, u, n, w1, w2, []);
    PlayNothing(w2, u);
  }

  lemma RejectedChangesNothing(s: Store, u: Supplies, stmt: Stmt)
    requires !Accepts(s, stmt)
    ensures Exec(s, u, stmt) == s
  {
  }

  lemma ResolvesIfInserted(t: seq<QRow>, p: Option<Id>, q: Queue, budget: nat)
    requires CanInsert(t, p, q, budget)
    ensures budget > 0 && Resolve(t, p, q).Ok?
  {
  }

  lemma Overwrite<T>(m: map<nat, T>, n: nat, a: T, b: T)
    ensures m[n := a][n := b] == m[n := b] && m[n := a] - {n} == m - {n}
  {
  }

  lemma LeaveLevel(w: World, u: Supplies, n: nat, p: Option<Id>, over: Option<string>, around: seq<Frame>)
    returns (steps: seq<Step>)
    requires n in w.calls && w.calls[n] == Adding([Frame(p, [], over)] + around, None)
    ensures Play(w, u, steps) == w.(calls := w.calls[n := Adding(around, None)]) && NoAbort(steps)
  {
    steps := [Advance(n)] + [];
    assert ([Frame(p, [], over)] + around)[1..] == around;
    PlayUnfold(w, u, Advance(n), []);
    PlayNothing(Next(w, u, Advance(n)), u);
  }

  /** One round of AddQueues: resolve the parent, insert the row and descend to the children. */
  lemma AddOne(w: World, u: Supplies, n: nat, p: Option<Id>, qs: seq<QueueTree>, over: Option<string>,
               around: seq<Frame>, budget: nat)
    requires n in w.calls && w.calls[n] == Adding([Frame(p, qs, over)] + around, None)
    requires qs != [] && CanInsert(w.store.queues, p, At(qs[0].queue, over), budget)
    ensures var (t, q) := (w.store.queues, At(qs[0].queue, over));
            var (id, held) := (u.queue(|t|), Resolve(t, p, q).value);
            var below, after := Frame(Some(id), qs[0].children, Some(q.partition)), Frame(held, qs[1..], over);
            var w1 := w.(calls := w.calls[n := Adding([Frame(p, qs, over)] + around, Some(held))]);
            && Next(w, u, Advance(n)) == w1
            && Next(w1, u, Advance(n)) ==
               World(w.store.(queues := t + [NewRow(id, held, q)]), w.calls[n := Adding([below] + ([after] + around), None)])
  {
    var stack := [Frame(p, qs, over)] + around;
    var (t, q) := (w.store.queues, At(qs[0].queue, over));
    var (id, held) := (u.queue(|t|), Resolve(t, p, q).value);
    var below, after := Frame(Some(id), qs[0].children, Some(q.partition)), Frame(held, qs[1..], over);
    assert stack[0] == Frame(p, qs, over) && stack[1..] == around;
    assert [below, after] + around == [below] + ([after] + around);
    var w1 := w.(calls := w.calls[n := Adding(stack, Some(held))]);
    assert w1.calls[n := Adding([below] + ([after] + around), None)] == w.calls[n := Adding([below] + ([after] + around), None)];
  }

  /** The database answers to the end of the call, whether that succeeds or not. */
  ghost predicate Answered(s: Store, u: Supplies, c: Call) {
    match c
    case UpsertQueuesCall(qs, b) => (var r := UpsertAll(s.queues, u.queue, qs, b); r.ok || r.budget > 0)
    case AddQueuesCall(p, qs, b) => (var r := AddForest(s.queues, u.queue, p, qs, None, b); r.ok || r.budget > 0)
    case DeleteQueuesCall(f, b) => DeleteForest(s.queues, f, b).ok
    case UpsertApplicationsCall(apps, b) => (var r := UpsertApps(s.apps, s.queues, u.app, apps, b); r.ok || r.budget > 0)
  }

  /** Each call, wherever it stops, is one of the behaviours of the step relation: nothing sequential is lost by interleaving. */
  lemma SoloIsCall(w: World, u: Supplies, n: nat, c: Call) returns (steps: seq<Step>)
    requires n !in w.calls
    ensures Play(w, u, [Begin(n, c)] + steps) == World(ExecCall(w.store, u, c), w.calls)
    ensures Answered(w.store, u, c) ==> NoAbort(steps)
  {
    hide Play;
    var w1 := Next(w, u, Begin(n, c));
    assert w1.calls - {n} == w.calls;
    match c {
      case UpsertQueuesCall(qs, b) =>
        steps := SoloUpsert(w1, u, n, qs, b);
      case AddQueuesCall(p, qs, b) =>
        steps := SoloAddAll(w1, u, n, p, qs, b);
      case DeleteQueuesCall(f, b) =>
        var ids := PostOrder(f);
        DeleteIsPostOrderPrefix(w.store.queues, f, b);
        assert ids == Taken(ids, b) + ids[|Taken(ids, b)|..];
        steps := SoloDelete(w1, u, n, Taken(ids, b), ids[|Taken(ids, b)|..]);
      case UpsertApplicationsCall(apps, b) =>
        steps := SoloStore(w1, u, n, apps, b);
    }
    PlayUnfold(w, u, Begin(n, c), steps);
  }

  lemma SoloAddAll(w: World, u: Supplies, n: nat, p: Option<Id>, qs: seq<QueueTree>, budget: nat) returns (steps: seq<Step>)
    requires n in w.calls && w.calls[n] == Adding([Frame(p, qs, None)], None)
    ensures var r := AddForest(w.store.queues, u.queue, p, qs, None, budget);
            && Play(w, u, steps) == World(w.store.(queues := r.table), w.calls - {n})
            && (r.ok || r.budget > 0 ==> NoAbort(steps))
  {
    hide Play;
    hide AddForest;
    assert [Frame(p, qs, None)] == [Frame(p, qs, None)] + [];
    steps := SoloAdd(w, u, n, p, qs, None, [], budget);
    if AddForest(w.store.queues, u.queue, p, qs, None, budget).ok {
      var w1 := Play(w, u, steps);
      var last := Return(w1, u, n);
      PlayAppend(w, u, steps, last);
      steps := steps + last;
    }
  }
}
