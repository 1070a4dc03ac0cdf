/**
 The queue-upsert job and the application-upsert job of one sync run concurrently on the work
 queue.  Neither is transactional; when a statement fails, or a queue is not found, the job is
 retried from its first row.  Statements of the two jobs interleave arbitrarily.
 */
module Convergence {
  import opened Options
  import opened UpsertTable
  import opened QueueModel
  import opened AppModel
  import opened StoreRuns
  import opened QueueWriters

  /** What the jobs start from and were given. */
  datatype Setup = Setup(u: Supplies, store: Store, qs: seq<Queue>, apps: seq<App>)

  /** Where a job stands: about to look up an id for a row, holding the id it looked up, or finished. */
  datatype Pc = Before(row: nat) | Holding(row: nat, id: Option<Id>) | Done

  datatype World = World(store: Store, queueJob: Pc, appJob: Pc)

  /** One statement of a job, its successful end, or the failure of whatever statement it is at. */
  datatype Step = QueueLookup | QueueExec | QueueEnd | QueueFail | AppLookup | AppExecute | AppEnd | AppFail

  /** A step that is not the job's next one changes nothing. */
  function Next(c: Setup, w: World, step: Step): World {
    match step
    case QueueLookup =>
      if w.queueJob.Before? && w.queueJob.row < |c.qs| then
        var q := c.qs[w.queueJob.row];
        match Lookup(w.store.queues, q.parent, q.partition)
        case Ok(id) => w.(queueJob := Holding(w.queueJob.row, id))
        case Err => w.(queueJob := Before(0))
      else w
    case QueueExec =>
      if w.queueJob.Holding? && w.queueJob.row < |c.qs| then
        match UpsertExec(w.store.queues, c.u.queue, c.qs[w.queueJob.row], w.queueJob.id)
        case Ok(t) => w.(store := w.store.(queues := t), queueJob := Before(w.queueJob.row + 1))
        case Err => w.(queueJob := Before(0))
      else w
    case QueueEnd => if w.queueJob == Before(|c.qs|) then w.(queueJob := Done) else w
    case QueueFail => if w.queueJob.Done? then w else w.(queueJob := Before(0))
    case AppLookup =>
      if w.appJob.Before? && w.appJob.row < |c.apps| then
        var a := c.apps[w.appJob.row];
        match Lookup(w.store.queues, a.queueName, a.partition)
        case Ok(id) => w.(appJob := Holding(w.appJob.row, id))
        case Err => w.(appJob := Before(0))
      else w
    case AppExecute =>
      if w.appJob.Holding? && w.appJob.row < |c.apps| then
        match AppExec(w.store.apps, c.u.app, c.apps[w.appJob.row], w.appJob.id)
        case Ok(t) => w.(store := w.store.(apps := t), appJob := Before(w.appJob.row + 1))
        case Err => w.(appJob := Before(0))
      else w
    case AppEnd => if w.appJob == Before(|c.apps|) then w.(appJob := Done) else w
    case AppFail => if w.appJob.Done? then w else w.(appJob := Before(0))
  }

  function Play(c: Setup, w: World, steps: seq<Step>): World
    decreases steps
  {
    if steps == [] then w else Play(c, Next(c, w, steps[0]), steps[1..])
  }

  // ----- the sequential reference -----

  /** One uninterrupted UpsertQueues of the first m queues. */
  function SeqQueues(c: Setup, m: nat): Outcome
    requires m <= |c.qs|
  {
    UpsertAll(c.store.queues, c.u.queue, c.qs[..m], |c.qs|)
  }

  /** Then one uninterrupted UpsertApplications of the first n applications. */
  function SeqApps(c: Setup, m: nat, n: nat): AppOutcome
    requires m <= |c.qs| && n <= |c.apps|
  {
    UpsertApps(c.store.apps, SeqQueues(c, m).table, c.u.app, c.apps[..n], |c.apps|)
  }

  ghost function QueueLog(qs: seq<Queue>): seq<Write<QueueKey, LiveColumn, LiveValues>> {
    seq(|qs|, i requires 0 <= i < |qs| => Write(KeyOf(qs[i]), LivePatch(qs[i])))
  }

  ghost function AppLog(apps: seq<App>): seq<Write<AppKey, AppColumn, Json>> {
    seq(|apps|, i requires 0 <= i < |apps| => Write(AppKeyOf(apps[i]), apps[i].values))
  }

  lemma SeqQueuesNext(c: Setup, m: nat)
    requires m < |c.qs| && SeqQueues(c, m).ok
    ensures SeqQueues(c, m).budget == |c.qs| - m
    ensures UpsertRow(SeqQueues(c, m).table, c.u.queue, c.qs[m]).Ok? ==>
              && SeqQueues(c, m + 1).ok
              && SeqQueues(c, m + 1).table == UpsertRow(SeqQueues(c, m).table, c.u.queue, c.qs[m]).value
  {
    hide UpsertRow;
    assert c.qs[..m + 1] == c.qs[..m] + [c.qs[m]];
    UpsertAllAppend(c.store.queues, c.u.queue, c.qs[..m], [c.qs[m]], |c.qs|);
    UpsertBudget(c.store.queues, c.u.queue, c.qs[..m], |c.qs|);
    assert [c.qs[m]][1..] == [];
  }

  lemma {:induction false} UpsertBudget(t: seq<QRow>, uuid: Supply, qs: seq<Queue>, budget: nat)
    requires UpsertAll(t, uuid, qs, budget).ok
    ensures |qs| <= budget && UpsertAll(t, uuid, qs, budget).budget == budget - |qs|
    decreases qs
  {
    hide UpsertRow;
    if qs != [] {
      UpsertBudget(UpsertRow(t, uuid, qs[0]).value, uuid, qs[1..], budget - 1);
    }
  }

  lemma {:induction false} UpsertAppsAppend(t: seq<ARow>, queues: seq<QRow>, uuid: Supply, a: seq<App>, b: seq<App>, budget: nat)
    ensures var r := UpsertApps(t, queues, uuid, a, budget);
            && UpsertApps(t, queues, uuid, a + b, budget) == (if r.ok then UpsertApps(r.table, queues, uuid, b, r.budget) else r)
            && (r.ok ==> |a| <= budget && r.budget == budget - |a|)
    decreases a
  {
    hide AppRow;
    if a == [] {
      assert a + b == b;
    } else {
      assert (a + b)[0] == a[0] && (a + b)[1..] == a[1..] + b;
      if budget > 0 && AppRow(t, queues, uuid, a[0]).Ok? {
        UpsertAppsAppend(AppRow(t, queues, uuid, a[0]).value, queues, uuid, a[1..], b, budget - 1);
      }
    }
  }

  lemma SeqAppsNext(c: Setup, m: nat, n: nat)
    requires m <= |c.qs| && n < |c.apps| && SeqApps(c, m, n).ok
    ensures var r := AppRow(SeqApps(c, m, n).table, SeqQueues(c, m).table, c.u.app, c.apps[n]);
            r.Ok? ==> SeqApps(c, m, n + 1).ok && SeqApps(c, m, n + 1).table == r.value
  {
    hide AppRow;
    hide UpsertAll;
    assert c.apps[..n + 1] == c.apps[..n] + [c.apps[n]];
    UpsertAppsAppend(c.store.apps, SeqQueues(c, m).table, c.u.app, c.apps[..n], [c.apps[n]], |c.apps|);
    assert [c.apps[n]][1..] == [];
  }

  // ----- the queue job -----

  /** The queues table at row pc of an attempt, when earlier attempts got as far as row m. */
  ghost predicate QueueHalf(c: Setup, t: seq<QRow>, pc: nat, m: nat) {
    && pc <= m <= |c.qs| && SeqQueues(c, m).ok
    && Reflects(SeqQueues(c, m).table, QueueLog(c.qs), m)
    && Agree(t, SeqQueues(c, m).table, QueueLog(c.qs), pc, m)
  }

  lemma QueueRestart(c: Setup, t: seq<QRow>, pc: nat, m: nat)
    requires QueueHalf(c, t, pc, m)
    ensures QueueHalf(c, t, 0, m)
  {
    AgreeRestart(t, SeqQueues(c, m).table, QueueLog(c.qs), pc, m);
  }

  /** Lookups do not see the difference between the table and the sequential one. */
  lemma SameLookup(c: Setup, t: seq<QRow>, pc: nat, m: nat, name: string, partition: string)
    requires QueueHalf(c, t, pc, m)
    ensures Lookup(t, name, partition) == Lookup(SeqQueues(c, m).table, name, partition)
  {
    AgreeFind(t, SeqQueues(c, m).table, QueueLog(c.qs), pc, m, QueueKey(partition, name));
  }

  lemma QueueAdvance(c: Setup, t: seq<QRow>, i: nat, m: nat, id: Option<Id>) returns (m': nat)
    requires QueueHalf(c, t, i, m) && i < |c.qs| && Lookup(t, c.qs[i].parent, c.qs[i].partition) == Ok(id)
    requires UpsertExec(t, c.u.queue, c.qs[i], id).Ok?
    ensures m <= m' <= m + 1 && QueueHalf(c, UpsertExec(t, c.u.queue, c.qs[i], id).value, i + 1, m')
    ensures m' == m + 1 ==>
              m < |c.qs| && UpsertRow(SeqQueues(c, m).table, c.u.queue, c.qs[m]) == Ok(SeqQueues(c, m').table)
  {
    var s, log := SeqQueues(c, m).table, QueueLog(c.qs);
    var fixed := NewFixed(c.u.queue(|t|), id, c.qs[i]);
    if i < m {
      m' := m;
      ReplayStep(t, s, log, i, m, fixed);
    } else {
      m' := m + 1;
      AgreeAtEnd(t, s, log, m);
      SeqQueuesNext(c, m);
      ReflectsPut(s, log, m, fixed);
    }
  }

  // ----- the application job -----

  ghost predicate AppHalf(c: Setup, t: seq<ARow>, pc: nat, m: nat, n: nat) {
    && m <= |c.qs| && pc <= n <= |c.apps| && SeqApps(c, m, n).ok
    && Reflects(SeqApps(c, m, n).table, AppLog(c.apps), n)
    && Agree(t, SeqApps(c, m, n).table, AppLog(c.apps), pc, n)
  }

  lemma AppRestart(c: Setup, t: seq<ARow>, pc: nat, m: nat, n: nat)
    requires AppHalf(c, t, pc, m, n)
    ensures AppHalf(c, t, 0, m, n)
  {
    AgreeRestart(t, SeqApps(c, m, n).table, AppLog(c.apps), pc, n);
  }

  lemma AppAdvance(c: Setup, t: seq<ARow>, i: nat, m: nat, n: nat, id: Option<Id>) returns (n': nat)
    requires AppHalf(c, t, i, m, n) && i < |c.apps|
    requires Lookup(SeqQueues(c, m).table, c.apps[i].queueName, c.apps[i].partition) == Ok(id)
    requires AppExec(t, c.u.app, c.apps[i], id).Ok?
    ensures AppHalf(c, AppExec(t, c.u.app, c.apps[i], id).value, i + 1, m, n')
  {
    hide UpsertAll;
    hide UpsertApps;
    var s, log := SeqApps(c, m, n).table, AppLog(c.apps);
    var fixed := NewAppFixed(c.u.app(|t|), id.value, c.apps[i]);
    if i < n {
      n' := n;
      ReplayStep(t, s, log, i, n, fixed);
    } else {
      n' := n + 1;
      AgreeAtEnd(t, s, log, n);
      SeqAppsNext(c, m, n);
      ReflectsPut(s, log, n, fixed);
    }
  }

  /** A lookup that succeeded keeps its answer when the queue job inserts or updates another row. */
  lemma LookupSurvives(t: seq<QRow>, uuid: Supply, q: Queue, name: string, partition: string)
    requires UniqueKeys(t) && UpsertRow(t, uuid, q).Ok? && Lookup(t, name, partition).Ok?
    ensures Lookup(UpsertRow(t, uuid, q).value, name, partition) == Lookup(t, name, partition)
  {
    var t' := UpsertRow(t, uuid, q).value;
    if name != "" {
      PutKeepsKeys(t, KeyOf(q), NewFixed(uuid(|t|), Lookup(t, q.parent, q.partition).value, q), LivePatch(q));
      FindIs(t', QueueKey(partition, name), Find(t, QueueKey(partition, name)).value);
    }
  }

  lemma {:induction false} AppsSurvive(at: seq<ARow>, t: seq<QRow>, u: Supplies, q: Queue, apps: seq<App>, budget: nat)
    requires UniqueKeys(t) && UpsertRow(t, u.queue, q).Ok? && UpsertApps(at, t, u.app, apps, budget).ok
    ensures UpsertApps(at, UpsertRow(t, u.queue, q).value, u.app, apps, budget) == UpsertApps(at, t, u.app, apps, budget)
    decreases apps
  {
    hide UpsertRow;
    hide Lookup;
    hide AppExec;
    if apps != [] {
      LookupSurvives(t, u.queue, q, apps[0].queueName, apps[0].partition);
      AppsSurvive(AppRow(at, t, u.app, apps[0]).value, t, u, q, apps[1..], budget - 1);
    }
  }

  // ----- both jobs -----

  ghost function RowOf(pc: Pc, len: nat): nat {
    if pc.Done? then len else pc.row
  }

  ghost predicate Inv(c: Setup, w: World, m: nat, n: nat) {
    && QueueHalf(c, w.store.queues, RowOf(w.queueJob, |c.qs|), m)
    && AppHalf(c, w.store.apps, RowOf(w.appJob, |c.apps|), m, n)
    && (w.queueJob.Holding? ==>
          && w.queueJob.row < |c.qs|
          && Lookup(w.store.queues, c.qs[w.queueJob.row].parent, c.qs[w.queueJob.row].partition) == Ok(w.queueJob.id))
    && (w.appJob.Holding? ==>
          && w.appJob.row < |c.apps|
          && Lookup(SeqQueues(c, m).table, c.apps[w.appJob.row].queueName, c.apps[w.appJob.row].partition) == Ok(w.appJob.id))
  }

  /** When the queue job gets to a new row, what the application job has done and holds stays right. */
  lemma AppSideSurvives(c: Setup, w: World, m: nat, n: nat)
    requires Inv(c, w, m, n) && m < |c.qs|
    requires UpsertRow(SeqQueues(c, m).table, c.u.queue, c.qs[m]) == Ok(SeqQueues(c, m + 1).table)
    ensures AppHalf(c, w.store.apps, RowOf(w.appJob, |c.apps|), m + 1, n)
    ensures w.appJob.Holding? ==>
              Lookup(SeqQueues(c, m + 1).table, c.apps[w.appJob.row].queueName, c.apps[w.appJob.row].partition) ==
              Ok(w.appJob.id)
  {
    hide UpsertRow;
    hide UpsertAll;
    hide UpsertApps;
    hide Lookup;
    hide Agree;
    var s := SeqQueues(c, m).table;
    AppsSurvive(c.store.apps, s, c.u, c.qs[m], c.apps[..n], |c.apps|);
    if w.appJob.Holding? {
      LookupSurvives(s, c.u.queue, c.qs[m], c.apps[w.appJob.row].queueName, c.apps[w.appJob.row].partition);
    }
  }

  lemma StepKeepsInv(c: Setup, w: World, step: Step, m: nat, n: nat) returns (m': nat, n': nat)
    requires Inv(c, w, m, n)
    ensures Inv(c, Next(c, w, step), m', n')
  {
    hide UpsertRow;
    hide SeqQueues;
    hide SeqApps;
    hide Lookup;
    hide UpsertExec;
    hide AppExec;
    hide QueueHalf;
    hide AppHalf;
    m', n' := m, n;
    var qpc, apc := RowOf(w.queueJob, |c.qs|), RowOf(w.appJob, |c.apps|);
    QueueRestart(c, w.store.queues, qpc, m);
    AppRestart(c, w.store.apps, apc, m, n);
    match step {
      case QueueExec =>
        if w.queueJob.Holding? && UpsertExec(w.store.queues, c.u.queue, c.qs[qpc], w.queueJob.id).Ok? {
          m' := QueueAdvance(c, w.store.queues, qpc, m, w.queueJob.id);
          if m' == m + 1 {
            AppSideSurvives(c, w, m, n);
          }
        }
      case AppLookup =>
        if w.appJob.Before? && apc < |c.apps| {
          SameLookup(c, w.store.queues, qpc, m, c.apps[apc].queueName, c.apps[apc].partition);
        }
      case AppExecute =>
        if w.appJob.Holding? && AppExec(w.store.apps, c.u.app, c.apps[apc], w.appJob.id).Ok? {
          n' := AppAdvance(c, w.store.apps, apc, m, n, w.appJob.id);
        }
      case _ =>
    }
  }

  lemma {:induction false} PlayKeepsInv(c: Setup, w: World, steps: seq<Step>, m: nat, n: nat) returns (m': nat, n': nat)
    requires Inv(c, w, m, n)
    ensures Inv(c, Play(c, w, steps), m', n')
    decreases steps
  {
    hide Inv;
    hide Next;
    if steps == [] {
      m', n' := m, n;
    } else {
      m', n' := StepKeepsInv(c, w, steps[0], m, n);
      m', n' := PlayKeepsInv(c, Next(c, w, steps[0]), steps[1..], m', n');
    }
  }

  lemma StartInv(c: Setup)
    requires UniqueKeys(c.store.queues) && UniqueKeys(c.store.apps)
    ensures Inv(c, World(c.store, Before(0), Before(0)), 0, 0)
  {
    assert c.qs[..0] == [] && c.apps[..0] == [];
  }

  /**
   Once the queue job has succeeded, whatever the application job is doing, the queues table is that of
   one uninterrupted UpsertQueues, and that one succeeds; so a list that cannot be upserted in one go,
   for instance under a deleted parent, is never finished by retrying.
   */
  lemma QueueJobConverges(c: Setup, steps: seq<Step>)
    requires UniqueKeys(c.store.queues) && UniqueKeys(c.store.apps)
    requires Play(c, World(c.store, Before(0), Before(0)), steps).queueJob.Done?
    ensures var queues := UpsertAll(c.store.queues, c.u.queue, c.qs, |c.qs|);
            queues.ok && Play(c, World(c.store, Before(0), Before(0)), steps).store.queues == queues.table
  {
    StartInv(c);
    var w := Play(c, World(c.store, Before(0), Before(0)), steps);
    var m, n := PlayKeepsInv(c, World(c.store, Before(0), Before(0)), steps, 0, 0);
    hide Play;
    AgreeAtEnd(w.store.queues, SeqQueues(c, m).table, QueueLog(c.qs), m);
    assert c.qs[..m] == c.qs;
  }

  /**
   Retry convergence: once both jobs have succeeded, whatever the interleaving and however often and
   wherever each was restarted, both tables equal those of one uninterrupted UpsertQueues followed by
   one uninterrupted UpsertApplications, which succeed.
   */
  lemma RetriesConverge(c: Setup, steps: seq<Step>)
    requires UniqueKeys(c.store.queues) && UniqueKeys(c.store.apps)
    requires var w := Play(c, World(c.store, Before(0), Before(0)), steps); w.queueJob.Done? && w.appJob.Done?
    ensures var w := Play(c, World(c.store, Before(0), Before(0)), steps);
            var queues := UpsertAll(c.store.queues, c.u.queue, c.qs, |c.qs|);
            var apps := UpsertApps(c.store.apps, queues.table, c.u.app, c.apps, |c.apps|);
            queues.ok && apps.ok && w.store == Store(queues.table, apps.table)
  {
    StartInv(c);
    var w := Play(c, World(c.store, Before(0), Before(0)), steps);
    var m, n := PlayKeepsInv(c, World(c.store, Before(0), Before(0)), steps, 0, 0);
    hide Play;
    AgreeAtEnd(w.store.queues, SeqQueues(c, m).table, QueueLog(c.qs), m);
    AgreeAtEnd(w.store.apps, SeqApps(c, m, n).table, AppLog(c.apps), n);
    assert c.qs[..m] == c.qs && c.apps[..n] == c.apps;
  }

  // ----- the jobs can finish -----

  ghost predicate Sequential(c: Setup) {
    var queues := UpsertAll(c.store.queues, c.u.queue, c.qs, |c.qs|);
    queues.ok && UpsertApps(c.store.apps, queues.table, c.u.app, c.apps, |c.apps|).ok
  }

  /** If the whole list can be upserted in one go, so can each prefix and then the row after it. */
  lemma SeqQueuesOk(c: Setup, i: nat)
    requires UpsertAll(c.store.queues, c.u.queue, c.qs, |c.qs|).ok && i <= |c.qs|
    ensures SeqQueues(c, i).ok
    ensures i < |c.qs| ==> UpsertRow(SeqQueues(c, i).table, c.u.queue, c.qs[i]).Ok?
  {
    hide UpsertRow;
    assert c.qs == c.qs[..i] + c.qs[i..];
    UpsertAllAppend(c.store.queues, c.u.queue, c.qs[..i], c.qs[i..], |c.qs|);
  }

  lemma SeqAppsOk(c: Setup, i: nat)
    requires Sequential(c) && i < |c.apps|
    ensures AppRow(SeqApps(c, |c.qs|, i).table, SeqQueues(c, |c.qs|).table, c.u.app, c.apps[i]).Ok?
  {
    hide AppRow;
    hide UpsertAll;
    assert c.qs[..|c.qs|] == c.qs;
    assert c.apps == c.apps[..i] + c.apps[i..];
    UpsertAppsAppend(c.store.apps, SeqQueues(c, |c.qs|).table, c.u.app, c.apps[..i], c.apps[i..], |c.apps|);
  }

  lemma {:induction false} SeqUnique(c: Setup, m: nat)
    requires UniqueKeys(c.store.queues) && UpsertAll(c.store.queues, c.u.queue, c.qs, |c.qs|).ok && m <= |c.qs|
    ensures UniqueKeys(SeqQueues(c, m).table)
    decreases m
  {
    hide UpsertAll;
    if m == 0 {
      assert c.qs[..0] == [];
      NothingUpserted(c);
    } else {
      SeqUnique(c, m - 1);
      SeqQueuesOk(c, m - 1);
      SeqQueuesNext(c, m - 1);
      var (t, q) := (SeqQueues(c, m - 1).table, c.qs[m - 1]);
      PutKeepsKeys(t, KeyOf(q), NewFixed(c.u.queue(|t|), Lookup(t, q.parent, q.partition).value, q), LivePatch(q));
    }
  }

  lemma NothingUpserted(c: Setup)
    ensures UpsertAll(c.store.queues, c.u.queue, [], |c.qs|).table == c.store.queues
  {
  }

  /** What row i looked up in the sequential run it finds again later. */
  lemma {:induction false} SeqLookupKept(c: Setup, i: nat, m: nat)
    requires UniqueKeys(c.store.queues) && UpsertAll(c.store.queues, c.u.queue, c.qs, |c.qs|).ok && i <= m <= |c.qs| && i < |c.qs|
    ensures c.qs[i].partition != "" && Lookup(SeqQueues(c, m).table, c.qs[i].parent, c.qs[i].partition).Ok?
    decreases m
  {
    hide UpsertAll;
    hide SeqQueues;
    if i == m {
      SeqQueuesOk(c, i);
    } else {
      SeqLookupKept(c, i, m - 1);
      SeqQueuesOk(c, m - 1);
      SeqUnique(c, m - 1);
      SeqQueuesNext(c, m - 1);
      LookupSurvives(SeqQueues(c, m - 1).table, c.u.queue, c.qs[m - 1], c.qs[i].parent, c.qs[i].partition);
    }
  }

  lemma PlayUnfold(c: Setup, w: World, first: Step, rest: seq<Step>)
    ensures Play(c, w, [first] + rest) == Play(c, Next(c, w, first), rest)
  {
    hide Next;
    assert ([first] + rest)[1..] == rest;
  }

  lemma {:induction false} PlayAppend(c: Setup, w: World, a: seq<Step>, b: seq<Step>)
    ensures Play(c, w, a + b) == Play(c, Play(c, w, a), b)
    decreases a
  {
    hide Next;
    if a == [] {
      assert a + b == b;
    } else {
      assert (a + b)[0] == a[0] && (a + b)[1..] == a[1..] + b;
      PlayAppend(c, Next(c, w, a[0]), a[1..], b);
    }
  }

  /** The step that takes the queue job on. */
  function QueueStep(c: Setup, w: World): Step {
    if w.queueJob.Holding? then QueueExec else if w.queueJob == Before(|c.qs|) then QueueEnd else QueueLookup
  }

  /** Steps the queue job has to go. */
  ghost function QueueLeft(c: Setup, w: World): int {
    match w.queueJob
    case Done => 0
    case Holding(i, _) => 2 * (|c.qs| - i)
    case Before(i) => 2 * (|c.qs| - i) + 1
  }

  lemma QueueProgress(c: Setup, w: World, m: nat, n: nat)
    requires Inv(c, w, m, n) && UniqueKeys(c.store.queues) && Sequential(c) && !w.queueJob.Done?
    ensures 0 <= QueueLeft(c, Next(c, w, QueueStep(c, w))) < QueueLeft(c, w)
  {
    hide UpsertAll;
    hide UpsertApps;
    hide Lookup;
    hide Agree;
    hide Reflects;
    var i := w.queueJob.row;
    if i < |c.qs| {
      SeqLookupKept(c, i, m);
      SameLookup(c, w.store.queues, i, m, c.qs[i].parent, c.qs[i].partition);
    }
  }

  lemma {:induction false} FinishQueueJob(c: Setup, w: World, m: nat, n: nat) returns (more: seq<Step>, m': nat, n': nat)
    requires Inv(c, w, m, n) && UniqueKeys(c.store.queues) && Sequential(c)
    ensures Inv(c, Play(c, w, more), m', n') && Play(c, w, more).queueJob.Done?
    decreases QueueLeft(c, w)
  {
    hide Next;
    hide Inv;
    hide QueueLeft;
    if w.queueJob.Done? {
      more, m', n' := [], m, n;
    } else {
      QueueProgress(c, w, m, n);
      var step := QueueStep(c, w);
      var w1 := Next(c, w, step);
      m', n' := StepKeepsInv(c, w, step, m, n);
      more, m', n' := FinishQueueJob(c, w1, m', n');
      PlayUnfold(c, w, step, more);
      more := [step] + more;
    }
  }

  function AppStep(c: Setup, w: World): Step {
    if w.appJob.Holding? then AppExecute else if w.appJob == Before(|c.apps|) then AppEnd else AppLookup
  }

  ghost function AppLeft(c: Setup, w: World): int {
    match w.appJob
    case Done => 0
    case Holding(i, _) => 2 * (|c.apps| - i)
    case Before(i) => 2 * (|c.apps| - i) + 1
  }

  lemma AppProgress(c: Setup, w: World, m: nat, n: nat)
    requires Inv(c, w, m, n) && Sequential(c) && w.queueJob.Done? && !w.appJob.Done?
    ensures 0 <= AppLeft(c, Next(c, w, AppStep(c, w))) < AppLeft(c, w)
    ensures Next(c, w, AppStep(c, w)).queueJob.Done?
  {
    hide UpsertAll;
    hide UpsertApps;
    hide Lookup;
    hide Agree;
    hide Reflects;
    var i := w.appJob.row;
    if i < |c.apps| {
      SeqAppsOk(c, i);
      SameLookup(c, w.store.queues, |c.qs|, m, c.apps[i].queueName, c.apps[i].partition);
    }
  }

  lemma {:induction false} FinishAppJob(c: Setup, w: World, m: nat, n: nat) returns (more: seq<Step>)
    requires Inv(c, w, m, n) && Sequential(c) && w.queueJob.Done?
    ensures Play(c, w, more).queueJob.Done? && Play(c, w, more).appJob.Done?
    decreases AppLeft(c, w)
  {
    hide Next;
    hide Inv;
    hide AppLeft;
    if w.appJob.Done? {
      more := [];
    } else {
      AppProgress(c, w, m, n);
      var step := AppStep(c, w);
      var m', n' := StepKeepsInv(c, w, step, m, n);
      more := FinishAppJob(c, Next(c, w, step), m', n');
      PlayUnfold(c, w, step, more);
      more := [step] + more;
    }
  }

  ghost predicate CanFinish(c: Setup, w: World) {
    exists more :: Play(c, w, more).queueJob.Done? && Play(c, w, more).appJob.Done?
  }

  /**
   After every interleaving and any failures, both jobs can still be brought to success exactly when one UpsertQueues
   followed by one UpsertApplications would have succeeded from the start.
   */
  lemma RetriesFinishExactly(c: Setup, steps: seq<Step>)
    requires UniqueKeys(c.store.queues) && UniqueKeys(c.store.apps)
    ensures CanFinish(c, Play(c, World(c.store, Before(0), Before(0)), steps)) <==> Sequential(c)
  {
    hide Play;
    var start := World(c.store, Before(0), Before(0));
    var w := Play(c, start, steps);
    if Sequential(c) {
      StartInv(c);
      var m, n := PlayKeepsInv(c, start, steps, 0, 0);
      var first, m1, n1 := FinishQueueJob(c, w, m, n);
      var second := FinishAppJob(c, Play(c, w, first), m1, n1);
      PlayAppend(c, w, first, second);
    }
    if CanFinish(c, w) {
      var more :| Play(c, w, more).queueJob.Done? && Play(c, w, more).appJob.Done?;
      PlayAppend(c, start, steps, more);
      RetriesConverge(c, steps + more);
    }
  }

  // ----- attempts that break off -----

  ghost predicate NoFailure(steps: seq<Step>) {
    QueueFail !in steps && AppFail !in steps
  }

  /**
   An attempt of the queue job, which ends, or breaks off after any number of rows and starts over at its first row.
   Unless the database stops answering it does so by its own steps.
   */
  lemma {:induction false} QueueAttempt(c: Setup, w: World, i: nat, budget: nat) returns (steps: seq<Step>)
    requires w.queueJob == Before(i) && i <= |c.qs|
    ensures var r := UpsertAll(w.store.queues, c.u.queue, c.qs[i..], budget);
            && Play(c, w, steps) == World(w.store.(queues := r.table), if r.ok then Done else Before(0), w.appJob)
            && (r.ok || r.budget > 0 ==> NoFailure(steps))
    decreases |c.qs| - i
  {
    hide Play;
    var t := w.store.queues;
    if i == |c.qs| {
      assert c.qs[i..] == [];
      steps := OneStep(c, w, QueueEnd);
    } else {
      var q := c.qs[i];
      assert c.qs[i..][0] == q && c.qs[i..][1..] == c.qs[i + 1..];
      var found := Lookup(t, q.parent, q.partition);
      if budget == 0 {
        steps := OneStep(c, w, QueueFail);
      } else if found.Err? {
        steps := OneStep(c, w, QueueLookup);
      } else if UpsertRow(t, c.u.queue, q).Err? {
        var w1 := w.(queueJob := Holding(i, found.value));
        steps := TwoSteps(c, w, QueueLookup, w1, QueueExec, w.(queueJob := Before(0)), []);
        PlayNothing(c, w.(queueJob := Before(0)));
      } else {
        var w1 := w.(queueJob := Holding(i, found.value));
        var w2 := World(w.store.(queues := UpsertRow(t, c.u.queue, q).value), Before(i + 1), w.appJob);
        var rest := QueueAttempt(c, w2, i + 1, budget - 1);
        steps := TwoSteps(c, w, QueueLookup, w1, QueueExec, w2, rest);
      }
    }
  }

  lemma {:induction false} AppAttempt(c: Setup, w: World, i: nat, budget: nat) returns (steps: seq<Step>)
    requires w.appJob == Before(i) && i <= |c.apps|
    ensures var r := UpsertApps(w.store.apps, w.store.queues, c.u.app, c.apps[i..], budget);
            && Play(c, w, steps) == World(w.store.(apps := r.table), w.queueJob, if r.ok then Done else Before(0))
            && (r.ok || r.budget > 0 ==> NoFailure(steps))
    decreases |c.apps| - i
  {
    hide Play;
    var (t, queues) := (w.store.apps, w.store.queues);
    if i == |c.apps| {
      assert c.apps[i..] == [];
      steps := OneStep(c, w, AppEnd);
    } else {
      var a := c.apps[i];
      assert c.apps[i..][0] == a && c.apps[i..][1..] == c.apps[i + 1..];
      var found := Lookup(queues, a.queueName, a.partition);
      if budget == 0 {
        steps := OneStep(c, w, AppFail);
      } else if found.Err? {
        steps := OneStep(c, w, AppLookup);
      } else if AppRow(t, queues, c.u.app, a).Err? {
        var w1 := w.(appJob := Holding(i, found.value));
        steps := TwoSteps(c, w, AppLookup, w1, AppExecute, w.(appJob := Before(0)), []);
        PlayNothing(c, w.(appJob := Before(0)));
      } else {
        var w1 := w.(appJob := Holding(i, found.value));
        var w2 := World(w.store.(apps := AppRow(t, queues, c.u.app, a).value), w.queueJob, Before(i + 1));
        var rest := AppAttempt(c, w2, i + 1, budget - 1);
        steps := TwoSteps(c, w, AppLookup, w1, AppExecute, w2, rest);
      }
    }
  }

  lemma PlayNothing(c: Setup, w: World)
    ensures Play(c, w, []) == w
  {
  }

  lemma OneStep(c: Setup, w: World, step: Step) returns (steps: seq<Step>)
    ensures Play(c, w, steps) == Next(c, w, step) && steps == [step]
  {
    hide Next;
    steps := [step] + [];
    PlayUnfold(c, w, step, []);
  }

  lemma TwoSteps(c: Setup, w: World, a: Step, w1: World, b: Step, w2: World, rest: seq<Step>) returns (steps: seq<Step>)
    requires Next(c, w, a) == w1 && Next(c, w1, b) == w2
    ensures Play(c, w, steps) == Play(c, w2, rest) && steps == [a, b] + rest
  {
    hide Next;
    steps := [a] + ([b] + rest);
    PlayUnfold(c, w, a, [b] + rest);
    PlayUnfold(c, w1, b, rest);
  }
}
