/**
 The work queue (internal/workqueue/workqueue.go) as an interleaving of the atomic steps of any
 number of Add calls, one Run, Shutdown, and the goroutines that execute and retry jobs.

 Timers and the caller's context are nondeterministic: a step may happen whenever the code permits it.
 */
module WorkQueue {
  import opened Options
  import opened Backoff

  /** newItem: the id is fresh, so the order of appending can stand for it. */
  datatype Item = Item(id: nat, job: string)

  /** Where Run stands. */
  datatype RunPc =
    | NotStarted
    | Selecting            // in the select
    | Received             // took a signal, has not popped yet
    | Holding(item: Item)  // popped, has not spawned the goroutine yet
    | Stopped

  datatype Status = Spawned | Active | Succeeded | Cancelled

  /** One executeWithRetry: the job it calls, the outcomes of its attempts and the delay before the next. */
  datatype Execution = Execution(job: string, attempts: seq<bool>, delay: int, status: Status)

  datatype State = State(
    queue: seq<Item>,
    started: bool,
    open: bool,                    // signal has not been closed
    checked: map<nat, string>,     // Add calls past the started check, with their job
    sending: set<nat>,             // Add calls that appended and are blocked in their send
    used: set<nat>,                // all Add calls so far
    run: RunPc,
    executions: map<nat, Execution>,
    jobsCancelled: bool,           // Run has returned and cancelled the jobs' context
    running: int,
    crashed: bool,                 // a send hit the closed channel
    appended: seq<Item>,           // history: items in lock order
    popped: seq<Item>,             // history: items in the order Run popped them
    emptySignals: nat)             // times "received a signal but queue is empty" was logged

  const Initial: State :=
    State([], false, true, map[], {}, {}, NotStarted, map[], false, 0, false, [], [], 0)

  datatype Step =
    | Start
    | Check(call: nat, job: string)
    | Append(call: nat)
    | Rendezvous(call: nat)
    | SendOnClosed(call: nat)
    | ReceiveClosed
    | Pop
    | Spawn
    | ContextDone
    | Shutdown
    | Begin(id: nat)
    | Attempt(id: nat, ok: bool)
    | Cancel(id: nat)

  /** The queue and its head, as pop leaves and returns them. */
  function PopQueue(queue: seq<Item>): (Option<Item>, seq<Item>) {
    if queue == [] then (None, []) else (Some(queue[0]), queue[1..])
  }

  /** One round of the retry loop in which the timer fired. */
  function AfterAttempt(initialDelay: int, e: Execution, ok: bool): Execution {
    if ok then e.(attempts := e.attempts + [true], status := Succeeded)
    else e.(attempts := e.attempts + [false], delay := Raise(initialDelay, e.delay))
  }

  predicate HasStatus(s: State, id: nat, status: Status) {
    id in s.executions && s.executions[id].status == status
  }

  /** A step the code does not permit in this state changes nothing; nothing happens after a crash. */
  function Next(initialDelay: int, s: State, step: Step): State {
    if s.crashed then s else
    match step
    case Start => if s.run.NotStarted? then s.(started := true, run := Selecting) else s
    case Check(a, job) =>
      if a in s.used then s
      else if !s.started then s.(used := s.used + {a})
      else s.(used := s.used + {a}, checked := s.checked[a := job])
    case Append(a) =>
      if a !in s.checked then s
      else
        var item := Item(|s.appended|, s.checked[a]);
        s.(queue := s.queue + [item], appended := s.appended + [item], checked := s.checked - {a}, sending := s.sending + {a})
    case Rendezvous(a) =>
      if a in s.sending && s.open && s.run.Selecting? then s.(sending := s.sending - {a}, run := Received) else s
    case SendOnClosed(a) => if a in s.sending && !s.open then s.(crashed := true) else s
    case ReceiveClosed => if !s.open && s.run.Selecting? then s.(run := Received) else s
    case Pop =>
      if !s.run.Received? then s
      else
        var (head, rest) := PopQueue(s.queue);
        if head.None? then s.(run := Selecting, emptySignals := s.emptySignals + 1)
        else s.(run := Holding(head.value), queue := rest, popped := s.popped + [head.value])
    case Spawn =>
      if s.run.Holding? then
        s.(run := Selecting, executions := s.executions[s.run.item.id := Execution(s.run.item.job, [], 0, Spawned)])
      else s
    case ContextDone =>
      if s.run.Selecting? then s.(run := Stopped, started := false, open := s.open && !s.started, jobsCancelled := true) else s
    case Shutdown => if s.started then s.(started := false, open := false) else s
    case Begin(j) =>
      if HasStatus(s, j, Spawned) then
        s.(running := s.running + 1, executions := s.executions[j := s.executions[j].(status := Active)])
      else s
    case Attempt(j, ok) =>
      if HasStatus(s, j, Active) then
        s.(executions := s.executions[j := AfterAttempt(initialDelay, s.executions[j], ok)],
           running := if ok then s.running - 1 else s.running)
      else s
    case Cancel(j) =>
      if HasStatus(s, j, Active) && s.jobsCancelled then
        s.(executions := s.executions[j := s.executions[j].(status := Cancelled)], running := s.running - 1)
      else s
  }

  function Play(initialDelay: int, s: State, steps: seq<Step>): State
    decreases steps
  {
    if steps == [] then s else Play(initialDelay, Next(initialDelay, s, steps[0]), steps[1..])
  }

  // ----- the token invariant -----

  /** While the channel is open, every queued item has a sender still blocked or a signal just received. */
  ghost predicate Tokens(s: State) {
    && s.checked.Keys !! s.sending && s.checked.Keys <= s.used && s.sending <= s.used
    && (s.open ==> |s.queue| == |s.sending| + (if s.run.Received? then 1 else 0) && s.emptySignals == 0)
  }

  lemma StepKeepsTokens(d: int, s: State, step: Step)
    requires Tokens(s)
    ensures Tokens(Next(d, s, step))
  {
  }

  // ----- conservation -----

  /** The item Run has popped and not yet spawned. */
  function Held(s: State): Option<Item> {
    if s.run.Holding? then Some(s.run.item) else None
  }

  /** Items for which a goroutine was spawned. */
  function DispatchedCount(s: State): int {
    |s.popped| - (if s.run.Holding? then 1 else 0)
  }

  /** Items popped, then the queue, are all items in the order they were appended; each has its own execution. */
  ghost predicate InOrder(queue: seq<Item>, popped: seq<Item>, appended: seq<Item>, held: Option<Item>, ids: set<nat>) {
    && popped + queue == appended
    && (forall i :: 0 <= i < |appended| ==> appended[i].id == i)
    && (held.Some? ==> popped != [] && popped[|popped| - 1] == held.value)
    && (forall j: nat :: j in ids <==> j < |popped| - (if held.Some? then 1 else 0))
  }

  ghost predicate Conserved(s: State) {
    InOrder(s.queue, s.popped, s.appended, Held(s), s.executions.Keys)
  }

  lemma HeldIsNext(queue: seq<Item>, popped: seq<Item>, appended: seq<Item>, item: Item, ids: set<nat>)
    requires InOrder(queue, popped, appended, Some(item), ids)
    ensures item.id == |popped| - 1 < |appended| && item.id !in ids && appended[item.id] == item
    ensures InOrder(queue, popped, appended, None, ids + {item.id})
  {
    assert appended[|popped| - 1] == item;
  }

  lemma PopInOrder(queue: seq<Item>, popped: seq<Item>, appended: seq<Item>, ids: set<nat>)
    requires InOrder(queue, popped, appended, None, ids) && queue != []
    ensures InOrder(queue[1..], popped + [queue[0]], appended, Some(queue[0]), ids)
  {
    assert popped + [queue[0]] + queue[1..] == popped + queue;
  }

  lemma AppendInOrder(queue: seq<Item>, popped: seq<Item>, appended: seq<Item>, held: Option<Item>, ids: set<nat>, item: Item)
    requires InOrder(queue, popped, appended, held, ids) && item.id == |appended|
    ensures InOrder(queue + [item], popped, appended + [item], held, ids)
  {
    assert popped + (queue + [item]) == popped + queue + [item];
  }

  lemma StepKeepsConserved(d: int, s: State, step: Step)
    requires Conserved(s)
    ensures Conserved(Next(d, s, step))
  {
    hide InOrder;
    hide AfterAttempt;
    var ids := s.executions.Keys;
    match step {
      case Append(a) =>
        if a in s.checked {
          AppendInOrder(s.queue, s.popped, s.appended, Held(s), ids, Item(|s.appended|, s.checked[a]));
        }
      case Pop =>
        if s.run.Received? && s.queue != [] {
          PopInOrder(s.queue, s.popped, s.appended, ids);
        }
      case Spawn =>
        if s.run.Holding? {
          HeldIsNext(s.queue, s.popped, s.appended, s.run.item, ids);
          assert s.executions[s.run.item.id := Execution(s.run.item.job, [], 0, Spawned)].Keys == ids + {s.run.item.id};
        }
      case _ =>
        OthersKeepOrder(d, s, step);
    }
  }

  lemma OthersKeepOrder(d: int, s: State, step: Step)
    requires !step.Append? && !step.Pop? && !step.Spawn?
    ensures var s' := Next(d, s, step);
            && s'.queue == s.queue && s'.popped == s.popped && s'.appended == s.appended && Held(s') == Held(s)
            && s'.executions.Keys == s.executions.Keys
  {
    hide AfterAttempt;
  }

  // ----- retries -----

  ghost predicate OnlyFailures(attempts: seq<bool>) {
    forall i :: 0 <= i < |attempts| ==> !attempts[i]
  }

  /**
   Attempts are failures followed by at most one success; the job ended in success exactly if there is
   one, was given up only on cancellation, and its delay is the backoff for its failures so far.
   */
  ghost predicate Retried(d: int, cancelled: bool, e: Execution) {
    && (e.status.Succeeded? ==> e.attempts != [] && e.attempts[|e.attempts| - 1] && OnlyFailures(e.attempts[..|e.attempts| - 1]))
    && (!e.status.Succeeded? ==> OnlyFailures(e.attempts) && e.delay == DelayAfter(d, |e.attempts|))
    && (e.status.Cancelled? ==> cancelled)
    && (e.status.Spawned? ==> e.attempts == [])
  }

  ghost predicate AllRetried(d: int, s: State) {
    forall j :: j in s.executions ==> Retried(d, s.jobsCancelled, s.executions[j])
  }

  lemma AttemptKeepsRetried(d: int, cancelled: bool, e: Execution, ok: bool)
    requires Retried(d, cancelled, e) && e.status.Active?
    ensures Retried(d, cancelled, AfterAttempt(d, e, ok))
  {
    assert (e.attempts + [true])[..|e.attempts|] == e.attempts;
  }

  lemma StepKeepsRetried(d: int, s: State, step: Step)
    requires AllRetried(d, s) && Conserved(s)
    ensures AllRetried(d, Next(d, s, step))
  {
    if step.Attempt? && HasStatus(s, step.id, Active) {
      AttemptKeepsRetried(d, s.jobsCancelled, s.executions[step.id], step.ok);
    }
  }

  // ----- the running counter -----

  ghost function ActiveJobs(executions: map<nat, Execution>): set<nat> {
    set j | j in executions && executions[j].status.Active?
  }

  ghost predicate Counted(s: State) {
    s.running == |ActiveJobs(s.executions)|
  }

  /** 1 for a job whose goroutine is between its begin and its end, else 0. */
  ghost function Weight(executions: map<nat, Execution>, j: nat): int {
    if j in executions && executions[j].status.Active? then 1 else 0
  }

  /** Changing one execution changes the number of active jobs by that one at most. */
  lemma ActiveAfter(executions: map<nat, Execution>, j: nat, e: Execution)
    ensures |ActiveJobs(executions[j := e])| ==
            |ActiveJobs(executions)| - Weight(executions, j) + (if e.status.Active? then 1 else 0)
  {
    var before, after := ActiveJobs(executions), ActiveJobs(executions[j := e]);
    if e.status.Active? {
      assert after == before + {j};
    } else {
      assert after == before - {j};
    }
  }

  lemma StepKeepsCounted(d: int, s: State, step: Step)
    requires Counted(s) && Conserved(s)
    ensures Counted(Next(d, s, step))
  {
    hide ActiveJobs;
    hide InOrder;
    hide Raise;
    match step {
      case Begin(j) =>
        if HasStatus(s, j, Spawned) {
          ActiveAfter(s.executions, j, s.executions[j].(status := Active));
        }
      case Attempt(j, ok) =>
        if HasStatus(s, j, Active) {
          ActiveAfter(s.executions, j, AfterAttempt(d, s.executions[j], ok));
        }
      case Cancel(j) =>
        if HasStatus(s, j, Active) {
          ActiveAfter(s.executions, j, s.executions[j].(status := Cancelled));
        }
      case Spawn =>
        if s.run.Holding? {
          HeldIsNext(s.queue, s.popped, s.appended, s.run.item, s.executions.Keys);
          ActiveAfter(s.executions, s.run.item.id, Execution(s.run.item.job, [], 0, Spawned));
        }
      case _ =>
        assert Next(d, s, step).executions == s.executions;
    }
  }

  // ----- the jobs executed -----

  /** Each goroutine calls the job of the item it was spawned for. */
  ghost predicate OwnJobs(s: State) {
    forall j :: j in s.executions ==> j < |s.appended| && s.executions[j].job == s.appended[j].job
  }

  lemma StepKeepsOwnJobs(d: int, s: State, step: Step)
    requires OwnJobs(s) && Conserved(s)
    ensures OwnJobs(Next(d, s, step))
  {
    hide InOrder;
    hide Raise;
    if step.Spawn? && s.run.Holding? {
      HeldIsNext(s.queue, s.popped, s.appended, s.run.item, s.executions.Keys);
    }
  }

  // ----- every run -----

  ghost predicate Inv(d: int, s: State) {
    Tokens(s) && Conserved(s) && AllRetried(d, s) && Counted(s) && OwnJobs(s)
  }

  /** Every run from the start keeps the invariant. */
  lemma RunsAreSound(d: int, steps: seq<Step>)
    ensures Inv(d, Play(d, Initial, steps))
  {
    assert ActiveJobs(Initial.executions) == {};
    RunsKeepInv(d, Initial, steps);
  }

  lemma {:induction false} RunsKeepInv(d: int, s: State, steps: seq<Step>)
    requires Inv(d, s)
    ensures Inv(d, Play(d, s, steps))
    decreases steps
  {
    hide Next;
    hide Tokens;
    hide Conserved;
    hide AllRetried;
    hide Counted;
    hide OwnJobs;
    if steps != [] {
      StepKeepsOwnJobs(d, s, steps[0]);
      StepKeepsTokens(d, s, steps[0]);
      StepKeepsConserved(d, s, steps[0]);
      StepKeepsRetried(d, s, steps[0]);
      StepKeepsCounted(d, s, steps[0]);
      RunsKeepInv(d, Next(d, s, steps[0]), steps[1..]);
    }
  }

  /**
   Token invariant: in every interleaving, while the channel is open the queue length is the number
   of adders that appended and have not completed their send, plus one if Run has received and not
   popped; so a pop finds an item and the "queue is empty" branch is never taken.
   */
  lemma QueueMatchesSignals(d: int, steps: seq<Step>)
    ensures var s := Play(d, Initial, steps);
            s.open ==>
              && |s.queue| == |s.sending| + (if s.run.Received? then 1 else 0)
              && (s.run.Received? ==> PopQueue(s.queue).0.Some?)
              && s.emptySignals == 0
  {
    RunsKeepInv(d, Initial, steps);
  }

  /** The items with a goroutine, in the order of dispatch. */
  function Dispatched(s: State): seq<Item>
    requires 0 <= DispatchedCount(s) <= |s.popped|
  {
    s.popped[..DispatchedCount(s)]
  }

  /**
   FIFO conservation on every run, shutdown included: dispatched jobs, the job about to be
   dispatched, and the queue are together all appended jobs in lock order, and the k-th appended job
   has exactly one execution once dispatched and none before.
   */
  lemma NothingLostOrRepeated(d: int, steps: seq<Step>)
    ensures var s := Play(d, Initial, steps);
            && 0 <= DispatchedCount(s) <= |s.popped|
            && Dispatched(s) + (if s.run.Holding? then [s.run.item] else []) + s.queue == s.appended
            && (forall i, j :: 0 <= i < j < |s.appended| ==> s.appended[i].id != s.appended[j].id)
            && (forall k :: 0 <= k < |s.appended| ==>
                  (s.appended[k].id in s.executions <==> k < DispatchedCount(s)))
            && (forall k :: 0 <= k < DispatchedCount(s) ==>
                  s.appended[k].id in s.executions && s.executions[s.appended[k].id].job == s.appended[k].job)
  {
    hide Play;
    RunsAreSound(d, steps);
    var s := Play(d, Initial, steps);
    if s.run.Holding? {
      HeldIsNext(s.queue, s.popped, s.appended, s.run.item, s.executions.Keys);
      assert s.popped == s.popped[..|s.popped| - 1] + [s.run.item];
    }
  }

  /** On every run each job fails any number of times and succeeds at most once, last; it is given up only on cancellation. */
  lemma JobsRetryUntilSuccess(d: int, steps: seq<Step>, j: nat)
    requires j in Play(d, Initial, steps).executions
    ensures var s := Play(d, Initial, steps);
            var e := s.executions[j];
            && (forall i :: 0 <= i < |e.attempts| - 1 ==> !e.attempts[i])
            && (e.status.Succeeded? <==> e.attempts != [] && e.attempts[|e.attempts| - 1])
            && (e.status.Cancelled? ==> s.jobsCancelled)
            && (!e.status.Succeeded? ==> e.delay == DelayAfter(d, |e.attempts|))
            && s.running == |ActiveJobs(s.executions)|
  {
    hide Play;
    hide ActiveJobs;
    hide DelayAfter;
    RunsAreSound(d, steps);
    var s := Play(d, Initial, steps);
    assert Retried(d, s.jobsCancelled, s.executions[j]);
    var e := s.executions[j];
    if e.status.Succeeded? {
      assert forall i :: 0 <= i < |e.attempts| - 1 ==> e.attempts[i] == e.attempts[..|e.attempts| - 1][i];
    }
  }

  // ----- shutting down under a pending Add -----

  /** Run was started once and is being or has been shut down: the channel is closed and stays so. */
  ghost predicate Closed(s: State) {
    !s.crashed && !s.open && !s.started && !s.run.NotStarted?
  }

  /** No Add is between its started check and the end of its send. */
  ghost predicate NoAddPending(s: State) {
    s.sending == {} && s.checked == map[]
  }

  lemma StepKeepsQuiet(d: int, s: State, step: Step)
    requires Closed(s) && NoAddPending(s)
    ensures Closed(Next(d, s, step)) && NoAddPending(Next(d, s, step))
  {
    hide AfterAttempt;
  }

  lemma {:induction false} RunsKeepQuiet(d: int, s: State, steps: seq<Step>)
    requires Closed(s) && NoAddPending(s)
    ensures !Play(d, s, steps).crashed
    decreases steps
  {
    hide Next;
    if steps != [] {
      StepKeepsQuiet(d, s, steps[0]);
      RunsKeepQuiet(d, Next(d, s, steps[0]), steps[1..]);
    }
  }

  ghost predicate CanCrash(d: int, s: State) {
    exists steps :: Play(d, s, steps).crashed
  }

  /** After a closing of the channel the process can crash exactly if an Add is past its started check and not done. */
  lemma ClosedCrashesExactly(d: int, s: State)
    requires Closed(s)
    ensures CanCrash(d, s) <==> !NoAddPending(s)
  {
    if NoAddPending(s) {
      forall steps ensures !Play(d, s, steps).crashed {
        RunsKeepQuiet(d, s, steps);
      }
    } else if s.sending != {} {
      var a :| a in s.sending;
      PlayOne(d, s, SendOnClosed(a));
    } else {
      var a :| a in s.checked;
      PlayTwo(d, s, Append(a), SendOnClosed(a));
    }
  }

  lemma PlayOne(d: int, s: State, a: Step)
    ensures Play(d, s, [a]) == Next(d, s, a)
  {
    hide Next;
    assert [a][1..] == [];
    assert Play(d, Next(d, s, a), []) == Next(d, s, a);
  }

  lemma PlayTwo(d: int, s: State, a: Step, b: Step)
    ensures Play(d, s, [a, b]) == Next(d, Next(d, s, a), b)
  {
    hide Next;
    assert [a, b][1..] == [b];
    PlayOne(d, Next(d, s, a), b);
  }

  /** Once Run has started, the queue is started or closed, and closed once Run has ended; before, no Add got past its check. */
  ghost predicate Phased(s: State) {
    && (if s.run.NotStarted? then !s.started && s.open && NoAddPending(s) else s.started == s.open)
    && (s.jobsCancelled ==> s.run.Stopped?) && (s.run.Stopped? ==> !s.started)
  }

  lemma {:induction false} RunsKeepPhased(d: int, s: State, steps: seq<Step>)
    requires Phased(s)
    ensures Phased(Play(d, s, steps))
    decreases steps
  {
    hide Next;
    if steps != [] {
      StepKeepsPhased(d, s, steps[0]);
      RunsKeepPhased(d, Next(d, s, steps[0]), steps[1..]);
    }
  }

  lemma StepKeepsPhased(d: int, s: State, step: Step)
    requires Phased(s)
    ensures Phased(Next(d, s, step))
  {
    hide AfterAttempt;
  }

  /**
   On every run: closing the channel, by Shutdown or by Run's own end, lets the process crash exactly
   when some Add is at that moment past its started check and has not completed its send, whether or not it
   has appended its item.
   */
  lemma ShutdownCrashesExactly(d: int, before: seq<Step>, closing: Step)
    requires !Play(d, Initial, before).crashed
    requires var s := Play(d, Initial, before);
             (closing == Shutdown && s.started) || (closing == ContextDone && s.run.Selecting?)
    ensures var s := Play(d, Initial, before);
            CanCrash(d, Next(d, s, closing)) <==> s.sending != {} || s.checked != map[]
  {
    hide Play;
    RunsKeepPhased(d, Initial, before);
    ClosedCrashesExactly(d, Next(d, Play(d, Initial, before), closing));
  }

  /** An Add that has not made its check yet. */
  lemma FreshCall(used: set<nat>) returns (a: nat)
    ensures a !in used
  {
    a := 0;
    var rest := used;
    while a in used
      invariant forall b :: b in rest <==> b in used && a <= b
      decreases |rest|
    {
      rest := rest - {a};
      a := a + 1;
    }
  }

  /**
   On every run: the process is out of danger for good exactly when Run has been shut down and no
   Add is pending; in every other state some continuation crashes it.
   */
  lemma OutOfDangerExactly(d: int, before: seq<Step>)
    requires !Play(d, Initial, before).crashed
    ensures var s := Play(d, Initial, before);
            !CanCrash(d, s) <==> !s.run.NotStarted? && !s.started && s.sending == {} && s.checked == map[]
  {
    hide Play;
    RunsKeepPhased(d, Initial, before);
    var s := Play(d, Initial, before);
    if s.run.NotStarted? {
      var s1 := Next(d, s, Start);
      StartedCanCrash(d, s1);
      CrashLater(d, s, Start);
    } else if s.started {
      StartedCanCrash(d, s);
    } else {
      ClosedCrashesExactly(d, s);
    }
  }

  lemma CrashLater(d: int, s: State, step: Step)
    requires CanCrash(d, Next(d, s, step))
    ensures CanCrash(d, s)
  {
    hide Next;
    var steps :| Play(d, Next(d, s, step), steps).crashed;
    assert ([step] + steps)[1..] == steps;
    assert Play(d, s, [step] + steps).crashed;
  }

  /** One more Add, caught by a Shutdown after its check, is enough. */
  lemma StartedCanCrash(d: int, s: State)
    requires !s.crashed && s.started && !s.run.NotStarted?
    ensures CanCrash(d, s)
  {
    var a := FreshCall(s.used);
    var s1 := Next(d, s, Check(a, "job"));
    var s2 := Next(d, s1, Shutdown);
    assert a in s2.checked;
    ClosedCrashesExactly(d, s2);
    CrashLater(d, s1, Shutdown);
    CrashLater(d, s, Check(a, "job"));
  }

  /** A run that ends so: Shutdown finds no send blocked, but an Add past its check, which then appends and sends. */
  lemma CrashExample(d: int)
    ensures var s := Play(d, Initial, [Start, Check(0, "job")]);
            s.sending == {} && Play(d, Next(d, s, Shutdown), [Append(0), SendOnClosed(0)]).crashed
  {
    PlayTwo(d, Initial, Start, Check(0, "job"));
    PlayTwo(d, Next(d, Play(d, Initial, [Start, Check(0, "job")]), Shutdown), Append(0), SendOnClosed(0));
  }

  // ----- the code of the critical sections and of the retry loop -----

  /** What one pass through the retry loop's select sees. */
  datatype Wake = ContextIsDone | TimerFired(ok: bool)

  /** How executeWithRetry ended, or that it is still retrying when the script of wake-ups ends. */
  datatype Ending = GaveUp | Finished | Retrying

  class Queue {
    var queue: seq<Item>
    var started: bool
    var open: bool
    var appended: nat
    const initialDelay: int

    constructor (initialDelay: int)
      ensures Shows(Initial) && this.initialDelay == initialDelay
    {
      queue, started, open, appended := [], false, true, 0;
      this.initialDelay := initialDelay;
    }

    /** The fields are those of the state of the step relation. */
    ghost predicate Shows(s: State)
      reads this
    {
      queue == s.queue && started == s.started && open == s.open && appended == |s.appended|
    }

    /** The unlocked test at the head of Add: the Check step, after which the call may append or has returned an error. */
    method CheckStarted(ghost s: State, ghost call: nat, job: string) returns (ok: bool)
      requires Shows(s) && Tokens(s) && !s.crashed && call !in s.used
      ensures Shows(Next(initialDelay, s, Check(call, job)))
      ensures ok <==> call in Next(initialDelay, s, Check(call, job)).checked
    {
      ok := started;
    }

    /** The locked part of Add: the Append step of a call past its check, whatever happened since. */
    method Enqueue(ghost s: State, ghost call: nat, job: string)
      requires Shows(s) && !s.crashed && call in s.checked && s.checked[call] == job
      modifies `queue, `appended
      ensures Shows(Next(initialDelay, s, Append(call)))
    {
      queue := queue + [Item(appended, job)];
      appended := appended + 1;
    }

    /** pop: the Pop step of Run after a signal. */
    method Dequeue(ghost s: State) returns (head: Option<Item>)
      requires Shows(s) && !s.crashed && s.run.Received?
      modifies `queue
      ensures Shows(Next(initialDelay, s, Pop))
      ensures head.Some? ==> old(queue) == [head.value] + queue && Next(initialDelay, s, Pop).run == Holding(head.value)
      ensures head.None? ==> old(queue) == [] == queue && Next(initialDelay, s, Pop).run == Selecting
    {
      if |queue| == 0 {
        return None;
      }
      head := Some(queue[0]);
      queue := queue[1..];
    }

    /** Shutdown, as the Shutdown step. */
    method Stop(ghost s: State)
      requires Shows(s) && !s.crashed
      modifies `started, `open
      ensures Shows(Next(initialDelay, s, Shutdown))
    {
      if started {
        started := false;
        open := false;
      }
    }

    /** executeWithRetry against a script of wake-ups; `delays` records the delay waited for before each. */
    method ExecuteWithRetry(script: seq<Wake>) returns (delays: seq<int>, ending: Ending, retries: nat)
      ensures |delays| <= |script| && retries <= |delays|
      ensures forall i :: 0 <= i < |delays| ==> delays[i] == DelayAfter(initialDelay, i)
      ensures forall i :: 0 <= i < retries ==> script[i] == TimerFired(false)
      ensures match ending
              case Retrying => |delays| == |script| == retries
              case Finished => |delays| == retries + 1 && script[retries] == TimerFired(true)
              case GaveUp => |delays| == retries + 1 && script[retries] == ContextIsDone
    {
      hide DelayAfter;
      hide Wrap64;
      var backoff := 0;
      DelayStart(initialDelay);
      retries := 0;
      delays := [];
      for i := 0 to |script|
        invariant retries == i == |delays| && backoff == DelayAfter(initialDelay, i)
        invariant forall k :: 0 <= k < i ==> delays[k] == DelayAfter(initialDelay, k) && script[k] == TimerFired(false)
      {
        DelayStep(initialDelay, i);
        delays := delays + [backoff];
        match script[i] {
          case ContextIsDone =>
            return delays, GaveUp, retries;
          case TimerFired(true) =>
            return delays, Finished, retries;
          case TimerFired(false) =>
            if backoff == 0 {
              backoff := initialDelay;
            } else if backoff < MAX_BACKOFF {
              backoff := Wrap64(backoff * 2);
            }
            retries := retries + 1;
        }
      }
      ending := Retrying;
    }
  }
}
