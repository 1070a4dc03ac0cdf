/**
 What becomes of a job handed to Add (internal/workqueue/workqueue.go), told by the steps of the run alone, and that
 the queue gets every job to its end.
 */
module JobFlow {
  import opened Options
  import opened Backoff
  import opened WorkQueue

  // ----- which calls added which jobs -----

  /** The first check made by its call. */
  ghost predicate FirstCheck(steps: seq<Step>, i: nat)
    requires i < |steps|
  {
    steps[i].Check? && forall j :: 0 <= j < i ==> !(steps[j].Check? && steps[j].call == steps[i].call)
  }

  ghost predicate AdmittedAt(d: int, steps: seq<Step>, call: nat, job: string, i: nat)
    requires i < |steps|
  {
    && steps[i] == Check(call, job) && FirstCheck(steps, i)
    && Play(d, Initial, steps[..i]).started && !Play(d, Initial, steps[..i]).crashed
  }

  /** Add(job) was called as `call` and found the queue started. */
  ghost predicate Admitted(d: int, steps: seq<Step>, call: nat, job: string) {
    exists i :: 0 <= i < |steps| && AdmittedAt(d, steps, call, job, i)
  }

  /** The calls whose append took effect, in the order of the lock. */
  function AppendedBy(d: int, steps: seq<Step>): seq<nat> {
    if steps == [] then []
    else
      var front, last := steps[..|steps| - 1], steps[|steps| - 1];
      if last.Append? && |Play(d, Initial, steps).appended| != |Play(d, Initial, front).appended|
      then AppendedBy(d, front) + [last.call] else AppendedBy(d, front)
  }

  lemma {:induction false} PlayAppend(d: int, s: State, a: seq<Step>, b: seq<Step>)
    ensures Play(d, s, a + b) == Play(d, Play(d, s, a), b)
    decreases a
  {
    hide Next;
    if a == [] {
      assert a + b == b;
    } else {
      assert (a + b)[0] == a[0] && (a + b)[1..] == a[1..] + b;
      PlayAppend(d, Next(d, s, a[0]), a[1..], b);
    }
  }

  lemma PlayOneMore(d: int, front: seq<Step>, last: Step)
    ensures Play(d, Initial, front + [last]) == Next(d, Play(d, Initial, front), last)
  {
    hide Next;
    PlayAppend(d, Initial, front, [last]);
    PlayOne(d, Play(d, Initial, front), last);
  }

  /** One more step admits its own call at most. */
  lemma AdmittedOneMore(d: int, front: seq<Step>, last: Step, call: nat, job: string)
    ensures Admitted(d, front + [last], call, job) <==>
            || Admitted(d, front, call, job)
            || (&& last == Check(call, job) && FirstCheck(front + [last], |front|)
                && Play(d, Initial, front).started && !Play(d, Initial, front).crashed)
  {
    hide Play;
    var all := front + [last];
    assert all[..|front|] == front;
    forall i | 0 <= i < |front| ensures AdmittedAt(d, all, call, job, i) <==> AdmittedAt(d, front, call, job, i) {
      assert all[..i] == front[..i];
    }
    if Admitted(d, all, call, job) {
      var i :| 0 <= i < |all| && AdmittedAt(d, all, call, job, i);
      assert i < |front| ==> AdmittedAt(d, front, call, job, i);
    }
    if Admitted(d, front, call, job) {
      var i :| 0 <= i < |front| && AdmittedAt(d, front, call, job, i);
      assert AdmittedAt(d, all, call, job, i);
    }
    if last == Check(call, job) && FirstCheck(all, |front|) && Play(d, Initial, front).started && !Play(d, Initial, front).crashed {
      assert AdmittedAt(d, all, call, job, |front|);
    }
  }

  ghost predicate HasChecked(steps: seq<Step>, call: nat) {
    exists i :: 0 <= i < |steps| && steps[i].Check? && steps[i].call == call
  }

  /** What the state knows of the steps that led to it. */
  ghost predicate Traced(d: int, steps: seq<Step>, s: State) {
    var adders := AppendedBy(d, steps);
    && |adders| == |s.appended|
    && (forall k :: 0 <= k < |adders| ==> Admitted(d, steps, adders[k], s.appended[k].job) && adders[k] !in s.checked && adders[k] in s.used)
    && (forall i, j :: 0 <= i < j < |adders| ==> adders[i] != adders[j])
    && (forall a :: a in s.checked ==> Admitted(d, steps, a, s.checked[a]) && a in s.used)
    && (forall a, job :: Admitted(d, steps, a, job) ==> (a in s.checked && s.checked[a] == job) || a in adders)
    && (forall a :: a in s.used ==> HasChecked(steps, a))
    && (!s.crashed ==> forall a :: HasChecked(steps, a) ==> a in s.used)
  }

  /** A step other than Check and Append leaves the calls and their items alone. */
  lemma OtherSteps(d: int, s: State, step: Step)
    requires !step.Check? && !step.Append?
    ensures var s' := Next(d, s, step);
            s'.checked == s.checked && s'.used == s.used && s'.appended == s.appended && (s.crashed ==> s'.crashed)
  {
    hide AfterAttempt;
  }

  lemma HasCheckedOneMore(front: seq<Step>, last: Step, call: nat)
    ensures HasChecked(front + [last], call) <==> HasChecked(front, call) || (last.Check? && last.call == call)
    ensures last.Check? && last.call == call ==> (FirstCheck(front + [last], |front|) <==> !HasChecked(front, call))
  {
    var all := front + [last];
    assert forall i :: 0 <= i < |front| ==> all[i] == front[i];
    assert all[|front|] == last;
  }

  lemma AppendedByOneMore(d: int, front: seq<Step>, last: Step)
    ensures var s := Play(d, Initial, front);
            AppendedBy(d, front + [last]) ==
            if last.Append? && |Next(d, s, last).appended| != |s.appended| then AppendedBy(d, front) + [last.call]
            else AppendedBy(d, front)
  {
    hide Next;
    hide Play;
    assert (front + [last])[..|front|] == front;
    PlayOneMore(d, front, last);
  }

  lemma TracedStep(d: int, front: seq<Step>, last: Step)
    requires Traced(d, front, Play(d, Initial, front))
    ensures Traced(d, front + [last], Next(d, Play(d, Initial, front), last))
  {
    hide Play;
    hide AppendedBy;
    hide Admitted;
    hide HasChecked;
    hide FirstCheck;
    hide Next;
    var s := Play(d, Initial, front);
    AppendedByOneMore(d, front, last);
    forall a, job
      ensures Admitted(d, front + [last], a, job) <==>
              || Admitted(d, front, a, job)
              || (last == Check(a, job) && FirstCheck(front + [last], |front|) && s.started && !s.crashed)
    {
      AdmittedOneMore(d, front, last, a, job);
    }
    forall a
      ensures HasChecked(front + [last], a) <==> HasChecked(front, a) || (last.Check? && last.call == a)
      ensures last.Check? && last.call == a ==> (FirstCheck(front + [last], |front|) <==> !HasChecked(front, a))
    {
      HasCheckedOneMore(front, last, a);
    }
    match last {
      case Check(_, _) => CheckStep(d, s, last);
      case Append(_) => AppendStep(d, s, last);
      case _ => OtherSteps(d, s, last);
    }
  }

  lemma CheckStep(d: int, s: State, step: Step)
    requires step.Check?
    ensures var s' := Next(d, s, step);
            && s'.appended == s.appended && s'.crashed == s.crashed
            && s'.used == (if s.crashed then s.used else s.used + {step.call})
            && s'.checked ==
               if s.crashed || step.call in s.used || !s.started then s.checked else s.checked[step.call := step.job]
  {
    assert step.call in s.used ==> s.used + {step.call} == s.used;
  }

  lemma AppendStep(d: int, s: State, step: Step)
    requires step.Append?
    ensures var s' := Next(d, s, step);
            && s'.used == s.used && s'.crashed == s.crashed
            && if s.crashed || step.call !in s.checked then s'.appended == s.appended && s'.checked == s.checked
               else |s'.appended| == |s.appended| + 1 && s'.appended[..|s.appended|] == s.appended
                    && s'.appended[|s.appended|].job == s.checked[step.call] && s'.checked == s.checked - {step.call}
  {
  }

  lemma {:induction false} RunsAreTraced(d: int, steps: seq<Step>)
    ensures Traced(d, steps, Play(d, Initial, steps))
    decreases |steps|
  {
    hide Next;
    if steps != [] {
      var front, last := steps[..|steps| - 1], steps[|steps| - 1];
      assert steps == front + [last];
      RunsAreTraced(d, front);
      TracedStep(d, front, last);
      PlayOneMore(d, front, last);
    }
  }

  /**
   On every run: the k-th item appended holds the job that the k-th appending call passed to Add, each admitted call appends
   once or has not appended yet, and the goroutine of an item calls that job.
   */
  lemma JobsAreThoseAdded(d: int, steps: seq<Step>)
    ensures var (s, adders) := (Play(d, Initial, steps), AppendedBy(d, steps));
            && |adders| == |s.appended|
            && (forall k :: 0 <= k < |adders| ==> Admitted(d, steps, adders[k], s.appended[k].job))
            && (forall i, j :: 0 <= i < j < |adders| ==> adders[i] != adders[j])
            && (forall a, job :: Admitted(d, steps, a, job) ==> (a in s.checked && s.checked[a] == job) || a in adders)
            && (forall j :: j in s.executions ==> j < |adders| && Admitted(d, steps, adders[j], s.executions[j].job))
  {
    hide Play;
    hide AppendedBy;
    hide Admitted;
    RunsAreTraced(d, steps);
    RunsAreSound(d, steps);
  }

  // ----- every job can be brought to its end -----

  /** The channel is open and Run is at work. */
  ghost predicate Working(d: int, s: State) {
    Inv(d, s) && Phased(s) && !s.crashed && s.open && !s.run.NotStarted?
  }

  /** The step that takes Run on. */
  ghost function Onward(s: State): Step {
    match s.run
    case Holding(_) => Spawn
    case Received => Pop
    case _ => if s.sending != {} then Rendezvous(var a :| a in s.sending; a) else Spawn
  }

  /** Steps Run has to go until all that is queued is dispatched. */
  function Weight(s: State): int {
    3 * |s.queue| + (match s.run case Received => -1 case Holding(_) => 1 case _ => 0)
  }

  lemma OnwardDispatches(d: int, s: State)
    requires Working(d, s) && Weight(s) != 0
    ensures var s' := Next(d, s, Onward(s));
            0 <= Weight(s') < Weight(s) && !s'.crashed && s'.open && !s'.run.NotStarted? && s'.appended == s.appended
  {
    hide Conserved;
    hide AllRetried;
    hide Counted;
    hide OwnJobs;
  }

  lemma WorkingStep(d: int, s: State, step: Step)
    requires Working(d, s)
    ensures Inv(d, Next(d, s, step)) && Phased(Next(d, s, step))
  {
    hide Next;
    hide Inv;
    PlayOne(d, s, step);
    RunsKeepInv(d, s, [step]);
    StepKeepsPhased(d, s, step);
  }

  /** Run dispatches everything that is queued. */
  lemma {:induction false} Drain(d: int, s: State) returns (more: seq<Step>)
    requires Working(d, s)
    ensures var s' := Play(d, s, more);
            Working(d, s') && s'.appended == s.appended && forall k: nat :: k < |s.appended| ==> k in s'.executions
    decreases Weight(s)
  {
    hide Next;
    hide Inv;
    hide Phased;
    hide Weight;
    if Weight(s) == 0 {
      more := [];
      AllDispatched(d, s);
    } else {
      var step := Onward(s);
      OnwardDispatches(d, s);
      WorkingStep(d, s, step);
      more := Drain(d, Next(d, s, step));
      assert ([step] + more)[1..] == more;
      more := [step] + more;
    }
  }

  lemma AllDispatched(d: int, s: State)
    requires Working(d, s) && Weight(s) == 0
    ensures forall k: nat :: k < |s.appended| ==> k in s.executions
  {
    assert s.run.Selecting? && s.queue == [];
    assert s.popped == s.appended;
  }

  // ----- attempts -----

  /** f failures and then a success. */
  function Outcomes(f: nat): seq<bool> {
    seq(f, i => false) + [true]
  }

  function Attempts(j: nat, outcomes: seq<bool>): seq<Step> {
    if outcomes == [] then [] else [Attempt(j, outcomes[0])] + Attempts(j, outcomes[1..])
  }

  /** Failed attempts are recorded one by one and leave the job active. */
  lemma {:induction false} FailuresAreRecorded(d: int, s: State, j: nat, f: nat)
    requires !s.crashed && HasStatus(s, j, Active)
    ensures var s' := Play(d, s, Attempts(j, seq(f, i => false)));
            && !s'.crashed && HasStatus(s', j, Active) && s'.running == s.running && s'.executions[j].job == s.executions[j].job
            && s'.executions[j].attempts == s.executions[j].attempts + seq(f, i => false)
    decreases f
  {
    hide Raise;
    var no := seq(f, i => false);
    if f > 0 {
      var fewer := seq(f - 1, i => false);
      assert no[0] == false && no[1..] == fewer;
      var s1 := Next(d, s, Attempt(j, false));
      assert ([Attempt(j, false)] + Attempts(j, fewer))[1..] == Attempts(j, fewer);
      FailuresAreRecorded(d, s1, j, f - 1);
      assert s.executions[j].attempts + [false] + fewer == s.executions[j].attempts + no;
    } else {
      assert no == [];
    }
  }

  /** A spawned job that fails f times and then succeeds has exactly these attempts to its name, and ends. */
  lemma AttemptsAreRecorded(d: int, s: State, j: nat, f: nat)
    requires !s.crashed && HasStatus(s, j, Spawned) && s.executions[j].attempts == []
    ensures var s' := Play(d, s, [Begin(j)] + (Attempts(j, seq(f, i => false)) + [Attempt(j, true)]));
            && HasStatus(s', j, Succeeded) && s'.executions[j].attempts == Outcomes(f)
            && s'.executions[j].job == s.executions[j].job && s'.running == s.running
  {
    hide Play;
    hide Raise;
    var (s1, no) := (Next(d, s, Begin(j)), seq(f, i => false));
    FailuresAreRecorded(d, s1, j, f);
    var s2 := Play(d, s1, Attempts(j, no));
    PlayAppend(d, s, [Begin(j)], Attempts(j, no) + [Attempt(j, true)]);
    PlayOne(d, s, Begin(j));
    PlayAppend(d, s1, Attempts(j, no), [Attempt(j, true)]);
    PlayOne(d, s2, Attempt(j, true));
    assert [] + no == no;
  }

  lemma Succeeds(d: int, s: State, j: nat) returns (more: seq<Step>)
    requires !s.crashed && j in s.executions && !s.executions[j].status.Cancelled?
    ensures var s' := Play(d, s, more); HasStatus(s', j, Succeeded) && s'.executions[j].job == s.executions[j].job
  {
    hide Play;
    hide Raise;
    match s.executions[j].status {
      case Spawned =>
        more := [Begin(j), Attempt(j, true)];
        PlayTwo(d, s, Begin(j), Attempt(j, true));
      case Active =>
        more := [Attempt(j, true)];
        PlayOne(d, s, Attempt(j, true));
      case Succeeded =>
        more := [];
        PlayNothing(d, s);
      case Cancelled =>
    }
  }

  lemma PlayNothing(d: int, s: State)
    ensures Play(d, s, []) == s
  {
  }

  /**
   On every run, while the channel is open, each job appended so far can still be brought to success: Run is never stuck
   with a job it has not dispatched, and no job dispatched is given up.
   */
  lemma EveryJobCanSucceed(d: int, before: seq<Step>, k: nat) returns (more: seq<Step>)
    requires var s := Play(d, Initial, before); !s.crashed && s.open && k < |s.appended|
    ensures var (s, s') := (Play(d, Initial, before), Play(d, Initial, before + more));
            HasStatus(s', k, Succeeded) && s'.executions[k].job == s.appended[k].job
  {
    hide Play;
    var s := Play(d, Initial, before);
    RunsAreSound(d, before);
    RunsKeepPhased(d, Initial, before);
    NothingBeforeStart(d, before);
    var drain := Drain(d, s);
    var s1 := Play(d, s, drain);
    assert Retried(d, s1.jobsCancelled, s1.executions[k]);
    var last := Succeeds(d, s1, k);
    PlayAppend(d, s, drain, last);
    more := drain + last;
    PlayAppend(d, Initial, before, more);
  }

  ghost predicate EmptyAtFirst(s: State) {
    s.run.NotStarted? ==> s.appended == [] && !s.started && s.checked == map[]
  }

  lemma {:induction false} NothingBeforeStart(d: int, steps: seq<Step>)
    ensures EmptyAtFirst(Play(d, Initial, steps))
    decreases |steps|
  {
    hide Next;
    if steps != [] {
      var front, last := steps[..|steps| - 1], steps[|steps| - 1];
      assert steps == front + [last];
      NothingBeforeStart(d, front);
      PlayOneMore(d, front, last);
      EmptyStep(d, Play(d, Initial, front), last);
    }
  }

  lemma EmptyStep(d: int, s: State, step: Step)
    requires EmptyAtFirst(s)
    ensures EmptyAtFirst(Next(d, s, step))
  {
    hide AfterAttempt;
  }

  /** Once Run has ended, a job that is between attempts can be given up. */
  lemma EndingGivesUp(d: int, s: State, j: nat)
    requires !s.crashed && s.run.Selecting? && HasStatus(s, j, Active)
    ensures var s' := Play(d, s, [ContextDone, Cancel(j)]);
            HasStatus(s', j, Cancelled) && s'.running == s.running - 1 && s'.executions[j].attempts == s.executions[j].attempts
  {
    hide Play;
    PlayTwo(d, s, ContextDone, Cancel(j));
  }

  /** After a Shutdown the closed channel signals although nothing is queued: the token invariant needs it open. */
  lemma ClosedChannelSignals(d: int)
    ensures Play(d, Initial, [Start, Shutdown] + [ReceiveClosed, Pop]).emptySignals == 1
  {
    hide Play;
    PlayAppend(d, Initial, [Start, Shutdown], [ReceiveClosed, Pop]);
    PlayTwo(d, Initial, Start, Shutdown);
    PlayTwo(d, Play(d, Initial, [Start, Shutdown]), ReceiveClosed, Pop);
  }
}
