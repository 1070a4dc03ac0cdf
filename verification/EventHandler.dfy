/**
 The application cache kept from the scheduler's event stream (internal/yunikorn/event_handler.go):
 a map from application id to a shared mutable object, updated by events, and the applications it
 hands to the database.
 */
module EventHandler {
  import opened Options

  datatype Allocation = Allocation(id: string, resources: map<string, int>, time: int)
  datatype Ask = Ask(key: string, resources: map<string, int>, time: int)
  datatype StateEntry = StateEntry(time: int, state: string)

  /** An application's fields; `info` stands for those no event changes. */
  datatype AppValue = AppValue(
    info: string, state: string, stateLog: seq<StateEntry>, allocations: seq<Allocation>, requests: seq<Ask>)

  datatype Kind = UnknownKind | RequestKind | AppKind | NodeKind | QueueKind | UserGroupKind | OtherKind

  datatype Change = NoChange | Add | Set | Remove | OtherChange

  datatype Detail =
    | DetailsNone | RequestCancel | RequestTimeout
    | AllocCancel | AllocTimeout | AllocReplaced | AllocPreempt | AllocNodeRemoved
    | AppAlloc | AppRequest | AppReject | AppNew | AppAccepted | AppStarting | AppRunning
    | AppCompleting | AppCompleted | AppFailing | AppFailed | AppResuming | AppExpired
    | OtherDetail

  /** An event, and the scheduler's answer should the handler ask for the application: None on error or absence. */
  datatype Event = Event(
    kind: Kind, change: Change, detail: Detail, objectId: string, referenceId: string,
    resources: map<string, int>, time: int, fetched: Option<AppValue>)

  /** ChangeDetail_name for the details that become states. */
  function StateName(d: Detail): string {
    match d
    case AppReject => "APP_REJECT"
    case AppNew => "APP_NEW"
    case AppAccepted => "APP_ACCEPTED"
    case AppStarting => "APP_STARTING"
    case AppRunning => "APP_RUNNING"
    case AppCompleting => "APP_COMPLETING"
    case AppCompleted => "APP_COMPLETED"
    case AppFailing => "APP_FAILING"
    case AppFailed => "APP_FAILED"
    case AppResuming => "APP_RESUMING"
    case AppExpired => "APP_EXPIRED"
    case _ => ""
  }

  predicate IsStateDetail(d: Detail) {
    d.AppAccepted? || d.AppStarting? || d.AppRunning? || d.AppCompleting? || d.AppCompleted?
    || d.AppFailing? || d.AppFailed? || d.AppResuming? || d.AppExpired?
  }

  // ----- what an event asks for -----

  predicate IsLoad(ev: Event) {
    ev.kind.AppKind? &&
    ((ev.change.Add? && (ev.detail.AppNew? || ev.detail.DetailsNone?)) || (ev.change.Set? && ev.detail.AppNew?))
  }

  predicate IsAllocation(ev: Event) {
    ev.kind.AppKind? && ev.change.Add? && ev.detail.AppAlloc?
  }

  predicate IsRequest(ev: Event) {
    ev.kind.AppKind? && ev.change.Add? && ev.detail.AppRequest?
  }

  predicate IsStateChange(ev: Event) {
    ev.kind.AppKind? && ((ev.change.Set? && IsStateDetail(ev.detail)) || (ev.change.Remove? && ev.detail.AppReject?))
  }

  predicate IsRemoval(ev: Event) {
    ev.kind.AppKind? && ev.change.Remove? && ev.detail.DetailsNone?
  }

  /** Events that make the handler store the application: SET COMPLETED, SET FAILED, REMOVE REJECT. */
  predicate IsPersisted(ev: Event) {
    ev.kind.AppKind? &&
    ((ev.change.Set? && (ev.detail.AppCompleted? || ev.detail.AppFailed?)) || (ev.change.Remove? && ev.detail.AppReject?))
  }

  function AllocationOf(ev: Event): Allocation {
    Allocation(ev.referenceId, ev.resources, ev.time)
  }

  function AskOf(ev: Event): Ask {
    Ask(ev.referenceId, ev.resources, ev.time)
  }

  function EntryOf(ev: Event): StateEntry {
    StateEntry(ev.time, StateName(ev.detail))
  }

  // ----- the cache as a value -----

  /** What an event does to the cached application it names. */
  function ApplyEvent(v: Option<AppValue>, ev: Event): Option<AppValue> {
    if IsLoad(ev) then (if ev.fetched.Some? then ev.fetched else v)
    else if IsRemoval(ev) then None
    else if v.None? then None
    else if IsAllocation(ev) then Some(v.value.(allocations := v.value.allocations + [AllocationOf(ev)]))
    else if IsRequest(ev) then Some(v.value.(requests := v.value.requests + [AskOf(ev)]))
    else if IsStateChange(ev) then
      Some(v.value.(stateLog := v.value.stateLog + [EntryOf(ev)], state := StateName(ev.detail)))
    else v
  }

  type Cache = map<string, AppValue>

  function Get(c: Cache, id: string): Option<AppValue> {
    if id in c then Some(c[id]) else None
  }

  function NextCache(c: Cache, ev: Event): Cache {
    match ApplyEvent(Get(c, ev.objectId), ev)
    case Some(v) => c[ev.objectId := v]
    case None => c - {ev.objectId}
  }

  /** What the handler hands to UpsertApplications for one event. */
  function NextWrites(c: Cache, ev: Event): seq<AppValue> {
    match ApplyEvent(Get(c, ev.objectId), ev)
    case Some(v) => if IsPersisted(ev) then [v] else []
    case None => []
  }

  function CacheAfter(trace: seq<Event>): Cache {
    if trace == [] then map[] else NextCache(CacheAfter(trace[..|trace| - 1]), trace[|trace| - 1])
  }

  function WritesOf(trace: seq<Event>): seq<AppValue> {
    if trace == [] then []
    else WritesOf(trace[..|trace| - 1]) + NextWrites(CacheAfter(trace[..|trace| - 1]), trace[|trace| - 1])
  }

  // ----- per-application replay -----

  /** The events that name one application. */
  function EventsOf(trace: seq<Event>, id: string): (r: seq<Event>)
    ensures forall e :: e in r ==> e.objectId == id
  {
    if trace == [] then []
    else
      var before, last := EventsOf(trace[..|trace| - 1], id), trace[|trace| - 1];
      if last.objectId == id then before + [last] else before
  }

  function Entries(own: seq<Event>): seq<StateEntry> {
    if own == [] then []
    else
      var before, last := Entries(own[..|own| - 1]), own[|own| - 1];
      if IsStateChange(last) then before + [EntryOf(last)] else before
  }

  function Allocations(own: seq<Event>): seq<Allocation> {
    if own == [] then []
    else
      var before, last := Allocations(own[..|own| - 1]), own[|own| - 1];
      if IsAllocation(last) then before + [AllocationOf(last)] else before
  }

  function Asks(own: seq<Event>): seq<Ask> {
    if own == [] then []
    else
      var before, last := Asks(own[..|own| - 1]), own[|own| - 1];
      if IsRequest(last) then before + [AskOf(last)] else before
  }

  /** A successful load or a removal: what came before no longer matters. */
  predicate IsReset(ev: Event) {
    IsRemoval(ev) || (IsLoad(ev) && ev.fetched.Some?)
  }

  /** Position just after the last reset, 0 if there is none. */
  function AfterReset(own: seq<Event>): (r: nat)
    ensures r <= |own|
    ensures r > 0 ==> IsReset(own[r - 1])
    ensures forall i :: r <= i < |own| ==> !IsReset(own[i])
  {
    if own == [] then 0
    else if IsReset(own[|own| - 1]) then |own|
    else AfterReset(own[..|own| - 1])
  }

  /** The snapshot with the later allocations, requests and state changes, in order. */
  function Updated(base: AppValue, later: seq<Event>): AppValue {
    AppValue(base.info,
             if Entries(later) == [] then base.state else Entries(later)[|Entries(later)| - 1].state,
             base.stateLog + Entries(later),
             base.allocations + Allocations(later),
             base.requests + Asks(later))
  }

  /** The last loaded snapshot plus what was accepted since; absent before any load and after a removal. */
  function Replay(own: seq<Event>): Option<AppValue> {
    var r := AfterReset(own);
    if r == 0 || IsRemoval(own[r - 1]) then None
    else Some(Updated(own[r - 1].fetched.value, own[r..]))
  }

  lemma ReplayStep(own: seq<Event>, ev: Event)
    ensures Replay(own + [ev]) == ApplyEvent(Replay(own), ev)
  {
    var all := own + [ev];
    assert all[..|all| - 1] == own;
    if IsReset(ev) {
      assert all[|all|..] == [];
      if !IsRemoval(ev) {
        EmptyUpdate(ev.fetched.value);
      }
    } else {
      var r := AfterReset(own);
      assert AfterReset(all) == r;
      if r > 0 && !IsRemoval(own[r - 1]) {
        assert all[r..] == own[r..] + [ev];
        UpdateStep(own[r - 1].fetched.value, own[r..], ev);
      }
    }
  }

  lemma EmptyUpdate(base: AppValue)
    ensures Updated(base, []) == base
  {
  }

  /** One more event adds at most one log entry, allocation or request. */
  lemma OneMore(later: seq<Event>, ev: Event)
    ensures Entries(later + [ev]) == if IsStateChange(ev) then Entries(later) + [EntryOf(ev)] else Entries(later)
    ensures Allocations(later + [ev]) == if IsAllocation(ev) then Allocations(later) + [AllocationOf(ev)] else Allocations(later)
    ensures Asks(later + [ev]) == if IsRequest(ev) then Asks(later) + [AskOf(ev)] else Asks(later)
  {
    assert (later + [ev])[..|later + [ev]| - 1] == later;
  }

  lemma UpdateStep(base: AppValue, later: seq<Event>, ev: Event)
    requires !IsReset(ev)
    ensures Some(Updated(base, later + [ev])) == ApplyEvent(Some(Updated(base, later)), ev)
  {
    OneMore(later, ev);
    assert base.stateLog + (Entries(later) + [EntryOf(ev)]) == base.stateLog + Entries(later) + [EntryOf(ev)];
    assert base.allocations + (Allocations(later) + [AllocationOf(ev)]) == base.allocations + Allocations(later) + [AllocationOf(ev)];
    assert base.requests + (Asks(later) + [AskOf(ev)]) == base.requests + Asks(later) + [AskOf(ev)];
  }

  /**
   Cache equals replay: after any trace the cached application is the replay of its own events alone,
   so no other application's event affects it.
   */
  lemma {:induction false} CacheEqualsReplay(trace: seq<Event>, id: string)
    ensures Get(CacheAfter(trace), id) == Replay(EventsOf(trace, id))
  {
    hide ApplyEvent;
    hide Replay;
    if trace == [] {
      NothingCached();
    } else {
      var front, ev := trace[..|trace| - 1], trace[|trace| - 1];
      CacheEqualsReplay(front, id);
      if ev.objectId == id {
        ReplayStep(EventsOf(front, id), ev);
      }
    }
  }

  lemma NothingCached()
    ensures Replay([]) == None
  {
  }

  /** What position i of the trace should store: the replayed application, if the event stores and the id was cached. */
  function StoredAt(trace: seq<Event>, i: nat): seq<AppValue>
    requires i < |trace|
  {
    var ev := trace[i];
    if IsPersisted(ev) && Replay(EventsOf(trace[..i], ev.objectId)).Some? then
      [Updated(Replay(EventsOf(trace[..i], ev.objectId)).value, [ev])]
    else []
  }

  function StoredUpTo(trace: seq<Event>, n: nat): seq<AppValue>
    requires n <= |trace|
  {
    if n == 0 then [] else StoredUpTo(trace, n - 1) + StoredAt(trace, n - 1)
  }

  lemma {:induction false} StoredUpToPrefix(trace: seq<Event>, more: seq<Event>, n: nat)
    requires n <= |trace|
    ensures StoredUpTo(trace + more, n) == StoredUpTo(trace, n)
    decreases n
  {
    hide Replay;
    if n > 0 {
      StoredUpToPrefix(trace, more, n - 1);
      assert (trace + more)[..n - 1] == trace[..n - 1] && (trace + more)[n - 1] == trace[n - 1];
    }
  }

  lemma PersistedUpdates(v: AppValue, ev: Event)
    requires IsPersisted(ev)
    ensures ApplyEvent(Some(v), ev) == Some(Updated(v, [ev]))
  {
    assert [] + [ev] == [ev];
    UpdateStep(v, [], ev);
    EmptyUpdate(v);
  }

  /**
   Event persistence: the database writes are exactly, in order, those of the storing events whose
   application was cached at that moment, each carrying the replayed application with that event applied.
   */
  lemma {:induction false} WritesAreExactly(trace: seq<Event>)
    ensures WritesOf(trace) == StoredUpTo(trace, |trace|)
  {
    hide Replay;
    hide ApplyEvent;
    hide Updated;
    if trace != [] {
      var n := |trace| - 1;
      var front, ev := trace[..n], trace[n];
      WritesAreExactly(front);
      assert trace == front + [ev];
      StoredUpToPrefix(front, [ev], n);
      CacheEqualsReplay(front, ev.objectId);
      var v := Replay(EventsOf(front, ev.objectId));
      if IsPersisted(ev) {
        if v.Some? {
          PersistedUpdates(v.value, ev);
        } else {
          AbsentStaysAbsent(ev);
        }
      }
    }
  }

  lemma AbsentStaysAbsent(ev: Event)
    requires IsPersisted(ev)
    ensures ApplyEvent(None, ev) == None
  {
  }

  /** v is the last snapshot loaded in `own` plus all that happened since, its state that of its last log entry. */
  ghost predicate CompleteSinceLoad(v: AppValue, own: seq<Event>) {
    var r := AfterReset(own);
    && 0 < r < |own| && IsLoad(own[r - 1]) && own[r - 1].fetched.Some?
    && v.stateLog == own[r - 1].fetched.value.stateLog + Entries(own[r..])
    && v.stateLog != [] && v.state == v.stateLog[|v.stateLog| - 1].state
    && v.allocations == own[r - 1].fetched.value.allocations + Allocations(own[r..])
    && v.requests == own[r - 1].fetched.value.requests + Asks(own[r..])
  }

  /** Every write carries the complete log since the load, ending with the state it carries. */
  lemma WritesCarryCompleteLog(trace: seq<Event>, i: nat)
    requires i < |trace| && StoredAt(trace, i) != []
    ensures CompleteSinceLoad(StoredAt(trace, i)[0], EventsOf(trace[..i], trace[i].objectId) + [trace[i]])
    ensures StoredAt(trace, i)[0].state == StateName(trace[i].detail)
  {
    hide ApplyEvent;
    hide EventsOf;
    var ev := trace[i];
    var before := EventsOf(trace[..i], ev.objectId);
    ReplayStep(before, ev);
    PersistedUpdates(Replay(before).value, ev);
    ReplayIsComplete(before, ev);
  }

  /** The replay ending with a state change is the snapshot with everything since. */
  lemma ReplayIsComplete(before: seq<Event>, ev: Event)
    requires IsPersisted(ev) && Replay(before).Some?
    ensures Replay(before + [ev]).Some? && CompleteSinceLoad(Replay(before + [ev]).value, before + [ev])
    ensures Replay(before + [ev]).value.state == StateName(ev.detail)
  {
    hide Updated;
    hide StateName;
    hide Entries;
    hide Allocations;
    hide Asks;
    hide AfterReset;
    var own := before + [ev];
    PersistedIsNoReset(before, ev);
    var r := AfterReset(own);
    UpdatedFields(own[r - 1].fetched.value, before[r..], ev);
    assert own[r..] == before[r..] + [ev];
  }

  lemma PersistedIsNoReset(before: seq<Event>, ev: Event)
    requires IsPersisted(ev)
    ensures AfterReset(before + [ev]) == AfterReset(before)
  {
    assert (before + [ev])[..|before|] == before;
  }

  lemma UpdatedFields(base: AppValue, later: seq<Event>, ev: Event)
    requires IsStateChange(ev)
    ensures var v := Updated(base, later + [ev]);
            && v.stateLog == base.stateLog + Entries(later + [ev])
            && v.stateLog != [] && v.state == v.stateLog[|v.stateLog| - 1].state == StateName(ev.detail)
            && v.allocations == base.allocations + Allocations(later + [ev])
            && v.requests == base.requests + Asks(later + [ev])
  {
    OneMore(later, ev);
  }

  // ----- the same in words -----

  /** The cached application with one more log entry and its state. */
  function Entered(v: AppValue, time: int, state: string): Option<AppValue> {
    Some(v.(state := state, stateLog := v.stateLog + [StateEntry(time, state)]))
  }

  /** What the scheduler's change details do to a cached application v, spelled out. */
  ghost predicate InWords(v: AppValue, ev: Event, after: Option<AppValue>) {
    var loaded := if ev.fetched.Some? then ev.fetched else Some(v);
    match ev.change
    case Add =>
      (match ev.detail
       case AppNew => after == loaded
       case DetailsNone => after == loaded
       case AppAlloc => after == Some(v.(allocations := v.allocations + [Allocation(ev.referenceId, ev.resources, ev.time)]))
       case AppRequest => after == Some(v.(requests := v.requests + [Ask(ev.referenceId, ev.resources, ev.time)]))
       case _ => after == Some(v))
    case Set =>
      (match ev.detail
       case AppNew => after == loaded
       case AppAccepted => after == Entered(v, ev.time, "APP_ACCEPTED")
       case AppStarting => after == Entered(v, ev.time, "APP_STARTING")
       case AppRunning => after == Entered(v, ev.time, "APP_RUNNING")
       case AppCompleting => after == Entered(v, ev.time, "APP_COMPLETING")
       case AppCompleted => after == Entered(v, ev.time, "APP_COMPLETED")
       case AppFailing => after == Entered(v, ev.time, "APP_FAILING")
       case AppFailed => after == Entered(v, ev.time, "APP_FAILED")
       case AppResuming => after == Entered(v, ev.time, "APP_RESUMING")
       case AppExpired => after == Entered(v, ev.time, "APP_EXPIRED")
       case _ => after == Some(v))
    case Remove =>
      (match ev.detail
       case DetailsNone => after == None
       case AppReject => after == Entered(v, ev.time, "APP_REJECT")
       case _ => after == Some(v))
    case _ => after == Some(v)
  }

  /** An application enters the cache only by a successful load. */
  ghost predicate LoadInWords(ev: Event, after: Option<AppValue>) {
    if (ev.change.Add? && ev.detail in {AppNew, DetailsNone}) || (ev.change.Set? && ev.detail.AppNew?) then after == ev.fetched
    else after == None
  }

  /** After any trace the next event changes the application it names as spelled out, and no other. */
  lemma EventsInWords(trace: seq<Event>, ev: Event)
    ensures var before, after := CacheAfter(trace), CacheAfter(trace + [ev]);
            && (forall id :: id != ev.objectId ==> Get(after, id) == Get(before, id))
            && (!ev.kind.AppKind? ==> after == before)
            && (ev.kind.AppKind? && ev.objectId in before ==> InWords(before[ev.objectId], ev, Get(after, ev.objectId)))
            && (ev.kind.AppKind? && ev.objectId !in before ==> LoadInWords(ev, Get(after, ev.objectId)))
  {
    hide ApplyEvent;
    hide InWords;
    hide LoadInWords;
    var c := CacheAfter(trace);
    assert (trace + [ev])[..|trace|] == trace;
    if !ev.kind.AppKind? {
      OtherKinds(Get(c, ev.objectId), ev);
    } else if ev.objectId in c {
      AppliedInWords(c[ev.objectId], ev);
    } else {
      LoadedInWords(ev);
    }
  }

  lemma OtherKinds(v: Option<AppValue>, ev: Event)
    requires !ev.kind.AppKind?
    ensures ApplyEvent(v, ev) == v
  {
  }

  lemma AppliedInWords(v: AppValue, ev: Event)
    requires ev.kind.AppKind?
    ensures InWords(v, ev, ApplyEvent(Some(v), ev))
  {
  }

  lemma LoadedInWords(ev: Event)
    requires ev.kind.AppKind?
    ensures LoadInWords(ev, ApplyEvent(None, ev))
  {
  }

  /**
   Which positions of a trace write to the database, and what: a SET APP_COMPLETED, SET APP_FAILED or REMOVE APP_REJECT
   whose application was cached, with that state and time as its state and last log entry.
   */
  lemma WritesInWords(trace: seq<Event>, i: nat)
    requires i < |trace|
    ensures var (ev, cached) := (trace[i], Get(CacheAfter(trace[..i]), trace[i].objectId));
            var completed := ev.kind.AppKind? && ev.change.Set? && ev.detail.AppCompleted? && cached.Some?;
            var failed := ev.kind.AppKind? && ev.change.Set? && ev.detail.AppFailed? && cached.Some?;
            var rejected := ev.kind.AppKind? && ev.change.Remove? && ev.detail.AppReject? && cached.Some?;
            StoredAt(trace, i) ==
            if completed then [Entered(cached.value, ev.time, "APP_COMPLETED").value]
            else if failed then [Entered(cached.value, ev.time, "APP_FAILED").value]
            else if rejected then [Entered(cached.value, ev.time, "APP_REJECT").value]
            else []
  {
    hide Replay;
    hide Updated;
    hide CacheAfter;
    var ev := trace[i];
    CacheEqualsReplay(trace[..i], ev.objectId);
    var cached := Get(CacheAfter(trace[..i]), ev.objectId);
    if IsPersisted(ev) && cached.Some? {
      PersistedUpdates(cached.value, ev);
    }
  }

  /** An event for an application that is not cached, or one no handler acts on, changes nothing. */
  lemma IgnoredEvent(c: Cache, ev: Event)
    requires !IsLoad(ev) && !IsRemoval(ev)
    requires ev.objectId !in c || !(IsAllocation(ev) || IsRequest(ev) || IsStateChange(ev))
    ensures NextCache(c, ev) == c
  {
  }

  /** An event is stored exactly if it is a persisted kind and finds its application cached. */
  lemma WritesAre(c: Cache, ev: Event)
    ensures NextWrites(c, ev) ==
            if IsPersisted(ev) && ev.objectId in c then [ApplyEvent(Get(c, ev.objectId), ev).value] else []
  {
  }

  // ----- the handler on the heap -----

  class CachedApp {
    var info: string
    var state: string
    var stateLog: seq<StateEntry>
    var allocations: seq<Allocation>
    var requests: seq<Ask>

    constructor (v: AppValue)
      ensures Value() == v
    {
      info, state, stateLog, allocations, requests := v.info, v.state, v.stateLog, v.allocations, v.requests;
    }

    function Value(): AppValue
      reads this
    {
      AppValue(info, state, stateLog, allocations, requests)
    }
  }

  class Service {
    var appMap: map<string, CachedApp>
    var stored: seq<AppValue>

    /** Distinct cached entries never share an object. */
    ghost predicate Valid()
      reads this
    {
      forall a, b :: a in appMap && b in appMap && a != b ==> appMap[a] != appMap[b]
    }

    ghost function View(): Cache
      reads this, appMap.Values
    {
      map id | id in appMap :: appMap[id].Value()
    }

    constructor ()
      ensures Valid() && View() == map[] && stored == []
    {
      appMap, stored := map[], [];
    }

    /** s.appMap[id] = app, for an application just received from the scheduler. */
    method Load(ev: Event)
      requires Valid() && IsLoad(ev)
      modifies this
      ensures Valid() && fresh(appMap.Values - old(appMap.Values)) && stored == old(stored)
      ensures View() == NextCache(old(View()), ev)
    {
      if ev.fetched.Some? {
        var app := new CachedApp(ev.fetched.value);
        appMap := appMap[ev.objectId := app];
      }
    }

    /** Append an allocation to the cached application. */
    method AppendAllocation(ev: Event)
      requires Valid() && IsAllocation(ev) && ev.objectId in appMap
      modifies appMap[ev.objectId]
      ensures View() == NextCache(old(View()), ev)
    {
      hide StateName;
      var app := appMap[ev.objectId];
      app.allocations := app.allocations + [Allocation(ev.referenceId, ev.resources, ev.time)];
      assert View() == NextCache(old(View()), ev);
    }

    /** Append a request to the cached application. */
    method AppendRequest(ev: Event)
      requires Valid() && IsRequest(ev) && ev.objectId in appMap
      modifies appMap[ev.objectId]
      ensures View() == NextCache(old(View()), ev)
    {
      hide StateName;
      var app := appMap[ev.objectId];
      app.requests := app.requests + [Ask(ev.referenceId, ev.resources, ev.time)];
      assert View() == NextCache(old(View()), ev);
    }

    method HandleAppAddEvent(ev: Event)
      requires Valid() && ev.kind.AppKind? && ev.change.Add?
      modifies this, appMap.Values
      ensures Valid() && fresh(appMap.Values - old(appMap.Values))
      ensures View() == NextCache(old(View()), ev) && stored == old(stored) + NextWrites(old(View()), ev)
    {
      hide StateName;
      if ev.detail.AppNew? || ev.detail.DetailsNone? {
        Load(ev);
      } else if ev.detail.AppAlloc? && ev.objectId in appMap {
        AppendAllocation(ev);
      } else if ev.detail.AppRequest? && ev.objectId in appMap {
        AppendRequest(ev);
      } else {
        assert View() == NextCache(old(View()), ev);
      }
    }

    /** Append to the state log and set the state. */
    method SetState(ev: Event)
      requires Valid() && IsStateChange(ev) && ev.objectId in appMap
      modifies appMap[ev.objectId]
      ensures View() == NextCache(old(View()), ev)
      ensures Some(appMap[ev.objectId].Value()) == ApplyEvent(Get(old(View()), ev.objectId), ev)
    {
      hide StateName;
      var app := appMap[ev.objectId];
      app.stateLog := app.stateLog + [StateEntry(ev.time, StateName(ev.detail))];
      app.state := StateName(ev.detail);
      assert View() == NextCache(old(View()), ev);
    }

    method HandleAppSetEvent(ev: Event)
      requires Valid() && ev.kind.AppKind? && ev.change.Set?
      modifies this, appMap.Values
      ensures Valid() && fresh(appMap.Values - old(appMap.Values))
      ensures View() == NextCache(old(View()), ev) && stored == old(stored) + NextWrites(old(View()), ev)
    {
      hide StateName;
      hide ApplyEvent;
      hide NextCache;
      WritesAre(View(), ev);
      if ev.detail.AppNew? {
        Load(ev);
      } else if ev.detail in {AppAccepted, AppStarting, AppRunning, AppCompleting, AppCompleted, AppFailing, AppFailed,
                              AppResuming, AppExpired} {
        if ev.objectId !in appMap {
          IgnoredEvent(View(), ev);
          return;
        }
        SetState(ev);
        if ev.detail.AppCompleted? || ev.detail.AppFailed? {
          stored := stored + [appMap[ev.objectId].Value()];
        }
      } else {
        IgnoredEvent(View(), ev);
      }
    }

    /** delete(s.appMap, id). */
    method Forget(ev: Event)
      requires Valid() && IsRemoval(ev)
      modifies this
      ensures Valid() && appMap == old(appMap) - {ev.objectId} && stored == old(stored)
      ensures View() == NextCache(old(View()), ev)
    {
      appMap := appMap - {ev.objectId};
      assert View() == NextCache(old(View()), ev);
    }

    method HandleAppRemoveEvent(ev: Event)
      requires Valid() && ev.kind.AppKind? && ev.change.Remove?
      modifies this, appMap.Values
      ensures Valid() && fresh(appMap.Values - old(appMap.Values))
      ensures View() == NextCache(old(View()), ev) && stored == old(stored) + NextWrites(old(View()), ev)
    {
      hide StateName;
      hide ApplyEvent;
      hide NextCache;
      WritesAre(View(), ev);
      if ev.detail.DetailsNone? {
        Forget(ev);
      } else if ev.detail.AppReject? && ev.objectId in appMap {
        SetState(ev);
        stored := stored + [appMap[ev.objectId].Value()];
      } else {
        IgnoredEvent(View(), ev);
      }
    }

    method HandleEvent(ev: Event)
      requires Valid()
      modifies this, appMap.Values
      ensures Valid() && fresh(appMap.Values - old(appMap.Values))
      ensures View() == NextCache(old(View()), ev) && stored == old(stored) + NextWrites(old(View()), ev)
    {
      if ev.kind.AppKind? && ev.change.Add? {
        HandleAppAddEvent(ev);
      } else if ev.kind.AppKind? && ev.change.Set? {
        HandleAppSetEvent(ev);
      } else if ev.kind.AppKind? && ev.change.Remove? {
        HandleAppRemoveEvent(ev);
      } else {
        assert View() == NextCache(old(View()), ev);
      }
    }

    /** A whole trace from an empty cache. */
    method HandleEvents(trace: seq<Event>)
      requires Valid() && View() == map[] && stored == []
      modifies this, appMap.Values
      ensures Valid() && View() == CacheAfter(trace) && stored == WritesOf(trace)
      ensures forall id :: Get(View(), id) == Replay(EventsOf(trace, id))
    {
      for i := 0 to |trace|
        invariant Valid() && fresh(appMap.Values - old(appMap.Values))
        invariant View() == CacheAfter(trace[..i]) && stored == WritesOf(trace[..i])
      {
        assert trace[..i + 1][..i] == trace[..i];
        HandleEvent(trace[i]);
      }
      assert trace[..|trace|] == trace;
      forall id ensures Get(View(), id) == Replay(EventsOf(trace, id)) {
        CacheEqualsReplay(trace, id);
      }
    }
  }
}
