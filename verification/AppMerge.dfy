/**
 What repeated application upserts leave in a row: the COALESCE columns hold the last non-NULL
 value supplied, every other column the first value supplied.
 */
module AppMerge {
  import opened Options
  import opened UpsertTable
  import opened QueueModel
  import opened AppModel

  /** An application together with the queue id looked up for it. */
  datatype Supplied = Supplied(app: App, queueId: Id)

  /** Any sequence of upserts, of whichever calls. */
  function Merge(t: seq<ARow>, uuid: Supply, log: seq<Supplied>): seq<ARow> {
    if log == [] then t
    else
      var s, last := Merge(t, uuid, log[..|log| - 1]), log[|log| - 1];
      PutOne(s, uuid(|s|), last)
  }

  // ----- what a column should hold -----

  /** The row with this key is the application's own. */
  predicate IsFor(a: App, k: AppKey) {
    a.partition == k.partition && a.queueName == k.queueName && a.appId == k.appId
  }

  /** The last non-NULL value supplied for a column of a key, else what was stored. */
  function LastSupplied(stored: Option<Json>, log: seq<Supplied>, k: AppKey, c: AppColumn): Option<Json> {
    if log == [] then stored
    else
      var last := log[|log| - 1].app;
      if IsFor(last, k) && c in last.values then Some(last.values[c])
      else LastSupplied(stored, log[..|log| - 1], k, c)
  }

  /** The columns no update touches, as one supplied application has them. */
  datatype FirstColumns = FirstColumns(
    queueId: Id, submissionTime: Option<Json>, user: Option<Json>, groups: Option<Json>)

  /** What was stored for the key, else the first values supplied for it. */
  function FirstSupplied(stored: Option<FirstColumns>, log: seq<Supplied>, k: AppKey): Option<FirstColumns> {
    if stored.Some? || log == [] then stored
    else if IsFor(log[0].app, k) then
      Some(FirstColumns(log[0].queueId, log[0].app.submissionTime, log[0].app.user, log[0].app.groups))
    else FirstSupplied(stored, log[1..], k)
  }

  // ----- what the table holds -----

  function CellOf(t: seq<ARow>, k: AppKey, c: AppColumn): Option<Json> {
    match Find(t, k)
    case Some(i) => if c in t[i].cols then Some(t[i].cols[c]) else None
    case None => None
  }

  function FixedOf(t: seq<ARow>, k: AppKey): Option<FirstColumns> {
    match Find(t, k)
    case Some(i) => Some(FirstColumns(t[i].fixed.queueId, t[i].fixed.submissionTime, t[i].fixed.user, t[i].fixed.groups))
    case None => None
  }

  function PutOne(t: seq<ARow>, id: Id, s: Supplied): seq<ARow> {
    Put(t, AppKeyOf(s.app), NewAppFixed(id, s.queueId, s.app), s.app.values)
  }

  /** Where a key is found after an upsert. */
  lemma FindAfterPut(t: seq<ARow>, id: Id, s: Supplied, k: AppKey)
    requires UniqueKeys(t)
    ensures UniqueKeys(PutOne(t, id, s))
    ensures Find(PutOne(t, id, s), k) ==
            if Find(t, k).Some? then Find(t, k) else if AppKeyOf(s.app) == k then Some(|t|) else None
  {
    var t' := PutOne(t, id, s);
    PutKeepsKeys(t, AppKeyOf(s.app), NewAppFixed(id, s.queueId, s.app), s.app.values);
    if Find(t, k).Some? {
      FindIs(t', k, Find(t, k).value);
    } else if AppKeyOf(s.app) == k {
      FindIs(t', k, |t|);
    }
  }

  /** What one upsert does to the cells of every key. */
  lemma PutCells(t: seq<ARow>, id: Id, s: Supplied, k: AppKey, c: AppColumn)
    requires UniqueKeys(t)
    ensures UniqueKeys(PutOne(t, id, s))
    ensures CellOf(PutOne(t, id, s), k, c) ==
            if AppKeyOf(s.app) == k && c in s.app.values then Some(s.app.values[c]) else CellOf(t, k, c)
    ensures FixedOf(PutOne(t, id, s), k) ==
            if FixedOf(t, k).None? then FirstSupplied(None, [s], k) else FixedOf(t, k)
  {
    hide FindFrom;
    FindAfterPut(t, id, s, k);
    FindAfterPut(t, id, s, AppKeyOf(s.app));
  }

  lemma {:induction false} FirstSuppliedAppend(stored: Option<FirstColumns>, log: seq<Supplied>, s: Supplied, k: AppKey)
    ensures FirstSupplied(stored, log + [s], k) == FirstSupplied(FirstSupplied(stored, log, k), [s], k)
    decreases log
  {
    if log == [] {
      assert log + [s] == [s];
    } else {
      assert (log + [s])[0] == log[0] && (log + [s])[1..] == log[1..] + [s];
      FirstSuppliedAppend(stored, log[1..], s, k);
    }
  }

  /** After any sequence of upserts every COALESCE cell holds the last non-NULL value, the other columns the first. */
  lemma {:induction false} MergeIsFold(t: seq<ARow>, uuid: Supply, log: seq<Supplied>, k: AppKey, c: AppColumn)
    requires UniqueKeys(t)
    ensures UniqueKeys(Merge(t, uuid, log))
    ensures CellOf(Merge(t, uuid, log), k, c) == LastSupplied(CellOf(t, k, c), log, k, c)
    ensures FixedOf(Merge(t, uuid, log), k) == FirstSupplied(FixedOf(t, k), log, k)
    decreases log
  {
    hide PutOne;
    hide CellOf;
    hide FixedOf;
    if log != [] {
      var front, last := log[..|log| - 1], log[|log| - 1];
      MergeIsFold(t, uuid, front, k, c);
      PutCells(Merge(t, uuid, front), uuid(|Merge(t, uuid, front)|), last, k, c);
      assert log == front + [last];
      FirstSuppliedAppend(FixedOf(t, k), front, last, k);
    }
  }

  // ----- replaying a prefix -----

  ghost function Writes(log: seq<Supplied>): seq<Write<AppKey, AppColumn, Json>> {
    seq(|log|, i requires 0 <= i < |log| => Write(AppKeyOf(log[i].app), log[i].app.values))
  }

  lemma MergeNext(t: seq<ARow>, uuid: Supply, log: seq<Supplied>, m: nat)
    requires m < |log|
    ensures var s := Merge(t, uuid, log[..m]);
            Merge(t, uuid, log[..m + 1]) ==
            Put(s, AppKeyOf(log[m].app), NewAppFixed(uuid(|s|), log[m].queueId, log[m].app), log[m].app.values)
  {
    assert log[..m + 1][..m] == log[..m];
  }

  lemma {:induction false} MergeReflects(t: seq<ARow>, uuid: Supply, log: seq<Supplied>, m: nat)
    requires UniqueKeys(t) && m <= |log|
    ensures Reflects(Merge(t, uuid, log[..m]), Writes(log), m)
    decreases m
  {
    hide Put;
    if m > 0 {
      MergeReflects(t, uuid, log, m - 1);
      MergeNext(t, uuid, log, m - 1);
      var s := Merge(t, uuid, log[..m - 1]);
      ReflectsPut(s, Writes(log), m - 1, NewAppFixed(uuid(|s|), log[m - 1].queueId, log[m - 1].app));
    } else {
      assert Merge(t, uuid, log[..m]) == t;
    }
  }

  /** While the prefix is replayed the table differs from what it was only in cells still to be replayed. */
  lemma {:induction false} ReplayAgrees(t: seq<ARow>, uuid: Supply, log: seq<Supplied>, k: nat, i: nat)
    requires UniqueKeys(t) && i <= k <= |log|
    ensures Agree(Merge(Merge(t, uuid, log[..k]), uuid, log[..i]), Merge(t, uuid, log[..k]), Writes(log), i, k)
    decreases i
  {
    hide Put;
    hide Merge;
    var s := Merge(t, uuid, log[..k]);
    MergeReflects(t, uuid, log, k);
    if i == 0 {
      NoMerge(s, uuid, log);
    } else {
      ReplayAgrees(t, uuid, log, k, i - 1);
      MergeNext(s, uuid, log, i - 1);
      var r := Merge(s, uuid, log[..i - 1]);
      ReplayStep(r, s, Writes(log), i - 1, k, NewAppFixed(uuid(|r|), log[i - 1].queueId, log[i - 1].app));
    }
  }

  lemma NoMerge(s: seq<ARow>, uuid: Supply, log: seq<Supplied>)
    ensures Merge(s, uuid, log[..0]) == s
  {
  }

  lemma {:induction false} MergeAppend(t: seq<ARow>, uuid: Supply, a: seq<Supplied>, b: seq<Supplied>)
    ensures Merge(t, uuid, a + b) == Merge(Merge(t, uuid, a), uuid, b)
    decreases b
  {
    hide Put;
    if b == [] {
      assert a + b == a;
    } else {
      assert (a + b)[..|a + b| - 1] == a + b[..|b| - 1];
      MergeAppend(t, uuid, a, b[..|b| - 1]);
    }
  }

  /** Replaying any prefix before the full list changes nothing, ids and row order included. */
  lemma PrefixReplayIsHarmless(t: seq<ARow>, uuid: Supply, log: seq<Supplied>, k: nat)
    requires UniqueKeys(t) && k <= |log|
    ensures Merge(t, uuid, log[..k] + log) == Merge(t, uuid, log)
  {
    hide Merge;
    hide Put;
    var s := Merge(t, uuid, log[..k]);
    ReplayAgrees(t, uuid, log, k, k);
    AgreeAtEnd(Merge(s, uuid, log[..k]), s, Writes(log), k);
    MergeAppend(t, uuid, log[..k], log);
    assert log == log[..k] + log[k..];
    MergeAppend(s, uuid, log[..k], log[k..]);
    MergeAppend(t, uuid, log[..k], log[k..]);
  }

  /** UpsertApplications, wherever it stops, is such a sequence: the rows before the failing one. */
  lemma {:induction false} UpsertIsMerge(t: seq<ARow>, queues: seq<QRow>, uuid: Supply, apps: seq<App>, budget: nat)
    returns (log: seq<Supplied>)
    ensures UpsertApps(t, queues, uuid, apps, budget).table == Merge(t, uuid, log)
    ensures |log| <= |apps| && (UpsertApps(t, queues, uuid, apps, budget).ok <==> |log| == |apps|)
    ensures forall i :: 0 <= i < |log| ==> log[i].app == apps[i] && Lookup(queues, apps[i].queueName, apps[i].partition) == Ok(Some(log[i].queueId))
    decreases apps
  {
    hide Lookup;
    if apps == [] || budget == 0 || AppRow(t, queues, uuid, apps[0]).Err? {
      log := [];
    } else {
      var id := Lookup(queues, apps[0].queueName, apps[0].partition).value.value;
      var first := Supplied(apps[0], id);
      var rest := UpsertIsMerge(AppRow(t, queues, uuid, apps[0]).value, queues, uuid, apps[1..], budget - 1);
      log := [first] + rest;
      MergeAppend(t, uuid, [first], rest);
      assert [first][..0] == [];
      assert Merge(t, uuid, [first]) == AppRow(t, queues, uuid, apps[0]).value;
    }
  }

  // ----- one row for each application -----

  type Triple = (string, string, string)

  function Stored(t: seq<ARow>): set<Triple> {
    set r | r in t :: (r.key.partition, r.key.queueName, r.key.appId)
  }

  function Reported(apps: seq<App>): set<Triple> {
    set a | a in apps :: (a.partition, a.queueName, a.appId)
  }

  /** The application has a row with its own partition, queue name and id, and only one. */
  ghost predicate HasItsRow(t: seq<ARow>, a: App) {
    exists i :: 0 <= i < |t| && IsFor(a, t[i].key) && forall j :: 0 <= j < |t| && IsFor(a, t[j].key) ==> j == i
  }

  lemma PutStores(t: seq<ARow>, id: Id, s: Supplied)
    ensures var x := (s.app.partition, s.app.queueName, s.app.appId);
            && Stored(PutOne(t, id, s)) == Stored(t) + {x}
            && |PutOne(t, id, s)| == |t| + (if x in Stored(t) then 0 else 1)
  {
    var (t', x) := (PutOne(t, id, s), (s.app.partition, s.app.queueName, s.app.appId));
    var at := if Find(t, AppKeyOf(s.app)).Some? then Find(t, AppKeyOf(s.app)).value else |t|;
    assert t'[at].key == AppKeyOf(s.app);
    assert forall i :: 0 <= i < |t| ==> t'[i].key == t[i].key;
    if x in Stored(t) {
      var r :| r in t && (r.key.partition, r.key.queueName, r.key.appId) == x;
      assert r.key == AppKeyOf(s.app);
    }
    forall y ensures y in Stored(t') <==> y in Stored(t) || y == x {
      if y in Stored(t') {
        var i :| 0 <= i < |t'| && (t'[i].key.partition, t'[i].key.queueName, t'[i].key.appId) == y;
        if i < |t| {
          assert t[i] in t;
        }
      }
      if y in Stored(t) {
        var i :| 0 <= i < |t| && (t[i].key.partition, t[i].key.queueName, t[i].key.appId) == y;
        assert t'[i] in t';
      }
      assert t'[at] in t';
    }
  }

  lemma {:induction false} MergeStores(t: seq<ARow>, uuid: Supply, log: seq<Supplied>, apps: seq<App>)
    requires UniqueKeys(t) && |log| == |apps| && forall i :: 0 <= i < |log| ==> log[i].app == apps[i]
    ensures UniqueKeys(Merge(t, uuid, log))
    ensures Stored(Merge(t, uuid, log)) == Stored(t) + Reported(apps)
    ensures |Merge(t, uuid, log)| == |t| + |Reported(apps) - Stored(t)|
    decreases log
  {
    hide PutOne;
    hide Stored;
    hide Reported;
    hide Find;
    hide UniqueKeys;
    if log == [] {
      NoneReported(apps);
    } else {
      var front, last := log[..|log| - 1], log[|log| - 1];
      var s, before := Merge(t, uuid, front), apps[..|apps| - 1];
      MergeStores(t, uuid, front, before);
      PutStores(s, uuid(|s|), last);
      FindAfterPut(s, uuid(|s|), last, AppKeyOf(last.app));
      OneMoreReported(apps);
      OneMoreNew(Stored(t), Reported(before), (last.app.partition, last.app.queueName, last.app.appId));
    }
  }

  lemma NoneReported(apps: seq<App>)
    requires apps == []
    ensures Reported(apps) == {}
  {
  }

  lemma OneMoreReported(apps: seq<App>)
    requires apps != []
    ensures var last := apps[|apps| - 1];
            Reported(apps) == Reported(apps[..|apps| - 1]) + {(last.partition, last.queueName, last.appId)}
  {
    var before, last := apps[..|apps| - 1], apps[|apps| - 1];
    assert apps == before + [last];
    assert forall a :: a in apps <==> a in before || a == last;
  }

  lemma OneMoreNew(stored: set<Triple>, reported: set<Triple>, x: Triple)
    ensures stored + (reported + {x}) == (stored + reported) + {x}
    ensures |(reported + {x}) - stored| == |reported - stored| + (if x in stored + reported then 0 else 1)
  {
    if x in stored + reported {
      assert (reported + {x}) - stored == reported - stored;
    } else {
      assert (reported + {x}) - stored == (reported - stored) + {x};
    }
  }

  /**
   After a successful UpsertApplications each application of the list has one row of its own, under its own
   partition, queue name and id, and the table gained as many rows as there were applications not stored before.
   */
  lemma UpsertStoresEach(t: seq<ARow>, queues: seq<QRow>, uuid: Supply, apps: seq<App>, budget: nat)
    requires UniqueKeys(t) && UpsertApps(t, queues, uuid, apps, budget).ok
    ensures var t' := UpsertApps(t, queues, uuid, apps, budget).table;
            && (forall a :: a in apps ==> HasItsRow(t', a))
            && |t'| == |t| + |Reported(apps) - Stored(t)|
  {
    hide UpsertApps;
    var log := UpsertIsMerge(t, queues, uuid, apps, budget);
    MergeStores(t, uuid, log, apps);
    var t' := Merge(t, uuid, log);
    forall a | a in apps ensures HasItsRow(t', a) {
      var x := (a.partition, a.queueName, a.appId);
      assert x in Reported(apps);
      assert x in Stored(t');
      var i :| 0 <= i < |t'| && (t'[i].key.partition, t'[i].key.queueName, t'[i].key.appId) == x;
      assert IsFor(a, t'[i].key);
      forall j | 0 <= j < |t'| && IsFor(a, t'[j].key) ensures j == i {
        assert t'[j].key == t'[i].key;
      }
    }
  }
}
