/**
 A table with a unique key and the one statement both upsert loops execute:
 INSERT ... ON CONFLICT (key) DO UPDATE.

 A row holds its key, the columns no conflict update touches (`fixed`), and the
 columns a conflict update may overwrite (`cols`).  Rows stay in insertion order.
 A column absent from `cols` is NULL, and a column absent from a patch is one the
 update leaves alone, so merging is map override.
 */
module UpsertTable {
  import opened Options

  datatype Row<K, F, C, V> = Row(key: K, fixed: F, cols: map<C, V>)

  /** What one upsert says about the row with its key. */
  datatype Write<K, C, V> = Write(key: K, patch: map<C, V>)

  ghost predicate UniqueKeys<K, F, C, V>(t: seq<Row<K, F, C, V>>) {
    forall i, j :: 0 <= i < j < |t| ==> t[i].key != t[j].key
  }

  function FindFrom<K(==), F, C, V>(t: seq<Row<K, F, C, V>>, k: K, from: nat): (r: Option<nat>)
    requires from <= |t|
    ensures r.Some? ==> r.value < |t| && t[r.value].key == k
    ensures r.None? ==> forall i :: from <= i < |t| ==> t[i].key != k
    decreases |t| - from
  {
    if from == |t| then None
    else if t[from].key == k then Some(from)
    else FindFrom(t, k, from + 1)
  }

  /** The unique index lookup. */
  function Find<K(==), F, C, V>(t: seq<Row<K, F, C, V>>, k: K): (r: Option<nat>)
    ensures r.Some? ==> r.value < |t| && t[r.value].key == k
    ensures r.None? ==> forall i :: 0 <= i < |t| ==> t[i].key != k
  {
    FindFrom(t, k, 0)
  }

  function Put<K(==), F, C, V>(t: seq<Row<K, F, C, V>>, k: K, fixed: F, patch: map<C, V>): seq<Row<K, F, C, V>> {
    match Find(t, k)
    case Some(i) => t[i := t[i].(cols := t[i].cols + patch)]
    case None => t + [Row(k, fixed, patch)]
  }

  lemma PutKeepsKeys<K, F, C, V>(t: seq<Row<K, F, C, V>>, k: K, fixed: F, patch: map<C, V>)
    requires UniqueKeys(t)
    ensures UniqueKeys(Put(t, k, fixed, patch))
  {
  }

  /** With unique keys the index lookup is decided by any row that has the key. */
  lemma FindIs<K, F, C, V>(t: seq<Row<K, F, C, V>>, k: K, i: nat)
    requires UniqueKeys(t) && i < |t| && t[i].key == k
    ensures Find(t, k) == Some(i)
  {
  }

  // ----- the value each cell ends up with -----

  /** Some write in log[from..to] sets column c of key k. */
  ghost predicate Sets<K, C, V>(log: seq<Write<K, C, V>>, from: nat, to: nat, k: K, c: C)
    requires to <= |log|
  {
    exists i :: from <= i < to && log[i].key == k && c in log[i].patch
  }

  ghost predicate SameCell<C, V>(a: map<C, V>, b: map<C, V>, c: C) {
    (c in a <==> c in b) && (c in a ==> a[c] == b[c])
  }

  /** Row j shows, for every column set by log[..m], the last value set for its key. */
  ghost predicate Shows<K, F, C(!new), V>(s: seq<Row<K, F, C, V>>, log: seq<Write<K, C, V>>, m: nat, i: nat, c: C)
    requires i < m <= |log| && c in log[i].patch
  {
    exists j :: 0 <= j < |s| && s[j].key == log[i].key && c in s[j].cols && s[j].cols[c] == log[i].patch[c]
  }

  /** Table s is what the writes log[..m] left behind: every cell holds its last non-NULL write. */
  ghost predicate Reflects<K, F, C(!new), V>(s: seq<Row<K, F, C, V>>, log: seq<Write<K, C, V>>, m: nat)
    requires m <= |log|
  {
    && UniqueKeys(s)
    && (forall i :: 0 <= i < m ==> Find(s, log[i].key).Some?)
    && (forall i, c :: 0 <= i < m && c in log[i].patch && !Sets(log, i + 1, m, log[i].key, c) ==>
          Shows(s, log, m, i, c))
  }

  lemma ReflectsPut<K, F, C(!new), V>(s: seq<Row<K, F, C, V>>, log: seq<Write<K, C, V>>, m: nat, fixed: F)
    requires m < |log| && Reflects(s, log, m)
    ensures Reflects(Put(s, log[m].key, fixed, log[m].patch), log, m + 1)
  {
    var k, patch := log[m].key, log[m].patch;
    var s' := Put(s, k, fixed, patch);
    PutKeepsKeys(s, k, fixed, patch);
    forall i | 0 <= i < m + 1
      ensures Find(s', log[i].key).Some?
    {
      if i < m {
        var j := Find(s, log[i].key).value;
        assert s'[j].key == log[i].key;
      } else {
        var j := if Find(s, k).Some? then Find(s, k).value else |s|;
        assert s'[j].key == log[i].key;
      }
    }
    forall i, c | 0 <= i < m + 1 && c in log[i].patch && !Sets(log, i + 1, m + 1, log[i].key, c)
      ensures Shows(s', log, m + 1, i, c)
    {
      if i < m {
        assert !Sets(log, i + 1, m, log[i].key, c);
        assert Shows(s, log, m, i, c);
        var j :| 0 <= j < |s| && s[j].key == log[i].key && c in s[j].cols && s[j].cols[c] == log[i].patch[c];
        assert !(log[m].key == log[i].key && c in log[m].patch);
        assert s'[j].key == log[i].key && c in s'[j].cols && s'[j].cols[c] == log[i].patch[c];
      } else {
        var j := if Find(s, k).Some? then Find(s, k).value else |s|;
        assert s'[j].key == log[i].key && c in s'[j].cols && s'[j].cols[c] == log[i].patch[c];
      }
    }
  }

  // ----- replaying a prefix of the log -----

  /**
   t differs from s at most in cells that log[pc..m] is about to set again.  This is what
   a retried loop has done to the table when it stands at row pc and has earlier got as
   far as row m.
   */
  ghost predicate Agree<K, F, C(!new), V>(t: seq<Row<K, F, C, V>>, s: seq<Row<K, F, C, V>>,
                                          log: seq<Write<K, C, V>>, pc: nat, m: nat)
    requires pc <= m <= |log|
  {
    && |t| == |s|
    && (forall j :: 0 <= j < |t| ==> t[j].key == s[j].key && t[j].fixed == s[j].fixed)
    && (forall j, c :: 0 <= j < |t| && !Sets(log, pc, m, t[j].key, c) ==> SameCell(t[j].cols, s[j].cols, c))
  }

  lemma AgreeFind<K, F, C(!new), V>(t: seq<Row<K, F, C, V>>, s: seq<Row<K, F, C, V>>,
                                    log: seq<Write<K, C, V>>, pc: nat, m: nat, k: K)
    requires pc <= m <= |log| && Agree(t, s, log, pc, m) && UniqueKeys(s)
    ensures UniqueKeys(t) && Find(t, k) == Find(s, k)
  {
    assert UniqueKeys(t);
    if Find(s, k).Some? {
      FindIs(t, k, Find(s, k).value);
    }
  }

  lemma AgreeAtEnd<K, F, C(!new), V>(t: seq<Row<K, F, C, V>>, s: seq<Row<K, F, C, V>>,
                                     log: seq<Write<K, C, V>>, m: nat)
    requires m <= |log| && Agree(t, s, log, m, m)
    ensures t == s
  {
    forall j | 0 <= j < |t|
      ensures t[j] == s[j]
    {
      assert forall c :: SameCell(t[j].cols, s[j].cols, c) by {
        forall c ensures SameCell(t[j].cols, s[j].cols, c) {
          assert !Sets(log, m, m, t[j].key, c);
        }
      }
      assert t[j].cols == s[j].cols by {
        forall c ensures (c in t[j].cols <==> c in s[j].cols) && (c in t[j].cols ==> t[j].cols[c] == s[j].cols[c]) {
          assert SameCell(t[j].cols, s[j].cols, c);
        }
      }
    }
  }

  lemma AgreeRestart<K, F, C(!new), V>(t: seq<Row<K, F, C, V>>, s: seq<Row<K, F, C, V>>,
                                       log: seq<Write<K, C, V>>, pc: nat, m: nat)
    requires pc <= m <= |log| && Agree(t, s, log, pc, m)
    ensures Agree(t, s, log, 0, m)
  {
    forall j, c | 0 <= j < |t| && !Sets(log, 0, m, t[j].key, c)
      ensures SameCell(t[j].cols, s[j].cols, c)
    {
      assert !Sets(log, pc, m, t[j].key, c);
    }
  }

  /** A cell that log[pc + 1..m] leaves alone already agrees, unless write pc itself sets it. */
  lemma UntouchedCell<K, F, C(!new), V>(t: seq<Row<K, F, C, V>>, s: seq<Row<K, F, C, V>>,
                                        log: seq<Write<K, C, V>>, pc: nat, m: nat, j: nat, c: C)
    requires pc < m <= |log| && Agree(t, s, log, pc, m) && j < |t|
    requires !Sets(log, pc + 1, m, t[j].key, c)
    requires log[pc].key != t[j].key || c !in log[pc].patch
    ensures SameCell(t[j].cols, s[j].cols, c)
  {
    assert !Sets(log, pc, m, t[j].key, c);
  }

  /** Re-executing a write that an earlier attempt got through inserts nothing and makes one more row agree. */
  lemma ReplayStep<K, F, C(!new), V>(t: seq<Row<K, F, C, V>>, s: seq<Row<K, F, C, V>>,
                                     log: seq<Write<K, C, V>>, pc: nat, m: nat, fixed: F)
    requires pc < m <= |log| && Agree(t, s, log, pc, m) && Reflects(s, log, m)
    ensures Agree(Put(t, log[pc].key, fixed, log[pc].patch), s, log, pc + 1, m)
  {
    var k, patch := log[pc].key, log[pc].patch;
    AgreeFind(t, s, log, pc, m, k);
    var at := Find(t, k).value;
    var t' := t[at := t[at].(cols := t[at].cols + patch)];
    assert Put(t, k, fixed, patch) == t';
    forall j, c | 0 <= j < |t'| && !Sets(log, pc + 1, m, t'[j].key, c)
      ensures SameCell(t'[j].cols, s[j].cols, c)
    {
      if j == at && c in patch {
        assert Shows(s, log, m, pc, c);
        var i :| 0 <= i < |s| && s[i].key == k && c in s[i].cols && s[i].cols[c] == patch[c];
        assert i == at;
      } else {
        UntouchedCell(t, s, log, pc, m, j, c);
      }
    }
  }
}
