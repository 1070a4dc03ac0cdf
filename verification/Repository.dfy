/**
 PostgresRepository: the queue and application writers and the queue readers as the source
 executes them, statement by statement.  Each method is proved against the function that
 specifies it.

 A field `budget` counts the rows whose statements the database still accepts; at zero every
 write fails without effect.
 */
module Repository {
  import opened Options
  import opened UpsertTable
  import opened QueueModel
  import opened AppModel
  import opened StoreRuns
  import opened QueueCalls
  import opened QueueWriters
  import opened QueueReaders

  // ----- partitions written over children -----

  /** The child list AddQueues builds: copies that carry the partition of their parent. */
  function WithPartition(qs: seq<QueueTree>, partition: string): (r: seq<QueueTree>)
    ensures |r| == |qs|
  {
    seq(|qs|, i requires 0 <= i < |qs| => qs[i].(queue := qs[i].queue.(partition := partition)))
  }

  lemma {:induction false} WithPartitionSize(qs: seq<QueueTree>, partition: string)
    ensures ForestSize(WithPartition(qs, partition)) == ForestSize(qs)
  {
    if qs != [] {
      assert WithPartition(qs, partition)[1..] == WithPartition(qs[1..], partition);
      WithPartitionSize(qs[1..], partition);
    }
  }

  lemma {:induction false} AddWithPartition(t: seq<QRow>, uuid: Supply, p: Option<Id>, qs: seq<QueueTree>, partition: string, budget: nat)
    ensures AddForest(t, uuid, p, WithPartition(qs, partition), None, budget) == AddForest(t, uuid, p, qs, Some(partition), budget)
    decreases qs
  {
    hide AddForest;
    if qs == [] {
      NothingToAdd(t, uuid, p, None, budget);
      NothingToAdd(t, uuid, p, Some(partition), budget);
    } else {
      var pushed := WithPartition(qs, partition);
      assert pushed[1..] == WithPartition(qs[1..], partition);
      AddUnfold(t, uuid, p, pushed, None, budget);
      AddUnfold(t, uuid, p, qs, Some(partition), budget);
      var q := pushed[0].queue;
      if CanInsert(t, p, q, budget) {
        var r := Resolve(t, p, q).value;
        var kids := AddForest(t + [NewRow(uuid(|t|), r, q)], uuid, Some(uuid(|t|)), qs[0].children, Some(q.partition), budget - 1);
        AddWithPartition(kids.table, uuid, r, qs[1..], partition, kids.budget);
      }
    }
  }

  // ----- loop steps -----

  lemma UpsertStep(t: seq<QRow>, uuid: Supply, qs: seq<Queue>, i: nat, budget: nat)
    requires i < |qs|
    ensures UpsertAll(t, uuid, qs[i..], budget) ==
            if budget == 0 || UpsertRow(t, uuid, qs[i]).Err? then Outcome(t, budget, false)
            else UpsertAll(UpsertRow(t, uuid, qs[i]).value, uuid, qs[i + 1..], budget - 1)
  {
    assert qs[i..] == [qs[i]] + qs[i + 1..];
    UpsertUnfold(t, uuid, qs[i], qs[i + 1..], budget);
  }

  lemma UpsertAppStep(t: seq<ARow>, queues: seq<QRow>, uuid: Supply, apps: seq<App>, i: nat, budget: nat)
    requires i < |apps|
    ensures UpsertApps(t, queues, uuid, apps[i..], budget) ==
            if budget == 0 || AppRow(t, queues, uuid, apps[i]).Err? then AppOutcome(t, budget, false)
            else UpsertApps(AppRow(t, queues, uuid, apps[i]).value, queues, uuid, apps[i + 1..], budget - 1)
  {
    hide AppRow;
    assert apps[i..][0] == apps[i] && apps[i..][1..] == apps[i + 1..];
  }

  lemma DeleteStep(t: seq<QRow>, f: seq<Tree>, i: nat, budget: nat)
    requires i < |f|
    ensures var kids := DeleteForest(t, f[i].children, budget);
            DeleteForest(t, f[i..], budget) ==
            if !kids.ok then kids
            else if kids.budget == 0 then Outcome(kids.table, 0, false)
            else DeleteForest(Mark(kids.table, f[i].row.fixed.id), f[i + 1..], kids.budget - 1)
  {
    hide Mark;
    assert f[i..][0] == f[i] && f[i..][1..] == f[i + 1..];
  }

  lemma NothingLeft(t: seq<QRow>, at: seq<ARow>, queues: seq<QRow>, uuid: Supply, budget: nat)
    ensures UpsertAll(t, uuid, [], budget) == Outcome(t, budget, true)
    ensures DeleteForest(t, [], budget) == Outcome(t, budget, true)
    ensures UpsertApps(at, queues, uuid, [], budget) == AppOutcome(at, budget, true)
  {
  }

  /** AddQueues from the i-th queue on: this queue's row, its children, then the rest. */
  lemma AddStep(t: seq<QRow>, uuid: Supply, p: Option<Id>, qs: seq<QueueTree>, i: nat, budget: nat)
    requires i < |qs|
    ensures var q := qs[i].queue;
            if CanInsert(t, p, q, budget) then
              var r := Resolve(t, p, q).value;
              var kids := AddForest(t + [NewRow(uuid(|t|), r, q)], uuid, Some(uuid(|t|)),
                                    WithPartition(qs[i].children, q.partition), None, budget - 1);
              AddForest(t, uuid, p, qs[i..], None, budget) ==
              if kids.ok then AddForest(kids.table, uuid, r, qs[i + 1..], None, kids.budget) else kids
            else AddForest(t, uuid, p, qs[i..], None, budget) == Outcome(t, budget, false)
  {
    hide AddForest;
    var q := qs[i].queue;
    assert qs[i..][0] == qs[i] && qs[i..][1..] == qs[i + 1..];
    AddUnfold(t, uuid, p, qs[i..], None, budget);
    if CanInsert(t, p, q, budget) {
      var r := Resolve(t, p, q).value;
      AddWithPartition(t + [NewRow(uuid(|t|), r, q)], uuid, Some(uuid(|t|)), qs[i].children, q.partition, budget - 1);
    }
  }

  lemma {:induction false} ForestSizeDrop(qs: seq<QueueTree>, i: nat)
    requires i < |qs|
    ensures ForestSize(qs[i].children) < ForestSize(qs)
    decreases qs
  {
    if i > 0 {
      ForestSizeDrop(qs[1..], i - 1);
    }
  }

  class PostgresRepository {
    var queues: seq<QRow>
    var apps: seq<ARow>
    var budget: nat
    const uuid: Supply
    const appUuid: Supply

    constructor (uuid: Supply, appUuid: Supply, budget: nat)
      ensures queues == [] && apps == [] && this.budget == budget && this.uuid == uuid && this.appUuid == appUuid
    {
      queues, apps := [], [];
      this.budget := budget;
      this.uuid := uuid;
      this.appUuid := appUuid;
    }

    // ----- single statements -----

    /** SELECT id FROM queues WHERE queue_name AND partition AND deleted_at IS NULL. */
    method GetQueueID(name: string, partition: string) returns (r: Result<Option<Id>>)
      requires UniqueKeys(queues)
      ensures r == Lookup(queues, name, partition)
    {
      if name == "" {
        return Ok(None);
      }
      var key := QueueKey(partition, name);
      for i := 0 to |queues|
        invariant forall j :: 0 <= j < i ==> queues[j].key != key || queues[j].fixed.deleted
      {
        if queues[i].key == key && !queues[i].fixed.deleted {
          FindIs(queues, key, i);
          return Ok(Some(queues[i].fixed.id));
        }
      }
      return Err;
    }

    /** INSERT ... RETURNING id: fails on an unanswered statement, an empty partition or a taken key. */
    method InsertQueue(q: Queue, parentId: Option<Id>) returns (r: Result<Id>)
      modifies `queues, `budget
      ensures r.Ok? <==> old(budget) > 0 && q.partition != "" && Find(old(queues), KeyOf(q)).None?
      ensures r.Ok? ==> r.value == uuid(|old(queues)|) && budget == old(budget) - 1
                        && queues == old(queues) + [NewRow(r.value, parentId, q)]
      ensures r.Err? ==> queues == old(queues) && budget == old(budget)
    {
      if budget == 0 || q.partition == "" || Find(queues, KeyOf(q)).Some? {
        return Err;
      }
      var id := uuid(|queues|);
      queues := queues + [NewRow(id, parentId, q)];
      budget := budget - 1;
      return Ok(id);
    }

    /** INSERT ... ON CONFLICT (partition, queue_name) DO UPDATE. */
    method UpsertQueue(q: Queue, parentId: Option<Id>) returns (ok: bool)
      modifies `queues, `budget
      ensures ok <==> old(budget) > 0 && UpsertExec(old(queues), uuid, q, parentId).Ok?
      ensures ok ==> Ok(queues) == UpsertExec(old(queues), uuid, q, parentId) && budget == old(budget) - 1
      ensures !ok ==> queues == old(queues) && budget == old(budget)
    {
      if budget == 0 || q.partition == "" {
        return false;
      }
      match Find(queues, KeyOf(q)) {
        case Some(i) => queues := queues[i := queues[i].(cols := queues[i].cols + LivePatch(q))];
        case None => queues := queues + [NewRow(uuid(|queues|), parentId, q)];
      }
      budget := budget - 1;
      return true;
    }

    /** UPDATE queues SET deleted_at WHERE id. */
    method MarkDeleted(id: Id) returns (ok: bool)
      modifies `queues, `budget
      ensures ok <==> old(budget) > 0
      ensures ok ==> |queues| == |old(queues)| && budget == old(budget) - 1
      ensures ok ==> forall i :: 0 <= i < |queues| ==>
                (queues[i].fixed.deleted <==> old(queues)[i].fixed.deleted || old(queues)[i].fixed.id == id)
      ensures ok ==> queues == Mark(old(queues), id)
      ensures !ok ==> queues == old(queues) && budget == old(budget)
    {
      if budget == 0 {
        return false;
      }
      queues := Mark(queues, id);
      budget := budget - 1;
      return true;
    }

    // ----- writers -----

    method UpsertQueues(qs: seq<Queue>) returns (ok: bool)
      requires UniqueKeys(queues)
      modifies `queues, `budget
      ensures UniqueKeys(queues)
      ensures Outcome(queues, budget, ok) == UpsertAll(old(queues), uuid, qs, old(budget))
    {
      hide UpsertAll;
      ghost var q0, b0 := queues, budget;
      assert qs[0..] == qs;
      for i := 0 to |qs|
        invariant UniqueKeys(queues)
        invariant UpsertAll(queues, uuid, qs[i..], budget) == UpsertAll(q0, uuid, qs, b0)
      {
        UpsertStep(queues, uuid, qs, i, budget);
        var parentId := GetQueueID(qs[i].parent, qs[i].partition);
        if parentId.Err? {
          return false;
        }
        PutKeepsKeys(queues, KeyOf(qs[i]), NewFixed(uuid(|queues|), parentId.value, qs[i]), LivePatch(qs[i]));
        var done := UpsertQueue(qs[i], parentId.value);
        if !done {
          return false;
        }
      }
      NothingLeft(queues, [], queues, uuid, budget);
      assert qs[|qs|..] == [];
      return true;
    }

    method AddQueues(parentId: Option<Id>, qs: seq<QueueTree>) returns (ok: bool)
      requires UniqueKeys(queues)
      modifies `queues, `budget
      ensures UniqueKeys(queues)
      ensures Outcome(queues, budget, ok) == AddForest(old(queues), uuid, parentId, qs, None, old(budget))
      decreases ForestSize(qs)
    {
      hide AddForest;
      hide Find;
      hide Lookup;
      ghost var q0, b0 := queues, budget;
      var parent := parentId;
      assert qs[0..] == qs;
      for i := 0 to |qs|
        invariant UniqueKeys(queues)
        invariant AddForest(queues, uuid, parent, qs[i..], None, budget) == AddForest(q0, uuid, parentId, qs, None, b0)
      {
        var q := qs[i].queue;
        AddStep(queues, uuid, parent, qs, i, budget);
        if parent.None? {
          var r := GetQueueID(q.parent, q.partition);
          if r.Err? {
            return false;
          }
          parent := r.value;
        }
        if q.partition == "" {
          return false;
        }
        ghost var before := queues;
        var id := InsertQueue(q, parent);
        if id.Err? {
          return false;
        }
        FreshKeyKeepsUnique(before, NewRow(id.value, parent, q));
        var children := [];
        for c := 0 to |qs[i].children|
          invariant children == WithPartition(qs[i].children, q.partition)[..c]
        {
          children := children + [qs[i].children[c].(queue := qs[i].children[c].queue.(partition := q.partition))];
        }
        WithPartitionSize(qs[i].children, q.partition);
        ForestSizeDrop(qs, i);
        assert children == WithPartition(qs[i].children, q.partition);
        var added := AddQueues(Some(id.value), children);
        if !added {
          return false;
        }
      }
      NothingToAdd(queues, uuid, parent, None, budget);
      assert qs[|qs|..] == [];
      return true;
    }

    method DeleteQueues(f: seq<Tree>) returns (ok: bool)
      modifies `queues, `budget
      ensures Outcome(queues, budget, ok) == DeleteForest(old(queues), f, old(budget))
      decreases f
    {
      hide DeleteForest;
      hide Mark;
      ghost var q0, b0 := queues, budget;
      assert f[0..] == f;
      for i := 0 to |f|
        invariant DeleteForest(queues, f[i..], budget) == DeleteForest(q0, f, b0)
      {
        DeleteStep(queues, f, i, budget);
        var done := DeleteQueues(f[i].children);
        if !done {
          return false;
        }
        done := MarkDeleted(f[i].row.fixed.id);
        if !done {
          return false;
        }
      }
      NothingLeft(queues, [], queues, uuid, budget);
      assert f[|f|..] == [];
      return true;
    }

    method UpsertApplications(list: seq<App>) returns (ok: bool)
      requires UniqueKeys(queues)
      modifies `apps, `budget
      ensures AppOutcome(apps, budget, ok) == UpsertApps(old(apps), queues, appUuid, list, old(budget))
    {
      hide UpsertApps;
      hide Lookup;
      ghost var a0, b0 := apps, budget;
      assert list[0..] == list;
      for i := 0 to |list|
        invariant UpsertApps(apps, queues, appUuid, list[i..], budget) == UpsertApps(a0, queues, appUuid, list, b0)
      {
        UpsertAppStep(apps, queues, appUuid, list, i, budget);
        var queueId := GetQueueID(list[i].queueName, list[i].partition);
        if queueId.Err? || queueId.value.None? || budget == 0 {
          return false;
        }
        apps := Put(apps, AppKeyOf(list[i]), NewAppFixed(appUuid(|apps|), queueId.value.value, list[i]), list[i].values);
        budget := budget - 1;
      }
      NothingLeft([], apps, queues, appUuid, budget);
      assert list[|list|..] == [];
      return true;
    }

    // ----- readers -----

    /** SELECT * FROM queues WHERE partition; the contract leaves the order open. */
    method SelectPartition(partition: string) returns (rows: seq<QRow>)
      ensures Delivered(queues, partition, rows)
    {
      rows := [];
      for i := 0 to |queues|
        invariant rows == RowsOf(queues[..i], partition)
      {
        assert queues[..i + 1][..i] == queues[..i];
        if queues[i].key.partition == partition {
          rows := rows + [queues[i]];
        }
      }
      assert queues[..|queues|] == queues;
    }

    /** getChildrenFromMap. */
    method GetChildrenFromMap(id: Id, childrenMap: map<Id, seq<QRow>>, ghost rows: seq<QRow>, ghost r: QRow)
      returns (children: seq<Tree>)
      requires Stored(queues, uuid) && Drawn(rows, queues) && r in queues && id == r.fixed.id && Groups(childrenMap, rows)
      ensures Tree(r, children) == TreeAt(queues, uuid, rows, r)
      decreases |queues| - Rank(queues, r)
    {
      hide TreeAt;
      hide KidsOf;
      var list := if id in childrenMap then childrenMap[id] else [];
      assert list == KidsOf(rows, Some(id));
      TreeIs(queues, uuid, rows, r);
      children := [];
      for i := 0 to |list|
        invariant children == Grow(queues, uuid, rows, list)[..i]
      {
        assert list[i] in list;
        ParentRanksLower(queues, uuid, list[i], r);
        var below := GetChildrenFromMap(list[i].fixed.id, childrenMap, rows, list[i]);
        children := children + [Tree(list[i], below)];
      }
    }

    method GetQueuesPerPartition(partition: string) returns (f: seq<Tree>, ghost rows: seq<QRow>)
      requires Stored(queues, uuid)
      ensures Delivered(queues, partition, rows) && Drawn(rows, queues)
      ensures f == ReadForest(queues, uuid, rows)
    {
      hide TreeAt;
      hide KidsOf;
      hide Groups;
      var list := SelectPartition(partition);
      rows := list;
      DeliveredRows(queues, partition, rows);
      var roots, childrenMap := GroupByParent(list);
      f := [];
      for i := 0 to |roots|
        invariant f == Grow(queues, uuid, rows, roots)[..i]
      {
        assert roots[i] in roots;
        var children := GetChildrenFromMap(roots[i].fixed.id, childrenMap, rows, roots[i]);
        f := f + [Tree(roots[i], children)];
      }
    }

    /** The recursive query: the starting row in generation 0, then generation by generation its descendants. */
    method SelectGenerations(start: QRow) returns (rows: seq<QRow>, generations: seq<nat>)
      requires Stored(queues, uuid) && start in queues
      ensures |generations| == |rows| > 0 && rows[0] == start && generations[0] == 0
      ensures forall i :: 0 < i < |rows| ==> generations[i] > 0
      ensures Descendants(queues, uuid, start, rows[1..])
    {
      hide Generations;
      hide Join;
      rows, generations := [start], [0];
      var working, g := Join(queues, [start]), 1;
      JoinIsLater(queues, uuid, [start], 0);
      GenerationsUnfold(queues, uuid, [start], 0);
      while working != []
        invariant g > 0 && Late(queues, working, g) && |generations| == |rows| > 0
        invariant rows[0] == start && generations[0] == 0 && forall i :: 0 < i < |rows| ==> generations[i] > 0
        invariant rows + Generations(queues, uuid, working, g) == Generations(queues, uuid, [start], 0)
        decreases |queues| - g
      {
        assert working[0] in working;
        assert g <= Rank(queues, working[0]) < |queues|;
        JoinIsLater(queues, uuid, working, g);
        GenerationsUnfold(queues, uuid, working, g);
        assert rows + (working + Generations(queues, uuid, Join(queues, working), g + 1)) ==
               rows + working + Generations(queues, uuid, Join(queues, working), g + 1);
        rows := rows + working;
        generations := generations + seq(|working|, _ => g);
        working, g := Join(queues, working), g + 1;
      }
      GenerationsUnfold(queues, uuid, working, g);
      assert rows == Generations(queues, uuid, [start], 0);
      assert [start] + rows[1..] == rows;
    }

    /** GetQueue: an error iff no live queue has the name; else the tree of the query's rows. */
    method GetQueue(partition: string, name: string) returns (r: Result<Tree>, ghost rest: seq<QRow>)
      requires Stored(queues, uuid)
      ensures r.Ok? <==> Find(queues, QueueKey(partition, name)).Some?
                         && !queues[Find(queues, QueueKey(partition, name)).value].fixed.deleted
      ensures r.Ok? ==>
                var start := queues[Find(queues, QueueKey(partition, name)).value];
                Descendants(queues, uuid, start, rest) && Drawn(rest, queues) && r.value == TreeAt(queues, uuid, rest, start)
    {
      hide TreeAt;
      hide KidsOf;
      hide Groups;
      hide Descendants;
      rest := [];
      var at := Find(queues, QueueKey(partition, name));
      if at.None? || queues[at.value].fixed.deleted {
        return Err, rest;
      }
      var start := queues[at.value];
      var rows, generations := SelectGenerations(start);
      rest := rows[1..];
      GetQueueIsStored(queues, uuid, start, rest, r => r);
      var root, childrenMap := SplitRoot(rows, generations);
      var children := GetChildrenFromMap(root.fixed.id, childrenMap, rest, start);
      r := Ok(Tree(root, children));
    }
  }

  /** The first loop of GetQueuesPerPartition. */
  method GroupByParent(list: seq<QRow>) returns (roots: seq<QRow>, childrenMap: map<Id, seq<QRow>>)
    ensures roots == KidsOf(list, None) && Groups(childrenMap, list)
  {
    hide KidsOf;
    hide Groups;
    roots, childrenMap := [], map[];
    NoGroups();
    for i := 0 to |list|
      invariant roots == KidsOf(list[..i], None) && Groups(childrenMap, list[..i])
    {
      GroupsStep(childrenMap, list, i);
      if list[i].fixed.parentId.Some? {
        var p := list[i].fixed.parentId.value;
        childrenMap := childrenMap[p := (if p in childrenMap then childrenMap[p] else []) + [list[i]]];
      } else {
        roots := roots + [list[i]];
      }
    }
    assert list[..|list|] == list;
  }

  /** The loop of GetQueue: the row of generation 0 is the root, the others are grouped by parent id. */
  method SplitRoot(rows: seq<QRow>, generations: seq<nat>) returns (root: QRow, childrenMap: map<Id, seq<QRow>>)
    requires |generations| == |rows| > 0 && generations[0] == 0
    requires forall i :: 0 < i < |rows| ==> generations[i] > 0
    ensures root == rows[0] && Groups(childrenMap, rows[1..])
  {
    hide KidsOf;
    hide Groups;
    var found: Option<QRow> := None;
    childrenMap := map[];
    NoGroups();
    for i := 0 to |rows|
      invariant found == if i == 0 then None else Some(rows[0])
      invariant Groups(childrenMap, if i == 0 then [] else rows[1..][..i - 1])
    {
      if found.None? && generations[i] == 0 {
        found := Some(rows[i]);
      } else {
        assert rows[i] == rows[1..][i - 1];
        GroupsStep(childrenMap, rows[1..], i - 1);
        if rows[i].fixed.parentId.Some? {
          var p := rows[i].fixed.parentId.value;
          childrenMap := childrenMap[p := (if p in childrenMap then childrenMap[p] else []) + [rows[i]]];
        }
      }
    }
    assert rows[1..][..|rows| - 1] == rows[1..];
    root := found.value;
  }

  lemma NoGroups()
    ensures KidsOf([], None) == [] && Groups(map[], [])
  {
  }

  lemma FreshKeyKeepsUnique(t: seq<QRow>, r: QRow)
    requires UniqueKeys(t) && Find(t, r.key).None?
    ensures UniqueKeys(t + [r])
  {
  }

  /** The map groups the rows by parent id, in order of delivery. */
  ghost predicate Groups(m: map<Id, seq<QRow>>, rows: seq<QRow>) {
    && (forall p :: p in m ==> m[p] == KidsOf(rows, Some(p)))
    && (forall p :: p !in m ==> KidsOf(rows, Some(p)) == [])
  }

  /** One delivered row more. */
  lemma GroupsStep(m: map<Id, seq<QRow>>, rows: seq<QRow>, i: nat)
    requires i < |rows| && Groups(m, rows[..i])
    ensures KidsOf(rows[..i + 1], None) == KidsOf(rows[..i], None) + (if rows[i].fixed.parentId.None? then [rows[i]] else [])
    ensures rows[i].fixed.parentId.None? ==> Groups(m, rows[..i + 1])
    ensures rows[i].fixed.parentId.Some? ==>
              var p := rows[i].fixed.parentId.value;
              Groups(m[p := (if p in m then m[p] else []) + [rows[i]]], rows[..i + 1])
  {
    hide KidsOf;
    forall p ensures KidsOf(rows[..i + 1], p) == KidsOf(rows[..i], p) + (if rows[i].fixed.parentId == p then [rows[i]] else []) {
      KidsStep(rows, i, p);
    }
  }

  lemma KidsStep(rows: seq<QRow>, i: nat, p: Option<Id>)
    requires i < |rows|
    ensures KidsOf(rows[..i + 1], p) == KidsOf(rows[..i], p) + (if rows[i].fixed.parentId == p then [rows[i]] else [])
  {
    assert rows[..i + 1][..i] == rows[..i];
  }
}
