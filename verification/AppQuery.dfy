/**
 Application filters compiled to SQL (internal/database/repository/application.go) and what the
 text and arguments sent to the database accept.
 */
module AppQuery {
  import opened Options
  import opened SqlBuilder
  import opened QueryText

  /** ApplicationFilters; times in Unix milliseconds. */
  datatype Filters = Filters(
    submissionStart: Option<int>, submissionEnd: Option<int>, finishedStart: Option<int>, finishedEnd: Option<int>,
    user: Option<string>, groups: seq<string>, offset: Option<int>, limit: Option<int>)

  /** The columns of an application the filters look at; None is NULL. */
  datatype Record = Record(
    queueName: Option<string>, partition: Option<string>, submissionTime: Option<int>, finishedTime: Option<int>,
    user: Option<string>, groups: Option<seq<string>>)

  // ----- SQL conditions on a row, in three-valued logic -----

  datatype Truth = True | False | Unknown

  function TextColumn(v: Option<string>): Option<Arg> {
    if v.Some? then Some(TextArg(v.value)) else None
  }

  function IntColumn(v: Option<int>): Option<Arg> {
    if v.Some? then Some(IntArg(v.value)) else None
  }

  /** The value of the column a comparison names. */
  function ColumnOf(r: Record, lhs: string): Option<Arg> {
    if lhs == "queue_name" then TextColumn(r.queueName)
    else if lhs == "partition" then TextColumn(r.partition)
    else if lhs == "submission_time" then IntColumn(r.submissionTime)
    else if lhs == "finished_time" then IntColumn(r.finishedTime)
    else if lhs == "\"user\"" then TextColumn(r.user)
    else None
  }

  function FromBool(b: bool): Truth {
    if b then True else False
  }

  function CompareArgs(op: string, a: Arg, b: Arg): Truth {
    if op == "=" then FromBool(a == b)
    else if !a.IntArg? || !b.IntArg? then Unknown
    else if op == ">=" then FromBool(a.n >= b.n)
    else if op == "<=" then FromBool(a.n <= b.n)
    else Unknown
  }

  function CompareColumn(r: Record, lhs: string, op: string, arg: Arg): Truth {
    match ColumnOf(r, lhs)
    case Some(v) => CompareArgs(op, v, arg)
    case None => Unknown
  }

  /** groups && ARRAY[...]: the arrays have an element in common. */
  function OverlapGroups(r: Record, groups: seq<string>): Truth {
    match r.groups
    case Some(own) => FromBool(exists g :: g in groups && g in own)
    case None => Unknown
  }

  /** A condition as read from the text, with the positional arguments sent along. */
  function Holds(c: Read, args: seq<Arg>, r: Record): Truth {
    match c
    case Comparison(lhs, op, i) => if 1 <= i <= |args| then CompareColumn(r, lhs, op, args[i - 1]) else Unknown
    case Overlap(groups) => OverlapGroups(r, groups)
  }

  /** The text, sent with the arguments, selects the row: every condition it states is true. */
  ghost predicate Accepts(query: string, args: seq<Arg>, r: Record) {
    match ReadQuery(query)
    case Some(stmt) => forall i :: 0 <= i < |stmt.conditions| ==> Holds(stmt.conditions[i], args, r) == True
    case None => false
  }

  // ----- compiling the filters -----

  const QUEUE_NAME := "queue_name"
  const PARTITION := "partition"
  const SUBMISSION_TIME := "submission_time"
  const FINISHED_TIME := "finished_time"
  const USER := "\"user\""

  function When(b: Builder, lhs: string, op: string, v: Option<int>): Builder {
    if v.Some? then Conditionp(b, lhs, op, IntArg(v.value)) else b
  }

  /** applyApplicationFilters, without limit and offset. */
  function Filtered(b: Builder, f: Filters): Builder {
    var b1 := When(b, SUBMISSION_TIME, ">=", f.submissionStart);
    var b2 := When(b1, SUBMISSION_TIME, "<=", f.submissionEnd);
    var b3 := When(b2, FINISHED_TIME, ">=", f.finishedStart);
    var b4 := When(b3, FINISHED_TIME, "<=", f.finishedEnd);
    var b5 := if f.groups != [] then Condition(b4, OVERLAP + QuotedList(f.groups) + "]") else b4;
    if f.user.Some? then Conditionp(b5, USER, "=", TextArg(f.user.value)) else b5
  }

  function Paged(b: Builder, f: Filters): Builder {
    var b1 := if f.limit.Some? then Limit(b, f.limit.value) else b;
    if f.offset.Some? then Offset(b1, f.offset.value) else b1
  }

  /** GetAppsPerPartitionPerQueue. */
  function QueueQuery(partition: string, queue: string, f: Filters): Builder {
    var b := SelectAll(NewBuilder, "applications", "");
    var b1 := Conditionp(b, QUEUE_NAME, "=", TextArg(queue));
    var b2 := Conditionp(b1, PARTITION, "=", TextArg(partition));
    Paged(Filtered(OrderBy(b2, SUBMISSION_TIME, "DESC"), f), f)
  }

  /** GetAllApplications. */
  function AllQuery(f: Filters): Builder {
    Paged(Filtered(OrderBy(SelectAll(NewBuilder, "applications", "a"), "a.submission_time", "DESC"), f), f)
  }

  // ----- the conditions they stand for -----

  function Optional(lhs: string, op: string, v: Option<int>): seq<Cond> {
    if v.Some? then [Compare(lhs, op, IntArg(v.value))] else []
  }

  function TimeConds(f: Filters): seq<Cond> {
    Optional(SUBMISSION_TIME, ">=", f.submissionStart) + Optional(SUBMISSION_TIME, "<=", f.submissionEnd)
    + Optional(FINISHED_TIME, ">=", f.finishedStart) + Optional(FINISHED_TIME, "<=", f.finishedEnd)
  }

  function FilterConds(f: Filters): seq<Cond> {
    TimeConds(f)
    + (if f.groups != [] then [GroupsOverlap(f.groups)] else [])
    + (if f.user.Some? then [Compare(USER, "=", TextArg(f.user.value))] else [])
  }

  lemma WhenBuilds(b: Builder, conds: seq<Cond>, lhs: string, op: string, v: Option<int>)
    requires Built(b, conds)
    ensures Built(When(b, lhs, op, v), conds + Optional(lhs, op, v))
  {
    hide Built;
    if v.Some? {
      ConditionpBuilds(b, conds, lhs, op, IntArg(v.value));
    } else {
      assert conds + [] == conds;
    }
  }

  lemma FilteredBuilds(b: Builder, conds: seq<Cond>, f: Filters)
    requires Built(b, conds)
    ensures Built(Filtered(b, f), conds + FilterConds(f))
  {
    hide Built;
    hide When;
    hide Optional;
    hide Conditionp;
    hide Condition;
    var s1, s2 := Optional(SUBMISSION_TIME, ">=", f.submissionStart), Optional(SUBMISSION_TIME, "<=", f.submissionEnd);
    var s3, s4 := Optional(FINISHED_TIME, ">=", f.finishedStart), Optional(FINISHED_TIME, "<=", f.finishedEnd);
    var b1 := When(b, SUBMISSION_TIME, ">=", f.submissionStart);
    WhenBuilds(b, conds, SUBMISSION_TIME, ">=", f.submissionStart);
    var b2 := When(b1, SUBMISSION_TIME, "<=", f.submissionEnd);
    WhenBuilds(b1, conds + s1, SUBMISSION_TIME, "<=", f.submissionEnd);
    var b3 := When(b2, FINISHED_TIME, ">=", f.finishedStart);
    WhenBuilds(b2, conds + s1 + s2, FINISHED_TIME, ">=", f.finishedStart);
    var b4 := When(b3, FINISHED_TIME, "<=", f.finishedEnd);
    WhenBuilds(b3, conds + s1 + s2 + s3, FINISHED_TIME, "<=", f.finishedEnd);
    var times := conds + s1 + s2 + s3 + s4;
    assert times == conds + TimeConds(f);
    var b5 := if f.groups != [] then Condition(b4, OVERLAP + QuotedList(f.groups) + "]") else b4;
    var s5 := if f.groups != [] then [GroupsOverlap(f.groups)] else [];
    if f.groups != [] {
      OverlapBuilds(b4, times, f.groups);
    } else {
      assert times + s5 == times;
    }
    var s6 := if f.user.Some? then [Compare(USER, "=", TextArg(f.user.value))] else [];
    if f.user.Some? {
      ConditionpBuilds(b5, times + s5, USER, "=", TextArg(f.user.value));
    } else {
      assert times + s5 + s6 == times + s5;
    }
    assert times + s5 + s6 == conds + FilterConds(f);
  }

  /** The two builders differ in their conditions only. */
  predicate SameButConditions(b: Builder, b': Builder) {
    && b'.selectStatement == b.selectStatement && b'.orderByClauses == b.orderByClauses
    && b'.limit == b.limit && b'.offset == b.offset
  }

  lemma ConditionKeeps(b: Builder, expression: string)
    ensures SameButConditions(b, Condition(b, expression))
  {
  }

  lemma ConditionpKeeps(b: Builder, lhs: string, op: string, val: Arg)
    ensures SameButConditions(b, Conditionp(b, lhs, op, val))
  {
    hide FormatInt;
  }

  lemma WhenKeeps(b: Builder, lhs: string, op: string, v: Option<int>)
    ensures SameButConditions(b, When(b, lhs, op, v))
  {
    hide Conditionp;
    if v.Some? {
      ConditionpKeeps(b, lhs, op, IntArg(v.value));
    }
  }

  /** The filters add conditions and touch nothing else. */
  lemma FilteredKeeps(b: Builder, f: Filters)
    ensures SameButConditions(b, Filtered(b, f))
  {
    hide When;
    hide Condition;
    hide Conditionp;
    hide QuotedList;
    var b1 := When(b, SUBMISSION_TIME, ">=", f.submissionStart);
    WhenKeeps(b, SUBMISSION_TIME, ">=", f.submissionStart);
    var b2 := When(b1, SUBMISSION_TIME, "<=", f.submissionEnd);
    WhenKeeps(b1, SUBMISSION_TIME, "<=", f.submissionEnd);
    var b3 := When(b2, FINISHED_TIME, ">=", f.finishedStart);
    WhenKeeps(b2, FINISHED_TIME, ">=", f.finishedStart);
    var b4 := When(b3, FINISHED_TIME, "<=", f.finishedEnd);
    WhenKeeps(b3, FINISHED_TIME, "<=", f.finishedEnd);
    var expression := OVERLAP + QuotedList(f.groups) + "]";
    ConditionKeeps(b4, expression);
    var b5 := if f.groups != [] then Condition(b4, expression) else b4;
    if f.user.Some? {
      ConditionpKeeps(b5, USER, "=", TextArg(f.user.value));
    }
  }

  /** The filters turn a request without limit and offset into one with their conditions, limit and offset. */
  lemma FiltersAsk(b: Builder, q: Request, f: Filters)
    requires Asked(b, q) && q.limit == None && q.offset == None
    ensures Asked(Paged(Filtered(b, f), f), q.(conds := q.conds + FilterConds(f), limit := f.limit, offset := f.offset))
  {
    hide Filtered;
    hide FilterConds;
    hide FormatInt;
    FilteredBuilds(b, q.conds, f);
    FilteredKeeps(b, f);
  }

  // ----- reading back what was compiled -----

  lemma {:induction false} ReadsAt(conds: seq<Cond>, k: nat, i: nat)
    requires i < |conds|
    ensures |ReadsOf(conds, k)| == |conds|
    ensures ReadsOf(conds, k)[i] == ReadOf(conds[i], k + Compares(conds[..i]))
    decreases conds
  {
    hide ReadOf;
    var k' := if conds[0].Compare? then k + 1 else k;
    if i > 0 {
      ReadsAt(conds[1..], k', i - 1);
      assert conds[..i][0] == conds[0] && conds[..i][1..] == conds[1..][..i - 1];
    } else if |conds| > 1 {
      ReadsAt(conds[1..], k', 0);
    } else {
      assert conds[1..] == [];
    }
  }

  lemma {:induction false} ArgAt(conds: seq<Cond>, i: nat)
    requires i < |conds| && conds[i].Compare?
    ensures Compares(conds[..i]) < |ArgsOf(conds)| && ArgsOf(conds)[Compares(conds[..i])] == conds[i].arg
    decreases |conds|
  {
    var n := |conds| - 1;
    var before := conds[..n];
    ArgsAreCompares(before);
    if i < n {
      ArgAt(before, i);
      assert before[..i] == conds[..i];
    }
  }

  /** A condition with its own argument. */
  function CondHolds(c: Cond, r: Record): Truth {
    match c
    case Compare(lhs, op, arg) => CompareColumn(r, lhs, op, arg)
    case GroupsOverlap(groups) => OverlapGroups(r, groups)
  }

  /** Text and arguments accept a row exactly when every condition asked for holds of it. */
  lemma AcceptsIsConjunction(b: Builder, q: Request, r: Record)
    requires Asked(b, q) && PlainRequest(q)
    ensures Accepts(Query(b), b.args, r) <==> forall c :: c in q.conds ==> CondHolds(c, r) == True
  {
    hide ReadQuery;
    hide Query;
    hide PlainRequest;
    hide ReadsOf;
    hide ArgsOf;
    hide Clauses;
    hide Compares;
    hide Holds;
    hide CondHolds;
    var conds := q.conds;
    QueryReadsBack(b, q);
    var list := ReadsOf(conds, 0);
    ReadsLength(conds, 0);
    forall i | 0 <= i < |conds|
      ensures Holds(list[i], b.args, r) == CondHolds(conds[i], r)
    {
      ReadsAt(conds, 0, i);
      ReadHoldsAsAsked(conds, i, b.args, r);
    }
    assert forall i :: 0 <= i < |conds| ==> conds[i] in conds;
  }

  lemma {:induction false} ReadsLength(conds: seq<Cond>, k: nat)
    ensures |ReadsOf(conds, k)| == |conds|
  {
    if conds != [] {
      ReadsLength(conds[1..], if conds[0].Compare? then k + 1 else k);
    }
  }

  lemma ReadHoldsAsAsked(conds: seq<Cond>, i: nat, args: seq<Arg>, r: Record)
    requires i < |conds| && args == ArgsOf(conds)
    ensures Holds(ReadOf(conds[i], Compares(conds[..i])), args, r) == CondHolds(conds[i], r)
  {
    hide CompareColumn;
    hide OverlapGroups;
    hide ArgsOf;
    hide Compares;
    if conds[i].Compare? {
      ArgAt(conds, i);
    }
  }

  // ----- the filter predicate -----

  predicate AtLeast(v: Option<int>, bound: Option<int>) {
    bound.Some? ==> v.Some? && v.value >= bound.value
  }

  predicate AtMost(v: Option<int>, bound: Option<int>) {
    bound.Some? ==> v.Some? && v.value <= bound.value
  }

  /** Every filter that is present holds of the row. */
  ghost predicate Matches(f: Filters, r: Record) {
    && AtLeast(r.submissionTime, f.submissionStart) && AtMost(r.submissionTime, f.submissionEnd)
    && AtLeast(r.finishedTime, f.finishedStart) && AtMost(r.finishedTime, f.finishedEnd)
    && (f.user.Some? ==> r.user == f.user)
    && (f.groups != [] ==> r.groups.Some? && exists g :: g in f.groups && g in r.groups.value)
  }

  lemma OptionalHolds(r: Record, f: Filters)
    ensures (forall c :: c in Optional(SUBMISSION_TIME, ">=", f.submissionStart) ==> CondHolds(c, r) == True)
            <==> AtLeast(r.submissionTime, f.submissionStart)
    ensures (forall c :: c in Optional(SUBMISSION_TIME, "<=", f.submissionEnd) ==> CondHolds(c, r) == True)
            <==> AtMost(r.submissionTime, f.submissionEnd)
    ensures (forall c :: c in Optional(FINISHED_TIME, ">=", f.finishedStart) ==> CondHolds(c, r) == True)
            <==> AtLeast(r.finishedTime, f.finishedStart)
    ensures (forall c :: c in Optional(FINISHED_TIME, "<=", f.finishedEnd) ==> CondHolds(c, r) == True)
            <==> AtMost(r.finishedTime, f.finishedEnd)
  {
    OneOptional(r, SUBMISSION_TIME, ">=", f.submissionStart);
    OneOptional(r, SUBMISSION_TIME, "<=", f.submissionEnd);
    OneOptional(r, FINISHED_TIME, ">=", f.finishedStart);
    OneOptional(r, FINISHED_TIME, "<=", f.finishedEnd);
  }

  lemma OneOptional(r: Record, lhs: string, op: string, v: Option<int>)
    ensures (forall c :: c in Optional(lhs, op, v) ==> CondHolds(c, r) == True)
            <==> (v.Some? ==> CompareColumn(r, lhs, op, IntArg(v.value)) == True)
  {
    hide CompareColumn;
    if v.Some? {
      assert Compare(lhs, op, IntArg(v.value)) in Optional(lhs, op, v);
      assert CondHolds(Compare(lhs, op, IntArg(v.value)), r) == CompareColumn(r, lhs, op, IntArg(v.value));
    }
  }

  lemma FilterCondsMean(f: Filters, r: Record)
    ensures (forall c :: c in FilterConds(f) ==> CondHolds(c, r) == True) <==> Matches(f, r)
  {
    hide Optional;
    hide CompareColumn;
    hide AtLeast;
    hide AtMost;
    OptionalHolds(r, f);
    UserMeans(r, f);
    GroupsMean(r, f);
    var s1, s2 := Optional(SUBMISSION_TIME, ">=", f.submissionStart), Optional(SUBMISSION_TIME, "<=", f.submissionEnd);
    var s3, s4 := Optional(FINISHED_TIME, ">=", f.finishedStart), Optional(FINISHED_TIME, "<=", f.finishedEnd);
    var s5 := if f.groups != [] then [GroupsOverlap(f.groups)] else [];
    var s6 := if f.user.Some? then [Compare(USER, "=", TextArg(f.user.value))] else [];
    assert FilterConds(f) == s1 + s2 + s3 + s4 + s5 + s6;
    assert f.groups != [] ==> GroupsOverlap(f.groups) in s5;
    assert f.user.Some? ==> Compare(USER, "=", TextArg(f.user.value)) in s6;
    forall c ensures c in FilterConds(f) <==> c in s1 || c in s2 || c in s3 || c in s4 || c in s5 || c in s6 {}
  }

  lemma UserMeans(r: Record, f: Filters)
    ensures f.user.Some? ==> (CompareColumn(r, USER, "=", TextArg(f.user.value)) == True <==> r.user == f.user)
  {
  }

  lemma GroupsMean(r: Record, f: Filters)
    ensures OverlapGroups(r, f.groups) == True <==> r.groups.Some? && exists g :: g in f.groups && g in r.groups.value
  {
  }

  lemma KeyMeans(r: Record, partition: string, queue: string)
    ensures CompareColumn(r, QUEUE_NAME, "=", TextArg(queue)) == True <==> r.queueName == Some(queue)
    ensures CompareColumn(r, PARTITION, "=", TextArg(partition)) == True <==> r.partition == Some(partition)
  {
  }

  lemma ColumnsAreWords()
    ensures Word(SUBMISSION_TIME) && Word(FINISHED_TIME) && Word(USER) && Word(QUEUE_NAME) && Word(PARTITION)
    ensures Word("=") && Word("<=") && Word(">=")
    ensures Word("applications") && Word("a") && Word("submission_time") && Word("a.submission_time") && Word("DESC")
    ensures "groups" !in [SUBMISSION_TIME, FINISHED_TIME, USER, QUEUE_NAME, PARTITION]
  {
  }

  lemma ColumnsArePlain(f: Filters)
    requires AllQuotes(f.groups) == 0
    ensures forall c :: c in FilterConds(f) ==> Plain(c)
  {
    hide Word;
    hide AllQuotes;
    ColumnsAreWords();
    assert SUBMISSION_TIME in [SUBMISSION_TIME, FINISHED_TIME, USER, QUEUE_NAME, PARTITION];
    assert FINISHED_TIME in [SUBMISSION_TIME, FINISHED_TIME, USER, QUEUE_NAME, PARTITION];
    assert USER in [SUBMISSION_TIME, FINISHED_TIME, USER, QUEUE_NAME, PARTITION];
  }

  function KeyConds(partition: string, queue: string): seq<Cond> {
    [Compare(QUEUE_NAME, "=", TextArg(queue)), Compare(PARTITION, "=", TextArg(partition))]
  }

  function QueueRequest(partition: string, queue: string, f: Filters): Request {
    Request("applications", "", KeyConds(partition, queue) + FilterConds(f), Some(("submission_time", "DESC")), f.limit, f.offset)
  }

  function AllRequest(f: Filters): Request {
    Request("applications", "a", FilterConds(f), Some(("a.submission_time", "DESC")), f.limit, f.offset)
  }

  lemma QueueQueryAsks(partition: string, queue: string, f: Filters)
    ensures Asked(QueueQuery(partition, queue, f), QueueRequest(partition, queue, f))
  {
    hide Filtered;
    hide Paged;
    hide FilterConds;
    hide FormatInt;
    var b := SelectAll(NewBuilder, "applications", "");
    assert Built(b, []);
    var c1, c2 := Compare(QUEUE_NAME, "=", TextArg(queue)), Compare(PARTITION, "=", TextArg(partition));
    ConditionpBuilds(b, [], QUEUE_NAME, "=", TextArg(queue));
    assert [] + [c1] == [c1];
    var b1 := Conditionp(b, QUEUE_NAME, "=", TextArg(queue));
    ConditionpBuilds(b1, [c1], PARTITION, "=", TextArg(partition));
    assert [c1] + [c2] == KeyConds(partition, queue);
    var b2 := OrderBy(Conditionp(b1, PARTITION, "=", TextArg(partition)), SUBMISSION_TIME, "DESC");
    var q := Request("applications", "", [c1] + [c2], Some(("submission_time", "DESC")), None, None);
    assert Built(b2, q.conds);
    FiltersAsk(b2, q, f);
  }

  /** The rendered query accepts exactly the rows of the queue and partition that match every present filter. */
  ghost predicate SelectsQueue(query: string, args: seq<Arg>, partition: string, queue: string, f: Filters) {
    forall r :: Accepts(query, args, r) <==> r.queueName == Some(queue) && r.partition == Some(partition) && Matches(f, r)
  }

  /** Apart from its conditions the query text says just this, and its k-th placeholder is $k with one argument for each. */
  ghost predicate Shape(query: string, args: seq<Arg>, table: string, orderBy: (string, string), f: Filters) {
    match ReadQuery(query)
    case None => false
    case Some(stmt) =>
      && stmt.table == table && stmt.orderBy == Some(orderBy) && stmt.limit == f.limit && stmt.offset == f.offset
      && |Indices(stmt.conditions)| == |args|
      && forall i :: 0 <= i < |args| ==> Indices(stmt.conditions)[i] == i + 1
  }

  /**
   Query meaning: for every combination of filters whose group names contain no quote, the query text sent
   with its arguments accepts a row exactly when its queue, its partition and every present filter match; the
   text asks for the latest submissions first and for the limit and offset given, the k-th placeholder is $k
   and there is one argument for each.
   */
  lemma QueueQueryMeans(partition: string, queue: string, f: Filters)
    requires AllQuotes(f.groups) == 0
    ensures var b := QueueQuery(partition, queue, f);
            && SelectsQueue(Query(b), b.args, partition, queue, f)
            && Shape(Query(b), b.args, "applications", ("submission_time", "DESC"), f)
  {
    hide QueueQuery;
    hide FilterConds;
    hide Asked;
    hide Plain;
    hide Accepts;
    hide Matches;
    hide ReadQuery;
    hide Query;
    var b, q := QueueQuery(partition, queue, f), QueueRequest(partition, queue, f);
    var keys, conds := KeyConds(partition, queue), FilterConds(f);
    QueueQueryAsks(partition, queue, f);
    ColumnsArePlain(f);
    KeysArePlain(partition, queue);
    ColumnsAreWords();
    forall c | c in keys + conds ensures Plain(c) {}
    QueryReadsBack(b, q);
    PlaceholdersMatchArguments(b, q);
    forall r
      ensures Accepts(Query(b), b.args, r) <==>
              r.queueName == Some(queue) && r.partition == Some(partition) && Matches(f, r)
    {
      AcceptsIsConjunction(b, q, r);
      FilterCondsMean(f, r);
      KeyCondsMean(partition, queue, r);
      assert forall c :: c in keys + conds <==> c in keys || c in conds;
    }
  }

  lemma KeysArePlain(partition: string, queue: string)
    ensures forall c :: c in KeyConds(partition, queue) ==> Plain(c)
  {
  }

  lemma KeyCondsMean(partition: string, queue: string, r: Record)
    ensures (forall c :: c in KeyConds(partition, queue) ==> CondHolds(c, r) == True)
            <==> r.queueName == Some(queue) && r.partition == Some(partition)
  {
    hide CompareColumn;
    KeyMeans(r, partition, queue);
    var c1, c2 := Compare(QUEUE_NAME, "=", TextArg(queue)), Compare(PARTITION, "=", TextArg(partition));
    assert c1 in KeyConds(partition, queue) && c2 in KeyConds(partition, queue);
  }

  lemma AllQueryAsks(f: Filters)
    ensures Asked(AllQuery(f), AllRequest(f))
  {
    hide Filtered;
    hide Paged;
    hide FilterConds;
    hide FormatInt;
    var b := OrderBy(SelectAll(NewBuilder, "applications", "a"), "a.submission_time", "DESC");
    var q := Request("applications", "a", [], Some(("a.submission_time", "DESC")), None, None);
    assert Built(b, []);
    FiltersAsk(b, q, f);
    assert [] + FilterConds(f) == FilterConds(f);
  }

  ghost predicate SelectsMatching(query: string, args: seq<Arg>, f: Filters) {
    forall r :: Accepts(query, args, r) <==> Matches(f, r)
  }

  /** The unrestricted query text accepts exactly the rows that match every present filter. */
  lemma AllQueryMeans(f: Filters)
    requires AllQuotes(f.groups) == 0
    ensures var b := AllQuery(f);
            && SelectsMatching(Query(b), b.args, f)
            && Shape(Query(b), b.args, "applications", ("a.submission_time", "DESC"), f)
  {
    hide AllQuery;
    hide FilterConds;
    hide Asked;
    hide Plain;
    hide Accepts;
    hide Matches;
    hide ReadQuery;
    hide Query;
    var b, q := AllQuery(f), AllRequest(f);
    AllQueryAsks(f);
    ColumnsArePlain(f);
    ColumnsAreWords();
    QueryReadsBack(b, q);
    PlaceholdersMatchArguments(b, q);
    forall r ensures Accepts(Query(b), b.args, r) <==> Matches(f, r) {
      AcceptsIsConjunction(b, q, r);
      FilterCondsMean(f, r);
    }
  }

  // ----- clause order -----

  /** A call on the builder. */
  datatype Call =
    | CallSelect(table: string, alias: string)
    | CallConditionp(lhs: string, op: string, val: Arg)
    | CallCondition(expression: string)
    | CallOrderBy(column: string, direction: string)
    | CallLimit(n: int)
    | CallOffset(n: int)

  function Do(b: Builder, c: Call): Builder {
    match c
    case CallSelect(table, alias) => SelectAll(b, table, alias)
    case CallConditionp(lhs, op, val) => Conditionp(b, lhs, op, val)
    case CallCondition(expression) => Condition(b, expression)
    case CallOrderBy(column, direction) => OrderBy(b, column, direction)
    case CallLimit(n) => Limit(b, n)
    case CallOffset(n) => Offset(b, n)
  }

  function DoAll(b: Builder, cs: seq<Call>): Builder
    decreases cs
  {
    if cs == [] then b else DoAll(Do(b, cs[0]), cs[1..])
  }

  datatype Clause = SelectClause | WhereClause | OrderClause | LimitClause | OffsetClause

  function ClauseOf(c: Call): Clause {
    match c
    case CallSelect(_, _) => SelectClause
    case CallConditionp(_, _, _) => WhereClause
    case CallCondition(_) => WhereClause
    case CallOrderBy(_, _) => OrderClause
    case CallLimit(_) => LimitClause
    case CallOffset(_) => OffsetClause
  }

  /** The calls that add to one clause, in order. */
  function Only(cs: seq<Call>, k: Clause): (r: seq<Call>)
    ensures forall c :: c in r ==> ClauseOf(c) == k
  {
    if cs == [] then []
    else if ClauseOf(cs[0]) == k then [cs[0]] + Only(cs[1..], k)
    else Only(cs[1..], k)
  }

  lemma {:induction false} DoAllAppend(b: Builder, cs: seq<Call>, ds: seq<Call>)
    ensures DoAll(b, cs + ds) == DoAll(DoAll(b, cs), ds)
    decreases cs
  {
    hide Do;
    if cs == [] {
      assert cs + ds == ds;
    } else {
      assert (cs + ds)[0] == cs[0] && (cs + ds)[1..] == cs[1..] + ds;
      DoAllAppend(Do(b, cs[0]), cs[1..], ds);
    }
  }

  lemma CallsCommute(b: Builder, c: Call, d: Call)
    requires ClauseOf(c) != ClauseOf(d)
    ensures Do(Do(b, c), d) == Do(Do(b, d), c)
  {
    hide FormatInt;
  }

  /** A call may be moved behind calls for other clauses. */
  lemma {:induction false} MoveBehind(b: Builder, c: Call, ds: seq<Call>)
    requires forall d :: d in ds ==> ClauseOf(d) != ClauseOf(c)
    ensures DoAll(Do(b, c), ds) == Do(DoAll(b, ds), c)
    decreases ds
  {
    hide Do;
    if ds != [] {
      assert ds[0] in ds;
      CallsCommute(b, c, ds[0]);
      MoveBehind(Do(b, ds[0]), c, ds[1..]);
    }
  }

  lemma DoFirst(b: Builder, c: Call, cs: seq<Call>)
    ensures DoAll(b, [c] + cs) == DoAll(Do(b, c), cs)
  {
    assert ([c] + cs)[1..] == cs;
  }

  function Sorted(b: Builder, cs: seq<Call>): Builder {
    var b1 := DoAll(b, Only(cs, SelectClause));
    var b2 := DoAll(b1, Only(cs, WhereClause));
    var b3 := DoAll(b2, Only(cs, OrderClause));
    var b4 := DoAll(b3, Only(cs, LimitClause));
    DoAll(b4, Only(cs, OffsetClause))
  }

  /** Any sequence of calls leaves what the same calls leave when grouped clause by clause. */
  lemma {:induction false} CallsGroupByClause(b: Builder, cs: seq<Call>)
    ensures DoAll(b, cs) == Sorted(b, cs)
    decreases cs
  {
    hide Do;
    if cs != [] {
      var c, rest := cs[0], cs[1..];
      CallsGroupByClause(Do(b, c), rest);
      var ss, ws, os := Only(rest, SelectClause), Only(rest, WhereClause), Only(rest, OrderClause);
      var ls, fs := Only(rest, LimitClause), Only(rest, OffsetClause);
      var b1 := DoAll(b, ss);
      var b2 := DoAll(b1, ws);
      var b3 := DoAll(b2, os);
      if ClauseOf(c) == SelectClause {
        DoFirst(b, c, ss);
      } else {
        MoveBehind(b, c, ss);
        if ClauseOf(c) == WhereClause {
          DoFirst(b1, c, ws);
        } else {
          MoveBehind(b1, c, ws);
          if ClauseOf(c) == OrderClause {
            DoFirst(b2, c, os);
          } else {
            MoveBehind(b2, c, os);
            if ClauseOf(c) == LimitClause {
              DoFirst(b3, c, ls);
            } else {
              MoveBehind(b3, c, ls);
              DoFirst(DoAll(b3, ls), c, fs);
            }
          }
        }
      }
    }
  }

  /** The query text and arguments are the same in whatever order calls for different clauses are made. */
  lemma ClauseOrderIsFixed(b: Builder, cs: seq<Call>, ds: seq<Call>)
    requires forall k :: Only(cs, k) == Only(ds, k)
    ensures Query(DoAll(b, cs)) == Query(DoAll(b, ds)) && DoAll(b, cs).args == DoAll(b, ds).args
  {
    hide DoAll;
    hide Only;
    CallsGroupByClause(b, cs);
    CallsGroupByClause(b, ds);
    assert Only(cs, SelectClause) == Only(ds, SelectClause);
    assert Only(cs, WhereClause) == Only(ds, WhereClause) && Only(cs, OrderClause) == Only(ds, OrderClause);
    assert Only(cs, LimitClause) == Only(ds, LimitClause) && Only(cs, OffsetClause) == Only(ds, OffsetClause);
  }

  // ----- what any sequence of calls asks for -----

  datatype Ask =
    | AskTable(table: string, alias: string)
    | AskCondition(cond: Cond)
    | AskOrder(column: string, direction: string)
    | AskLimit(n: int)
    | AskOffset(n: int)

  /** The call that asks for it. */
  function CallFor(a: Ask): Call {
    match a
    case AskTable(table, alias) => CallSelect(table, alias)
    case AskCondition(Compare(lhs, op, arg)) => CallConditionp(lhs, op, arg)
    case AskCondition(GroupsOverlap(groups)) => CallCondition(OVERLAP + QuotedList(groups) + "]")
    case AskOrder(column, direction) => CallOrderBy(column, direction)
    case AskLimit(n) => CallLimit(n)
    case AskOffset(n) => CallOffset(n)
  }

  function CallsFor(asks: seq<Ask>): seq<Call> {
    if asks == [] then [] else [CallFor(asks[0])] + CallsFor(asks[1..])
  }

  /** Conditions add up; a later table, ordering, limit or offset replaces an earlier one. */
  function Adds(q: Request, a: Ask): Request {
    match a
    case AskTable(table, alias) => q.(table := table, alias := alias)
    case AskCondition(cond) => q.(conds := q.conds + [cond])
    case AskOrder(column, direction) => q.(orderBy := Some((column, direction)))
    case AskLimit(n) => q.(limit := Some(n))
    case AskOffset(n) => q.(offset := Some(n))
  }

  function AddsAll(q: Request, asks: seq<Ask>): Request
    decreases asks
  {
    if asks == [] then q else AddsAll(Adds(q, asks[0]), asks[1..])
  }

  lemma CallIsAsked(b: Builder, q: Request, a: Ask)
    requires Asked(b, q)
    ensures Asked(Do(b, CallFor(a)), Adds(q, a))
  {
    hide FormatInt;
    hide QuotedList;
    hide Built;
    match a {
      case AskCondition(Compare(lhs, op, arg)) =>
        ConditionpBuilds(b, q.conds, lhs, op, arg);
        ConditionpKeeps(b, lhs, op, arg);
      case AskCondition(GroupsOverlap(groups)) =>
        OverlapBuilds(b, q.conds, groups);
        ConditionKeeps(b, OVERLAP + QuotedList(groups) + "]");
      case _ =>
        OtherClausesKeepConditions(b, q.conds, CallFor(a));
    }
  }

  lemma OtherClausesKeepConditions(b: Builder, conds: seq<Cond>, c: Call)
    requires Built(b, conds) && ClauseOf(c) != WhereClause
    ensures Built(Do(b, c), conds)
  {
    hide FormatInt;
  }

  lemma {:induction false} CallsAreAsked(b: Builder, q: Request, asks: seq<Ask>)
    requires Asked(b, q)
    ensures Asked(DoAll(b, CallsFor(asks)), AddsAll(q, asks))
    decreases asks
  {
    hide Asked;
    hide Do;
    if asks != [] {
      CallIsAsked(b, q, asks[0]);
      CallsAreAsked(Do(b, CallFor(asks[0])), Adds(q, asks[0]), asks[1..]);
      DoFirst(b, CallFor(asks[0]), CallsFor(asks[1..]));
    }
  }

  /**
   Whatever calls are made after SelectAll and in whatever order, the text of the query says the conditions in the order
   of their calls, and the last table, ordering, limit and offset asked for.
   */
  lemma CallsSayWhatTheyAsk(table: string, alias: string, asks: seq<Ask>)
    requires PlainRequest(AddsAll(Request(table, alias, [], None, None, None), asks))
    ensures ReadQuery(Query(DoAll(SelectAll(NewBuilder, table, alias), CallsFor(asks)))) ==
            Some(StatementOf(AddsAll(Request(table, alias, [], None, None, None), asks)))
  {
    hide ReadQuery;
    hide Query;
    hide DoAll;
    hide PlainRequest;
    var b, q := SelectAll(NewBuilder, table, alias), Request(table, alias, [], None, None, None);
    assert Asked(b, q);
    CallsAreAsked(b, q, asks);
    QueryReadsBack(DoAll(b, CallsFor(asks)), AddsAll(q, asks));
  }

  // ----- the builder object -----

  class QueryBuilder {
    var selectStatement: string
    var whereClauses: string
    var hasWhere: bool
    var conditionCounter: nat
    var args: seq<Arg>
    var orderByClauses: string
    var limit: string
    var offset: string

    function Value(): Builder
      reads this
    {
      Builder(selectStatement, whereClauses, hasWhere, conditionCounter, args, orderByClauses, limit, offset)
    }

    constructor ()
      ensures Value() == NewBuilder
    {
      selectStatement, whereClauses, hasWhere, conditionCounter, args := "", "", false, 0, [];
      orderByClauses, limit, offset := "", "", "";
    }

    method SelectAll(table: string, alias: string)
      modifies this
      ensures Value() == SqlBuilder.SelectAll(old(Value()), table, alias)
    {
      selectStatement := "SELECT * FROM " + table;
      if alias != "" {
        selectStatement := selectStatement + (" AS " + alias);
      } else {
        assert selectStatement == selectStatement + "";
      }
    }

    method Condition(expression: string)
      modifies this
      ensures Value() == SqlBuilder.Condition(old(Value()), expression)
    {
      if !hasWhere {
        whereClauses := whereClauses + "WHERE " + expression;
        hasWhere := true;
        return;
      }
      whereClauses := whereClauses + " AND " + expression;
    }

    method Conditionp(lhs: string, op: string, val: Arg)
      modifies this
      ensures Value() == SqlBuilder.Conditionp(old(Value()), lhs, op, val)
    {
      conditionCounter := conditionCounter + 1;
      var expression := lhs + " " + op + " $" + FormatInt(conditionCounter);
      args := args + [val];
      Condition(expression);
    }

    method Limit(n: int)
      modifies this
      ensures Value() == SqlBuilder.Limit(old(Value()), n)
    {
      limit := "LIMIT " + FormatInt(n);
    }

    method Offset(n: int)
      modifies this
      ensures Value() == SqlBuilder.Offset(old(Value()), n)
    {
      offset := "OFFSET " + FormatInt(n);
    }

    method OrderBy(column: string, direction: string)
      modifies this
      ensures Value() == SqlBuilder.OrderBy(old(Value()), column, direction)
    {
      orderByClauses := "ORDER BY " + column + " " + direction;
    }

    method Query() returns (query: string)
      ensures query == SqlBuilder.Query(Value())
    {
      query := selectStatement;
      query := query + SqlBuilder.Clause(whereClauses);
      query := query + SqlBuilder.Clause(orderByClauses);
      query := query + SqlBuilder.Clause(limit);
      query := query + SqlBuilder.Clause(offset);
    }

    method ConditionWhen(lhs: string, op: string, v: Option<int>)
      modifies this
      ensures Value() == When(old(Value()), lhs, op, v)
    {
      if v.Some? {
        Conditionp(lhs, op, IntArg(v.value));
      }
    }

    /** applyApplicationFilters. */
    method ApplyApplicationFilters(f: Filters)
      modifies this
      ensures Value() == Paged(Filtered(old(Value()), f), f)
    {
      hide When;
      hide SqlBuilder.Condition;
      hide SqlBuilder.Conditionp;
      hide SqlBuilder.Limit;
      hide SqlBuilder.Offset;
      ConditionWhen(SUBMISSION_TIME, ">=", f.submissionStart);
      ConditionWhen(SUBMISSION_TIME, "<=", f.submissionEnd);
      ConditionWhen(FINISHED_TIME, ">=", f.finishedStart);
      ConditionWhen(FINISHED_TIME, "<=", f.finishedEnd);
      if |f.groups| > 0 {
        Condition(OVERLAP + QuotedList(f.groups) + "]");
      }
      if f.user.Some? {
        Conditionp(USER, "=", TextArg(f.user.value));
      }
      if f.limit.Some? {
        Limit(f.limit.value);
      }
      if f.offset.Some? {
        Offset(f.offset.value);
      }
    }
  }

  /** The query of GetAppsPerPartitionPerQueue. */
  method QueryQueue(partition: string, queue: string, f: Filters) returns (query: string, args: seq<Arg>)
    ensures AllQuotes(f.groups) == 0 ==>
              && SelectsQueue(query, args, partition, queue, f)
              && Shape(query, args, "applications", ("submission_time", "DESC"), f)
  {
    hide SelectsQueue;
    hide Shape;
    hide Filtered;
    hide Paged;
    hide SqlBuilder.SelectAll;
    hide SqlBuilder.Conditionp;
    hide SqlBuilder.OrderBy;
    hide SqlBuilder.Query;
    var b := new QueryBuilder();
    b.SelectAll("applications", "");
    b.Conditionp("queue_name", "=", TextArg(queue));
    b.Conditionp("partition", "=", TextArg(partition));
    b.OrderBy("submission_time", "DESC");
    b.ApplyApplicationFilters(f);
    query := b.Query();
    args := b.args;
    if AllQuotes(f.groups) == 0 {
      QueueQueryMeans(partition, queue, f);
    }
  }

  /** The query of GetAllApplications. */
  method QueryAll(f: Filters) returns (query: string, args: seq<Arg>)
    ensures AllQuotes(f.groups) == 0 ==>
              && SelectsMatching(query, args, f)
              && Shape(query, args, "applications", ("a.submission_time", "DESC"), f)
  {
    hide SelectsMatching;
    hide Shape;
    hide Filtered;
    hide Paged;
    hide SqlBuilder.SelectAll;
    hide SqlBuilder.OrderBy;
    hide SqlBuilder.Query;
    var b := new QueryBuilder();
    b.SelectAll("applications", "a");
    b.OrderBy("a.submission_time", "DESC");
    b.ApplyApplicationFilters(f);
    query := b.Query();
    args := b.args;
    if AllQuotes(f.groups) == 0 {
      AllQueryMeans(f);
    }
  }
}
