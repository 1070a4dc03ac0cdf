/**
 The whole text of a query (internal/database/sql/builder.go): a reader for it, and the proof that the
 text the builder writes says what the builder was asked for.
 */
module QueryText {
  import opened Options
  import opened SqlBuilder

  // ----- what a query text says -----

  datatype Statement = Statement(
    table: string, alias: string, conditions: seq<Read>, orderBy: Option<(string, string)>, limit: Option<int>,
    offset: Option<int>)

  /** A word and the text from the space after it on. */
  function ReadWord(s: string): (string, string) {
    var i := IndexOf(s, ' ');
    (s[..i], s[i..])
  }

  function ReadInt(s: string): Option<(int, string)> {
    if |s| > 1 && s[0] == '-' && IsDigit(s[1]) then
      var (n: int, rest) := ReadDigits(s[1..], 0);
      Some((0 - n, rest))
    else if s != "" && IsDigit(s[0]) then
      var (n, rest) := ReadDigits(s, 0);
      Some((n, rest))
    else None
  }

  function ReadAlias(s: string): (string, string) {
    if " AS " <= s then ReadWord(s[4..]) else ("", s)
  }

  function ReadConditions(s: string): Option<(seq<Read>, string)> {
    if " WHERE " <= s then ReadConds(s[7..]) else Some(([], s))
  }

  function ReadOrderBy(s: string): Option<(Option<(string, string)>, string)> {
    if " ORDER BY " <= s then
      var (column, after) := ReadWord(s[10..]);
      if after == "" then None
      else
        var (direction, rest) := ReadWord(after[1..]);
        Some((Some((column, direction)), rest))
    else Some((None, s))
  }

  function ReadNumber(keyword: string, s: string): Option<(Option<int>, string)> {
    if keyword <= s then
      match ReadInt(s[|keyword|..])
      case Some((n, rest)) => Some((Some(n), rest))
      case None => None
    else Some((None, s))
  }

  /** SELECT * FROM table, then AS, WHERE, ORDER BY, LIMIT and OFFSET, each of them optional, and nothing after them. */
  function ReadQuery(s: string): Option<Statement> {
    if !("SELECT * FROM " <= s) then None else
    var (table, s1) := ReadWord(s[14..]);
    var (alias, s2) := ReadAlias(s1);
    match ReadConditions(s2)
    case None => None
    case Some((conditions, s3)) =>
      match ReadOrderBy(s3)
      case None => None
      case Some((orderBy, s4)) =>
        match ReadNumber(" LIMIT ", s4)
        case None => None
        case Some((limit, s5)) =>
          match ReadNumber(" OFFSET ", s5)
          case Some((offset, rest)) =>
            if rest == "" then Some(Statement(table, alias, conditions, orderBy, limit, offset)) else None
          case None => None
  }

  // ----- what a builder was asked for -----

  datatype Request = Request(
    table: string, alias: string, conds: seq<Cond>, orderBy: Option<(string, string)>, limit: Option<int>,
    offset: Option<int>)

  function AliasText(alias: string): string {
    if alias != "" then " AS " + alias else ""
  }

  function WhereText(conds: seq<Cond>): string {
    if conds == [] then "" else " WHERE " + Joined(conds, 0)
  }

  function OrderText(order: Option<(string, string)>): string {
    if order.Some? then " ORDER BY " + order.value.0 + " " + order.value.1 else ""
  }

  function Numbered(keyword: string, n: Option<int>): string {
    if n.Some? then keyword + FormatInt(n.value) else ""
  }

  /** The builder's fields after calls for the request. */
  ghost predicate Asked(b: Builder, q: Request) {
    && Built(b, q.conds)
    && b.selectStatement == "SELECT * FROM " + q.table + AliasText(q.alias)
    && b.orderByClauses == (if q.orderBy.Some? then "ORDER BY " + q.orderBy.value.0 + " " + q.orderBy.value.1 else "")
    && b.limit == Numbered("LIMIT ", q.limit) && b.offset == Numbered("OFFSET ", q.offset)
  }

  /** Names are single words, and group names contain no quote. */
  ghost predicate PlainRequest(q: Request) {
    && Word(q.table) && (q.alias == "" || Word(q.alias))
    && (q.orderBy.Some? ==> Word(q.orderBy.value.0) && Word(q.orderBy.value.1))
    && forall c :: c in q.conds ==> Plain(c)
  }

  function StatementOf(q: Request): Statement {
    Statement(q.table, q.alias, ReadsOf(q.conds, 0), q.orderBy, q.limit, q.offset)
  }

  // ----- reading it back, from the end of the text to its start -----

  /** Text that is over or goes on with a clause whose keyword has one of the letters in second place. */
  predicate GoesOn(s: string, letters: string) {
    s == "" || (|s| > 2 && s[0] == ' ' && s[2] in letters)
  }

  /** Optional text with its own keyword in front of such text. */
  lemma GoesOnBefore(part: string, rest: string, own: char, letters: string, all: string)
    requires part == "" || (|part| > 2 && part[0] == ' ' && part[2] == own)
    requires GoesOn(rest, letters) && own in all && forall c :: c in letters ==> c in all
    ensures GoesOn(part + rest, all)
  {
    assert part == "" ==> part + rest == rest;
  }

  lemma AfterKeyword(keyword: string, rest: string)
    ensures keyword <= keyword + rest && (keyword + rest)[|keyword|..] == rest
  {
  }

  /** So another keyword does not start it. */
  lemma OtherKeyword(s: string, letters: string, keyword: string)
    requires GoesOn(s, letters) && |keyword| > 2 && keyword[2] !in letters
    ensures !(keyword <= s)
  {
  }

  lemma WordReadsBack(w: string, rest: string)
    requires Word(w) && (rest == "" || rest[0] == ' ')
    ensures ReadWord(w + rest) == (w, rest)
  {
    var i := IndexOf(w + rest, ' ');
    assert forall k :: 0 <= k < |w| ==> (w + rest)[k] == w[k] && w[k] in w;
    if rest != "" {
      assert (w + rest)[|w|] == ' ';
    }
    assert i == |w|;
  }

  lemma IntReadsBack(n: int, rest: string)
    requires rest == "" || !IsDigit(rest[0])
    ensures ReadInt(FormatInt(n) + rest) == Some((n, rest))
  {
    hide ReadDigits;
    hide Decimal;
    var k := if n < 0 then -n else n;
    DecimalReadsBack(k, rest);
    StopsAt(rest, k);
    if n < 0 {
      assert (FormatInt(n) + rest)[1..] == Decimal(k) + rest;
    }
  }

  lemma NumberClauseReadsBack(keyword: string, n: Option<int>, rest: string, letters: string)
    requires |keyword| > 2 && keyword[2] !in letters && GoesOn(rest, letters)
    ensures ReadNumber(keyword, Numbered(keyword, n) + rest) == Some((n, rest))
  {
    hide ReadInt;
    if n.Some? {
      var digits := FormatInt(n.value);
      assert (keyword + digits + rest)[|keyword|..] == digits + rest;
      IntReadsBack(n.value, rest);
    } else {
      assert Numbered(keyword, n) + rest == rest;
      OtherKeyword(rest, letters, keyword);
    }
  }

  lemma OrderReadsBack(order: Option<(string, string)>, rest: string, letters: string)
    requires GoesOn(rest, letters) && 'R' !in letters
    requires order.Some? ==> Word(order.value.0) && Word(order.value.1)
    ensures ReadOrderBy(OrderText(order) + rest) == Some((order, rest))
  {
    hide ReadWord;
    if order.Some? {
      var (column, direction) := order.value;
      var after := " " + (direction + rest);
      assert OrderText(order) + rest == " ORDER BY " + (column + after);
      assert (" ORDER BY " + (column + after))[10..] == column + after;
      WordReadsBack(column, after);
      assert after[1..] == direction + rest;
      WordReadsBack(direction, rest);
    } else {
      assert OrderText(order) + rest == rest;
      OtherKeyword(rest, letters, " ORDER BY ");
    }
  }

  lemma ConditionsReadBack(conds: seq<Cond>, rest: string, letters: string)
    requires GoesOn(rest, letters) && 'H' !in letters && 'N' !in letters
    requires forall c :: c in conds ==> Plain(c)
    ensures ReadConditions(WhereText(conds) + rest) == Some((ReadsOf(conds, 0), rest))
  {
    hide ReadConds;
    hide Joined;
    hide ReadsOf;
    hide Plain;
    if conds == [] {
      NothingToRead();
      assert WhereText(conds) + rest == rest;
      OtherKeyword(rest, letters, " WHERE ");
    } else {
      var text := Joined(conds, 0);
      OtherKeyword(rest, letters, " AND ");
      JoinedReadsBack(conds, 0, rest);
      assert WhereText(conds) + rest == " WHERE " + (text + rest);
      AfterKeyword(" WHERE ", text + rest);
    }
  }

  lemma NothingToRead()
    ensures ReadsOf([], 0) == []
  {
  }

  lemma AliasReadsBack(alias: string, rest: string, letters: string)
    requires GoesOn(rest, letters) && 'S' !in letters && (alias == "" || Word(alias))
    ensures ReadAlias(AliasText(alias) + rest) == (alias, rest)
  {
    hide ReadWord;
    if alias == "" {
      assert AliasText(alias) + rest == rest;
      OtherKeyword(rest, letters, " AS ");
    } else {
      assert (AliasText(alias) + rest)[4..] == alias + rest;
      WordReadsBack(alias, rest);
    }
  }

  /** The text the builder writes, nested from the end. */
  lemma QuerySplits(b: Builder, q: Request)
    requires Asked(b, q)
    ensures Query(b) ==
            "SELECT * FROM " + (q.table + (AliasText(q.alias) + (WhereText(q.conds) + (OrderText(q.orderBy)
            + (Numbered(" LIMIT ", q.limit) + (Numbered(" OFFSET ", q.offset) + ""))))))
  {
    hide Built;
    hide Clause;
    hide AliasText;
    hide WhereText;
    hide OrderText;
    hide Numbered;
    WhereClauseText(b, q.conds);
    OrderClauseText(q.orderBy);
    NumberClauseText("LIMIT ", " LIMIT ", q.limit);
    NumberClauseText("OFFSET ", " OFFSET ", q.offset);
    Nested("SELECT * FROM ", q.table, AliasText(q.alias), WhereText(q.conds), OrderText(q.orderBy),
           Numbered(" LIMIT ", q.limit), Numbered(" OFFSET ", q.offset));
  }

  lemma Nested(a: string, b: string, c: string, d: string, e: string, f: string, g: string)
    ensures a + b + c + d + e + f + g == a + (b + (c + (d + (e + (f + (g + ""))))))
  {
    assert a + b + c == a + (b + c);
    assert a + b + c + d == a + (b + (c + d));
    assert a + b + c + d + e == a + (b + (c + (d + e)));
    assert a + b + c + d + e + f == a + (b + (c + (d + (e + f))));
  }

  lemma WhereClauseText(b: Builder, conds: seq<Cond>)
    requires Built(b, conds)
    ensures Clause(b.whereClauses) == WhereText(conds)
  {
    hide Joined;
    if conds != [] {
      ClausesAreJoined(conds);
      assert " " + ("WHERE " + Joined(conds, 0)) == " WHERE " + Joined(conds, 0);
    }
  }

  lemma OrderClauseText(order: Option<(string, string)>)
    ensures Clause(if order.Some? then "ORDER BY " + order.value.0 + " " + order.value.1 else "") == OrderText(order)
  {
    if order.Some? {
      var (column, direction) := order.value;
      assert " " + ("ORDER BY " + column + " " + direction) == " ORDER BY " + column + " " + direction;
    }
  }

  lemma NumberClauseText(keyword: string, spaced: string, n: Option<int>)
    requires keyword != "" && spaced == " " + keyword
    ensures Clause(Numbered(keyword, n)) == Numbered(spaced, n)
  {
    hide FormatInt;
    if n.Some? {
      assert " " + (keyword + FormatInt(n.value)) == " " + keyword + FormatInt(n.value);
    }
  }

  /** The text from the offset, the limit, the ordering, the conditions and the alias on. */
  function From(q: Request, part: nat): string {
    if part == 0 then ""
    else if part == 1 then Numbered(" OFFSET ", q.offset) + From(q, 0)
    else if part == 2 then Numbered(" LIMIT ", q.limit) + From(q, 1)
    else if part == 3 then OrderText(q.orderBy) + From(q, 2)
    else if part == 4 then WhereText(q.conds) + From(q, 3)
    else AliasText(q.alias) + From(q, 4)
  }

  lemma TailsGoOn(q: Request)
    ensures GoesOn(From(q, 1), "F") && GoesOn(From(q, 2), "IF") && GoesOn(From(q, 3), "RIF")
    ensures GoesOn(From(q, 4), "HRIF") && GoesOn(From(q, 5), "SHRIF")
  {
    hide FormatInt;
    hide Joined;
    hide GoesOn;
    GoesOnAtEnd();
    GoesOnBefore(Numbered(" OFFSET ", q.offset), From(q, 0), 'F', "", "F");
    GoesOnBefore(Numbered(" LIMIT ", q.limit), From(q, 1), 'I', "F", "IF");
    GoesOnBefore(OrderText(q.orderBy), From(q, 2), 'R', "IF", "RIF");
    GoesOnBefore(WhereText(q.conds), From(q, 3), 'H', "RIF", "HRIF");
    GoesOnBefore(AliasText(q.alias), From(q, 4), 'S', "HRIF", "SHRIF");
  }

  lemma GoesOnAtEnd()
    ensures GoesOn("", "")
  {
  }

  /**
   The text of the query, read as a whole, says what the builder was asked for: table, alias, conditions with
   placeholders numbered in order, ordering, limit and offset, and nothing else.
   */
  lemma QueryReadsBack(b: Builder, q: Request)
    requires Asked(b, q) && PlainRequest(q)
    ensures ReadQuery(Query(b)) == Some(StatementOf(q))
  {
    hide Query;
    hide Asked;
    hide ReadWord;
    hide ReadAlias;
    hide ReadConditions;
    hide ReadOrderBy;
    hide ReadNumber;
    hide ReadsOf;
    hide Plain;
    hide Word;
    hide GoesOn;
    hide AliasText;
    hide WhereText;
    hide OrderText;
    hide Numbered;
    QuerySplits(b, q);
    TailsGoOn(q);
    GoesOnAtEnd();
    NumberClauseReadsBack(" OFFSET ", q.offset, From(q, 0), "");
    NumberClauseReadsBack(" LIMIT ", q.limit, From(q, 1), "F");
    OrderReadsBack(q.orderBy, From(q, 2), "IF");
    ConditionsReadBack(q.conds, From(q, 3), "RIF");
    AliasReadsBack(q.alias, From(q, 4), "HRIF");
    SpaceFirst(From(q, 5), "SHRIF");
    WordReadsBack(q.table, From(q, 5));
    AfterKeyword("SELECT * FROM ", q.table + From(q, 5));
  }

  lemma SpaceFirst(s: string, letters: string)
    requires GoesOn(s, letters)
    ensures s == "" || s[0] == ' '
  {
  }

  /** The k-th placeholder in the text is $k, and there are as many arguments as placeholders. */
  lemma PlaceholdersMatchArguments(b: Builder, q: Request)
    requires Asked(b, q) && PlainRequest(q)
    ensures ReadQuery(Query(b)).Some?
    ensures var indices := Indices(ReadQuery(Query(b)).value.conditions);
            |indices| == |b.args| && forall i :: 0 <= i < |indices| ==> indices[i] == i + 1
  {
    hide ReadQuery;
    hide Query;
    QueryReadsBack(b, q);
    PlaceholdersCountUp(q.conds, 0);
    ArgsAreCompares(q.conds);
  }
}
