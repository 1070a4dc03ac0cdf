/**
 The query builder (internal/database/sql/builder.go) on character strings, and a reader for the
 WHERE clauses it writes, which gives their text a meaning.
 */
module SqlBuilder {
  import opened Options

  datatype Arg = IntArg(n: int) | TextArg(s: string)

  // ----- numbers -----

  function Digit(d: nat): char
    requires d < 10
  {
    ['0', '1', '2', '3', '4', '5', '6', '7', '8', '9'][d]
  }

  predicate IsDigit(c: char) {
    '0' <= c <= '9'
  }

  function DigitValue(c: char): (d: nat)
    requires IsDigit(c)
    ensures d < 10
  {
    (c as int) - ('0' as int)
  }

  lemma DigitReadsBack(d: nat)
    requires d < 10
    ensures IsDigit(Digit(d)) && DigitValue(Digit(d)) == d
  {
  }

  /** %d of a natural number. */
  function Decimal(n: nat): (s: string)
    ensures |s| > 0 && IsDigit(s[0])
  {
    if n < 10 then [Digit(n)] else Decimal(n / 10) + [Digit(n % 10)]
  }

  function FormatInt(n: int): string {
    if n < 0 then "-" + Decimal(-n) else Decimal(n)
  }

  /** Read digits as far as they go. */
  function ReadDigits(s: string, acc: nat): (nat, string) {
    if s != "" && IsDigit(s[0]) then ReadDigits(s[1..], acc * 10 + DigitValue(s[0])) else (acc, s)
  }

  lemma {:induction false} DecimalReadsBack(n: nat, rest: string)
    ensures ReadDigits(Decimal(n) + rest, 0) == ReadDigits(rest, n)
    decreases n
  {
    hide ReadDigits;
    ReadOneDigit(n % 10, rest, n / 10);
    if n >= 10 {
      DecimalReadsBack(n / 10, [Digit(n % 10)] + rest);
      assert Decimal(n) + rest == Decimal(n / 10) + ([Digit(n % 10)] + rest);
    }
  }

  lemma ReadOneDigit(d: nat, rest: string, acc: nat)
    requires d < 10
    ensures ReadDigits([Digit(d)] + rest, acc) == ReadDigits(rest, acc * 10 + d)
  {
    DigitReadsBack(d);
    assert ([Digit(d)] + rest)[1..] == rest;
  }

  // ----- the builder as a value -----

  datatype Builder = Builder(
    selectStatement: string, whereClauses: string, hasWhere: bool, conditionCounter: nat, args: seq<Arg>,
    orderByClauses: string, limit: string, offset: string)

  const NewBuilder: Builder := Builder("", "", false, 0, [], "", "", "")

  function SelectAll(b: Builder, table: string, alias: string): Builder {
    b.(selectStatement := "SELECT * FROM " + table + (if alias != "" then " AS " + alias else ""))
  }

  function Condition(b: Builder, expression: string): Builder {
    if !b.hasWhere then b.(whereClauses := b.whereClauses + "WHERE " + expression, hasWhere := true)
    else b.(whereClauses := b.whereClauses + " AND " + expression)
  }

  function Conditionp(b: Builder, lhs: string, op: string, val: Arg): Builder {
    var b' := b.(conditionCounter := b.conditionCounter + 1, args := b.args + [val]);
    Condition(b', lhs + " " + op + " $" + FormatInt(b'.conditionCounter))
  }

  function Limit(b: Builder, n: int): Builder {
    b.(limit := "LIMIT " + FormatInt(n))
  }

  function Offset(b: Builder, n: int): Builder {
    b.(offset := "OFFSET " + FormatInt(n))
  }

  function OrderBy(b: Builder, column: string, direction: string): Builder {
    b.(orderByClauses := "ORDER BY " + column + " " + direction)
  }

  function Clause(s: string): string {
    if s != "" then " " + s else ""
  }

  /** The query text: clauses in fixed order, empty ones left out. */
  function Query(b: Builder): string {
    b.selectStatement + Clause(b.whereClauses) + Clause(b.orderByClauses) + Clause(b.limit) + Clause(b.offset)
  }

  // ----- quoted lists -----

  function Quote(s: string): string {
    "'" + s + "'"
  }

  /** SliceToCommaSeparated(list, true). */
  function QuotedList(list: seq<string>): string {
    if list == [] then ""
    else if |list| == 1 then Quote(list[0])
    else Quote(list[0]) + "," + QuotedList(list[1..])
  }

  /** The rest of a string literal after its opening quote; a doubled quote stands for one quote. */
  function ReadLiteral(s: string): (r: Option<(string, string)>)
    ensures r.Some? ==> |r.value.1| < |s|
  {
    if s == "" then None
    else if s[0] != '\'' then
      match ReadLiteral(s[1..])
      case Some((text, rest)) => Some(([s[0]] + text, rest))
      case None => None
    else if |s| > 1 && s[1] == '\'' then
      match ReadLiteral(s[2..])
      case Some((text, rest)) => Some(("'" + text, rest))
      case None => None
    else Some(("", s[1..]))
  }

  /** 'a','b',...] */
  function ReadList(s: string): (r: Option<(seq<string>, string)>)
    ensures r.Some? ==> |r.value.1| < |s|
    decreases |s|
  {
    if s == "" || s[0] != '\'' then None
    else
      match ReadLiteral(s[1..])
      case None => None
      case Some((text, rest)) =>
        if rest != "" && rest[0] == ']' then Some(([text], rest[1..]))
        else if rest != "" && rest[0] == ',' then
          match ReadList(rest[1..])
          case Some((more, tail)) => Some(([text] + more, tail))
          case None => None
        else None
  }

  function Quotes(s: string): nat {
    if s == "" then 0 else (if s[0] == '\'' then 1 else 0) + Quotes(s[1..])
  }

  function AllQuotes(list: seq<string>): nat {
    if list == [] then 0 else Quotes(list[0]) + AllQuotes(list[1..])
  }

  lemma {:induction false} QuotesAppend(a: string, b: string)
    ensures Quotes(a + b) == Quotes(a) + Quotes(b)
  {
    if a == "" {
      assert a + b == b;
    } else {
      assert (a + b)[0] == a[0] && (a + b)[1..] == a[1..] + b;
      QuotesAppend(a[1..], b);
    }
  }

  lemma {:induction false} PlainLiteralReadsBack(s: string, rest: string)
    requires Quotes(s) == 0 && (rest == "" || rest[0] != '\'')
    ensures ReadLiteral(s + "'" + rest) == Some((s, rest))
  {
    if s == "" {
      assert s + "'" + rest == "'" + rest;
      assert ("'" + rest)[1..] == rest;
    } else {
      assert (s + "'" + rest)[1..] == s[1..] + "'" + rest;
      PlainLiteralReadsBack(s[1..], rest);
      assert s == [s[0]] + s[1..];
    }
  }

  lemma {:induction false} PlainListReadsBack(list: seq<string>, rest: string)
    requires list != [] && AllQuotes(list) == 0
    ensures ReadList(QuotedList(list) + "]" + rest) == Some((list, rest))
    decreases list
  {
    hide ReadLiteral;
    var text := QuotedList(list) + "]" + rest;
    if |list| == 1 {
      assert text == Quote(list[0]) + ("]" + rest);
      ReadListEnd(list[0], rest);
      assert list == [list[0]];
    } else {
      var tail := QuotedList(list[1..]) + "]" + rest;
      assert text == Quote(list[0]) + ("," + tail);
      PlainListReadsBack(list[1..], rest);
      ReadListMore(list[0], tail);
      assert list == [list[0]] + list[1..];
    }
  }

  lemma QuoteSplit(s: string, after: string)
    ensures Quote(s) + after == "'" + (s + "'" + after)
    ensures (Quote(s) + after)[0] == '\'' && (Quote(s) + after)[1..] == s + "'" + after
  {
  }

  /** A last member is read up to the bracket. */
  lemma ReadListEnd(s: string, rest: string)
    requires Quotes(s) == 0
    ensures ReadList(Quote(s) + ("]" + rest)) == Some(([s], rest))
  {
    hide ReadLiteral;
    hide Quote;
    QuoteSplit(s, "]" + rest);
    PlainLiteralReadsBack(s, "]" + rest);
    assert ("]" + rest)[1..] == rest;
  }

  /** A member before a comma is read, then the rest of the list. */
  lemma ReadListMore(s: string, tail: string)
    requires Quotes(s) == 0 && ReadList(tail).Some?
    ensures ReadList(Quote(s) + ("," + tail)) == Some(([s] + ReadList(tail).value.0, ReadList(tail).value.1))
  {
    hide ReadLiteral;
    hide Quote;
    QuoteSplit(s, "," + tail);
    PlainLiteralReadsBack(s, "," + tail);
    assert ("," + tail)[1..] == tail;
  }

  /** A literal uses up two quotes for each quote it denotes, and its closing one. */
  lemma {:induction false} LiteralQuotes(s: string)
    requires ReadLiteral(s).Some?
    ensures Quotes(s) == 2 * Quotes(ReadLiteral(s).value.0) + 1 + Quotes(ReadLiteral(s).value.1)
    decreases |s|
  {
    if s[0] != '\'' {
      LiteralQuotes(s[1..]);
      var text := ReadLiteral(s[1..]).value.0;
      assert ([s[0]] + text)[1..] == text;
    } else if |s| > 1 && s[1] == '\'' {
      LiteralQuotes(s[2..]);
      var text := ReadLiteral(s[2..]).value.0;
      assert ("'" + text)[1..] == text;
      assert s[1..][1..] == s[2..];
    }
  }

  lemma {:induction false} ListQuotes(s: string)
    requires ReadList(s).Some?
    ensures var (list, rest) := ReadList(s).value;
            Quotes(s) == 2 * |list| + 2 * AllQuotes(list) + Quotes(rest)
    decreases |s|
  {
    LiteralQuotes(s[1..]);
    var (text, rest) := ReadLiteral(s[1..]).value;
    if rest[0] == ']' {
      assert [text][1..] == [];
    } else {
      ListQuotes(rest[1..]);
      var (more, tail) := ReadList(rest[1..]).value;
      assert ([text] + more)[1..] == more;
    }
  }

  lemma {:induction false} QuotedListQuotes(list: seq<string>)
    ensures Quotes(QuotedList(list)) == 2 * |list| + AllQuotes(list)
    decreases list
  {
    if list != [] {
      QuotesAppend("'" + list[0], "'");
      QuotesAppend("'", list[0]);
      assert Quotes("'") == 1 by { assert "'"[1..] == ""; }
      if |list| > 1 {
        QuotedListQuotes(list[1..]);
        QuotesAppend(Quote(list[0]) + ",", QuotedList(list[1..]));
        QuotesAppend(Quote(list[0]), ",");
        assert Quotes(",") == 0 by { assert ","[1..] == ""; }
      } else {
        assert AllQuotes(list[1..]) == 0;
      }
    }
  }

  /** A quoted list means the list it was made from exactly when no member contains a quote. */
  lemma QuotedListReadsBackExactly(list: seq<string>, rest: string)
    requires list != []
    ensures ReadList(QuotedList(list) + "]" + rest) == Some((list, rest)) <==> AllQuotes(list) == 0
  {
    var text := QuotedList(list) + "]" + rest;
    if AllQuotes(list) == 0 {
      PlainListReadsBack(list, rest);
    }
    if ReadList(text) == Some((list, rest)) {
      ListQuotes(text);
      QuotedListQuotes(list);
      QuotesAppend(QuotedList(list) + "]", rest);
      QuotesAppend(QuotedList(list), "]");
      assert Quotes("]") == 0 by { assert "]"[1..] == ""; }
    }
  }

  // ----- conditions and their text -----

  /** What the caller asked for: a comparison with a positional argument, or an overlap with a list of groups. */
  datatype Cond = Compare(lhs: string, op: string, arg: Arg) | GroupsOverlap(groups: seq<string>)

  /** What the text says: comparisons carry the number of their placeholder. */
  datatype Read = Comparison(lhs: string, op: string, index: nat) | Overlap(groups: seq<string>)

  const OVERLAP: string := "groups && ARRAY["

  /** The text of a condition when k comparisons came before it. */
  function Text(c: Cond, k: nat): string {
    match c
    case Compare(lhs, op, _) => lhs + " " + op + " $" + FormatInt(k + 1)
    case GroupsOverlap(groups) => OVERLAP + QuotedList(groups) + "]"
  }

  function ArgsOf(conds: seq<Cond>): seq<Arg> {
    if conds == [] then []
    else
      var before, last := ArgsOf(conds[..|conds| - 1]), conds[|conds| - 1];
      if last.Compare? then before + [last.arg] else before
  }

  /** The WHERE clause as the builder accumulates it. */
  function Clauses(conds: seq<Cond>): string {
    if conds == [] then ""
    else
      var before, last := conds[..|conds| - 1], conds[|conds| - 1];
      (if before == [] then "WHERE " else Clauses(before) + " AND ") + Text(last, |ArgsOf(before)|)
  }

  /** The builder's fields after the given conditions. */
  ghost predicate Built(b: Builder, conds: seq<Cond>) {
    && b.whereClauses == Clauses(conds) && b.hasWhere == (conds != [])
    && b.args == ArgsOf(conds) && b.conditionCounter == |b.args|
  }

  lemma ConditionpBuilds(b: Builder, conds: seq<Cond>, lhs: string, op: string, val: Arg)
    requires Built(b, conds)
    ensures Built(Conditionp(b, lhs, op, val), conds + [Compare(lhs, op, val)])
  {
    hide FormatInt;
    var more := conds + [Compare(lhs, op, val)];
    assert more[..|more| - 1] == conds;
  }

  lemma OverlapBuilds(b: Builder, conds: seq<Cond>, groups: seq<string>)
    requires Built(b, conds)
    ensures Built(Condition(b, OVERLAP + QuotedList(groups) + "]"), conds + [GroupsOverlap(groups)])
  {
    hide QuotedList;
    var more := conds + [GroupsOverlap(groups)];
    assert more[..|more| - 1] == conds;
  }

  // ----- reading conditions -----

  function IndexOf(s: string, c: char): (i: nat)
    ensures i <= |s| && (i < |s| ==> s[i] == c) && forall j :: 0 <= j < i ==> s[j] != c
  {
    if s == "" || s[0] == c then 0 else 1 + IndexOf(s[1..], c)
  }

  function ReadComparison(s: string): (r: Option<(Read, string)>)
    ensures r.Some? ==> |r.value.1| < |s|
  {
    var i := IndexOf(s, ' ');
    if i == |s| then None
    else
      var s' := s[i + 1..];
      var j := IndexOf(s', ' ');
      if j == |s'| then None
      else
        var s'' := s'[j + 1..];
        if |s''| > 1 && s''[0] == '$' && IsDigit(s''[1]) then
          var (n, rest) := ReadDigits(s''[1..], 0);
          ReadDigitsShrinks(s''[1..], 0);
          Some((Comparison(s[..i], s'[..j], n), rest))
        else None
  }

  lemma {:induction false} ReadDigitsShrinks(s: string, acc: nat)
    ensures |ReadDigits(s, acc).1| <= |s|
    decreases s
  {
    if s != "" && IsDigit(s[0]) {
      ReadDigitsShrinks(s[1..], acc * 10 + DigitValue(s[0]));
    }
  }

  function ReadCond(s: string): (r: Option<(Read, string)>)
    ensures r.Some? ==> |r.value.1| < |s|
  {
    if "groups && ARRAY[" <= s then
      match ReadList(s[16..])
      case Some((groups, rest)) => Some((Overlap(groups), rest))
      case None => None
    else ReadComparison(s)
  }

  /** cond AND cond AND ..., as far as it goes, and the text after it. */
  function ReadConds(s: string): Option<(seq<Read>, string)>
    decreases |s|
  {
    match ReadCond(s)
    case None => None
    case Some((c, rest)) =>
      if " AND " <= rest then
        match ReadConds(rest[5..])
        case Some((more, tail)) => Some(([c] + more, tail))
        case None => None
      else Some(([c], rest))
  }

  // ----- the text says what was asked for -----

  predicate Word(s: string) {
    s != "" && ' ' !in s
  }

  /** Column and operator are single words, and group names contain no quote. */
  predicate Plain(c: Cond) {
    match c
    case Compare(lhs, op, _) => Word(lhs) && Word(op) && lhs != "groups"
    case GroupsOverlap(groups) => groups != [] && AllQuotes(groups) == 0
  }

  function ReadOf(c: Cond, k: nat): Read {
    match c
    case Compare(lhs, op, _) => Comparison(lhs, op, k + 1)
    case GroupsOverlap(groups) => Overlap(groups)
  }

  lemma {:induction false} IndexOfWord(w: string, c: char, rest: string)
    requires c !in w
    ensures IndexOf(w + [c] + rest, c) == |w|
  {
    if w == "" {
      assert (w + [c] + rest)[0] == c;
    } else {
      assert (w + [c] + rest)[1..] == w[1..] + [c] + rest;
      IndexOfWord(w[1..], c, rest);
    }
  }

  /** Text that starts like an overlap condition has `groups` as its first word. */
  lemma OverlapStartsWithGroups(lhs: string, rest: string)
    requires ' ' !in lhs && OVERLAP <= lhs + " " + rest
    ensures lhs == "groups"
  {
    var s := lhs + " " + rest;
    assert forall j :: 0 <= j < |OVERLAP| ==> s[j] == OVERLAP[j];
    assert OVERLAP[6] == ' ' && s[|lhs|] == ' ';
    assert forall j :: 0 <= j < 6 ==> OVERLAP[j] != ' ';
    assert forall j :: 0 <= j < |lhs| ==> s[j] == lhs[j] && lhs[j] in lhs;
    assert |lhs| == 6;
    assert lhs == s[..6] == OVERLAP[..6];
  }

  /** The first word and what follows its space. */
  lemma FirstWord(w: string, rest: string)
    requires Word(w)
    ensures var s := w + " " + rest;
            IndexOf(s, ' ') == |w| < |s| && s[..|w|] == w && s[|w| + 1..] == rest
  {
    IndexOfWord(w, ' ', rest);
  }

  lemma NumberReadsBack(k: nat, rest: string)
    requires rest == "" || !IsDigit(rest[0])
    ensures var s := "$" + (Decimal(k) + rest);
            |s| > 1 && s[0] == '$' && IsDigit(s[1]) && ReadDigits(s[1..], 0) == (k, rest)
  {
    hide ReadDigits;
    assert ("$" + (Decimal(k) + rest))[1..] == Decimal(k) + rest;
    DecimalReadsBack(k, rest);
    StopsAt(rest, k);
  }

  lemma ComparisonReadsBack(lhs: string, op: string, k: nat, rest: string)
    requires Word(lhs) && Word(op) && (rest == "" || !IsDigit(rest[0]))
    ensures ReadComparison(lhs + " " + (op + " " + ("$" + (Decimal(k) + rest)))) == Some((Comparison(lhs, op, k), rest))
  {
    hide ReadDigits;
    hide Decimal;
    hide IndexOf;
    var number := "$" + (Decimal(k) + rest);
    FirstWord(lhs, op + " " + number);
    FirstWord(op, number);
    NumberReadsBack(k, rest);
  }

  lemma StopsAt(rest: string, k: nat)
    requires rest == "" || !IsDigit(rest[0])
    ensures ReadDigits(rest, k) == (k, rest)
  {
  }

  lemma CompareReadsBack(lhs: string, op: string, arg: Arg, k: nat, rest: string)
    requires Plain(Compare(lhs, op, arg)) && (rest == "" || !IsDigit(rest[0]))
    ensures ReadCond(Text(Compare(lhs, op, arg), k) + rest) == Some((Comparison(lhs, op, k + 1), rest))
  {
    hide ReadComparison;
    hide Decimal;
    hide ReadList;
    var tail := op + " " + ("$" + (Decimal(k + 1) + rest));
    ComparisonReadsBack(lhs, op, k + 1, rest);
    assert Text(Compare(lhs, op, arg), k) + rest == lhs + " " + tail;
    if OVERLAP <= lhs + " " + tail {
      OverlapStartsWithGroups(lhs, tail);
    }
  }

  lemma OverlapReadsBack(groups: seq<string>, k: nat, rest: string)
    requires groups != [] && AllQuotes(groups) == 0
    ensures ReadCond(Text(GroupsOverlap(groups), k) + rest) == Some((Overlap(groups), rest))
  {
    hide ReadComparison;
    hide ReadList;
    hide QuotedList;
    PlainListReadsBack(groups, rest);
    var tail := QuotedList(groups) + "]" + rest;
    assert Text(GroupsOverlap(groups), k) + rest == OVERLAP + tail;
    assert (OVERLAP + tail)[16..] == tail;
  }

  lemma CondReadsBack(c: Cond, k: nat, rest: string)
    requires Plain(c) && (rest == "" || !IsDigit(rest[0]))
    ensures ReadCond(Text(c, k) + rest) == Some((ReadOf(c, k), rest))
  {
    hide ReadCond;
    hide Text;
    match c {
      case Compare(lhs, op, arg) => CompareReadsBack(lhs, op, arg, k, rest);
      case GroupsOverlap(groups) => OverlapReadsBack(groups, k, rest);
    }
  }

  /** The conditions joined by AND, in order from the front. */
  function Joined(conds: seq<Cond>, k: nat): string {
    if conds == [] then ""
    else
      var k' := if conds[0].Compare? then k + 1 else k;
      Text(conds[0], k) + (if |conds| == 1 then "" else " AND " + Joined(conds[1..], k'))
  }

  function ReadsOf(conds: seq<Cond>, k: nat): seq<Read> {
    if conds == [] then []
    else [ReadOf(conds[0], k)] + ReadsOf(conds[1..], if conds[0].Compare? then k + 1 else k)
  }

  function Compares(conds: seq<Cond>): nat {
    if conds == [] then 0 else (if conds[0].Compare? then 1 else 0) + Compares(conds[1..])
  }

  lemma {:induction false} JoinedAppend(conds: seq<Cond>, last: Cond, k: nat)
    requires conds != []
    ensures Joined(conds + [last], k) == Joined(conds, k) + " AND " + Text(last, k + Compares(conds))
    decreases conds
  {
    hide Text;
    var all := conds + [last];
    assert all[0] == conds[0] && all[1..] == conds[1..] + [last];
    var k' := if conds[0].Compare? then k + 1 else k;
    if |conds| == 1 {
      assert conds[1..] == [] && all[1..] == [last];
      assert Joined([last], k') == Text(last, k');
    } else {
      JoinedAppend(conds[1..], last, k');
    }
  }

  lemma {:induction false} ComparesAppend(conds: seq<Cond>, last: Cond)
    ensures Compares(conds + [last]) == Compares(conds) + (if last.Compare? then 1 else 0)
  {
    if conds == [] {
      assert conds + [last] == [last] && [last][1..] == [];
    } else {
      assert (conds + [last])[0] == conds[0] && (conds + [last])[1..] == conds[1..] + [last];
      ComparesAppend(conds[1..], last);
    }
  }

  lemma {:induction false} ArgsAreCompares(conds: seq<Cond>)
    ensures |ArgsOf(conds)| == Compares(conds)
  {
    if conds != [] {
      var before, last := conds[..|conds| - 1], conds[|conds| - 1];
      assert conds == before + [last];
      ArgsAreCompares(before);
      ComparesAppend(before, last);
    }
  }

  lemma {:induction false} ClausesAreJoined(conds: seq<Cond>)
    requires conds != []
    ensures Clauses(conds) == "WHERE " + Joined(conds, 0)
  {
    hide Text;
    var before, last := conds[..|conds| - 1], conds[|conds| - 1];
    assert conds == before + [last];
    ArgsAreCompares(before);
    if before == [] {
      assert conds == [last];
    } else {
      ClausesAreJoined(before);
      JoinedAppend(before, last, 0);
      var head := Joined(before, 0);
      assert "WHERE " + head + " AND " + Text(last, |ArgsOf(before)|) == "WHERE " + (head + " AND " + Text(last, |ArgsOf(before)|));
    }
  }

  /** What may follow a condition list: nothing, or a space and no further condition. */
  predicate EndsConds(rest: string) {
    rest == "" || (rest[0] == ' ' && !(" AND " <= rest))
  }

  lemma {:induction false} JoinedReadsBack(conds: seq<Cond>, k: nat, rest: string)
    requires conds != [] && EndsConds(rest) && forall c :: c in conds ==> Plain(c)
    ensures ReadConds(Joined(conds, k) + rest) == Some((ReadsOf(conds, k), rest))
    decreases conds
  {
    hide Text;
    hide ReadCond;
    hide ReadOf;
    hide Plain;
    var k' := if conds[0].Compare? then k + 1 else k;
    if |conds| == 1 {
      CondReadsBack(conds[0], k, rest);
      assert Text(conds[0], k) == Joined(conds, k);
      assert conds[1..] == [];
      assert ReadsOf(conds, k) == [ReadOf(conds[0], k)];
    } else {
      var more := Joined(conds[1..], k') + rest;
      assert Joined(conds, k) + rest == Text(conds[0], k) + (" AND " + more);
      CondReadsBack(conds[0], k, " AND " + more);
      JoinedReadsBack(conds[1..], k', rest);
      assert (" AND " + more)[5..] == more;
    }
  }

  /** The placeholder numbers of a condition list, in order of appearance. */
  function Indices(list: seq<Read>): seq<nat> {
    if list == [] then []
    else (if list[0].Comparison? then [list[0].index] else []) + Indices(list[1..])
  }

  lemma {:induction false} PlaceholdersCountUp(conds: seq<Cond>, k: nat)
    ensures |Indices(ReadsOf(conds, k))| == Compares(conds)
    ensures forall i :: 0 <= i < Compares(conds) ==> Indices(ReadsOf(conds, k))[i] == k + i + 1
    decreases conds
  {
    if conds != [] {
      var k' := if conds[0].Compare? then k + 1 else k;
      var list := ReadsOf(conds, k);
      assert list[1..] == ReadsOf(conds[1..], k');
      PlaceholdersCountUp(conds[1..], k');
    }
  }
}
