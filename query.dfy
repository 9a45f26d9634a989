/** The query tool `execute_health_query_v2` (tools/health-mcp/src/health_mcp.py:814-888):
    the SQL and the interpretation gathered from the Cortex Analyst response, the
    fallback keys, the rows of `execute_query` (tools/health-mcp/src/health_mcp.py:744-780)
    and `calculate_health_metrics` (tools/health-mcp/src/health_mcp.py:782-812). The
    analyst's answer and the database's answer to a statement are inputs. */
module Query {
  import opened Wrappers
  import opened Text
  import opened PyJson
  import opened Dates
  import opened OrderedDict

  // ----- execute_query -----

  /** A value as the Snowflake cursor returns it: a `date`, a naive `datetime`, a
      `Decimal`, `None`, a value that the JSON encoder takes as it is, or a TIME
      (`datetime.time`) or BINARY (`bytes`) column's value, which it does not. */
  datatype SqlValue =
    | SqlDate(date: Date)
    | SqlDateTime(day: Date, hour: nat, minute: nat, second: nat, microsecond: nat)
    | SqlDecimal(decimal: real)
    | SqlNull
    | SqlInt(i: int)
    | SqlFloat(f: real)
    | SqlBool(b: bool)
    | SqlText(s: string)
    | SqlTime(hour: nat, minute: nat, second: nat, microsecond: nat)
    | SqlBinary(bytes: seq<bv8>)

  /** A value the conversion passes through although the JSON encoder refuses it. */
  predicate Unhandled(v: SqlValue) {
    v.SqlTime? || v.SqlBinary?
  }

  /** Whether the JSON encoder accepts the value. */
  predicate Serializable(v: SqlValue) {
    !(v.SqlDate? || v.SqlDateTime? || v.SqlDecimal? || Unhandled(v))
  }

  function Pad6(n: nat): string
    requires n < 1000000
  {
    Pad2(n / 10000) + Pad2(n / 100 % 100) + Pad2(n % 100)
  }

  /** `datetime.isoformat()`: YYYY-MM-DDTHH:MM:SS, and .ffffff when there are microseconds. */
  function DateTimeIso(day: Date, hour: nat, minute: nat, second: nat, microsecond: nat): string {
    IsoFormat(day) + "T" + Field(hour, 2) + ":" + Field(minute, 2) + ":" + Field(second, 2)
    + (if microsecond == 0 then ""
       else "." + (if microsecond < 1000000 then Pad6(microsecond) else NatToString(microsecond)))
  }

  /** For a datetime Python can hold, the ISO text is the date, `T`, the zero-padded
      `HH:MM:SS` (19 characters in all), and `.ffffff` (7 more) exactly when there
      are microseconds. */
  lemma DateTimeIsoShape(day: Date, hour: nat, minute: nat, second: nat, microsecond: nat)
    requires 0 <= day.year < 10000 && 0 <= day.month < 100 && 0 <= day.day < 100
    requires hour < 24 && minute < 60 && second < 60 && microsecond < 1000000
    ensures var r := DateTimeIso(day, hour, minute, second, microsecond);
      && |r| == (if microsecond == 0 then 19 else 26)
      && r[..11] == IsoFormat(day) + "T"
      && r[11..19] == Pad2(hour) + ":" + Pad2(minute) + ":" + Pad2(second)
      && (microsecond > 0 ==> r[19..] == "." + Pad6(microsecond))
  {
    var date := IsoFormat(day);
    var time := Pad2(hour) + ":" + Pad2(minute) + ":" + Pad2(second);
    var fraction := if microsecond == 0 then "" else "." + Pad6(microsecond);
    assert |date| == 10 && |time| == 8;
    var r := DateTimeIso(day, hour, minute, second, microsecond);
    assert r == (date + "T") + time + fraction;
  }

  /** The conversion of one fetched value: dates and datetimes become their ISO text, a
      `Decimal` becomes a float, and everything else, `None` included, stays as it is;
      the result is serializable unless the value was a TIME or BINARY one. */
  function Convert(v: SqlValue): (r: SqlValue)
    ensures Serializable(r) <==> !Unhandled(v)
    ensures Serializable(v) || Unhandled(v) ==> r == v
    ensures v.SqlDecimal? ==> r == SqlFloat(v.decimal)
    ensures v.SqlDate? ==> r == SqlText(IsoFormat(v.date))
    ensures v.SqlDateTime? ==> r == SqlText(DateTimeIso(v.day, v.hour, v.minute, v.second, v.microsecond))
  {
    match v
    case SqlDate(d) => SqlText(IsoFormat(d))
    case SqlDateTime(d, h, m, s, us) => SqlText(DateTimeIso(d, h, m, s, us))
    case SqlDecimal(x) => SqlFloat(x)
    case SqlNull => SqlNull
    case _ => v
  }

  /** Converting twice is converting once. */
  lemma ConvertIdempotent(v: SqlValue)
    ensures Convert(Convert(v)) == Convert(v)
  {
  }

  function ConvertRow(row: seq<SqlValue>): (r: seq<SqlValue>)
    ensures |r| == |row| && forall j :: 0 <= j < |row| ==> r[j] == Convert(row[j])
  {
    seq(|row|, j requires 0 <= j < |row| => Convert(row[j]))
  }

  /** `dict(zip(columns, converted_row))`. */
  function RowDict(columns: seq<string>, row: seq<SqlValue>): Dict<string, SqlValue> {
    FromPairs(Zip(columns, ConvertRow(row)))
  }

  /** One dict per fetched row. */
  function Results(columns: seq<string>, rows: seq<seq<SqlValue>>): (rs: seq<Dict<string, SqlValue>>)
    ensures |rs| == |rows| && forall i :: 0 <= i < |rows| ==> rs[i] == RowDict(columns, rows[i])
  {
    seq(|rows|, i requires 0 <= i < |rows| => RowDict(columns, rows[i]))
  }

  /** The inner loop of `execute_query`: `converted_row`. */
  method ConvertValues(row: seq<SqlValue>) returns (converted: seq<SqlValue>)
    ensures converted == ConvertRow(row)
  {
    converted := [];
    for j := 0 to |row|
      invariant converted == ConvertRow(row[..j])
    {
      converted := converted + [Convert(row[j])];
    }
  }

  lemma RowDictOfConverted(columns: seq<string>, row: seq<SqlValue>, converted: seq<SqlValue>)
    requires converted == ConvertRow(row)
    ensures FromPairs(Zip(columns, converted)) == RowDict(columns, row)
  {
  }

  /** The row loop of `execute_query`. */
  method ExecuteQuery(columns: seq<string>, rows: seq<seq<SqlValue>>) returns (results: seq<Dict<string, SqlValue>>)
    ensures results == Results(columns, rows)
  {
    results := [];
    for i := 0 to |rows|
      invariant |results| == i
      invariant forall k :: 0 <= k < i ==> results[k] == RowDict(columns, rows[k])
    {
      var converted := ConvertValues(rows[i]);
      RowDictOfConverted(columns, rows[i], converted);
      results := results + [FromPairs(Zip(columns, converted))];
    }
  }

  predicate DistinctColumns(columns: seq<string>) {
    forall i, j :: 0 <= i < j < |columns| ==> columns[i] != columns[j]
  }

  /** With distinct column names and a full row, the dict has the columns as its keys,
      in order, and each column's converted value. */
  lemma RowDictOfDistinctColumns(columns: seq<string>, row: seq<SqlValue>)
    requires DistinctColumns(columns) && |row| == |columns|
    ensures Keys(RowDict(columns, row)) == columns
    ensures forall j :: 0 <= j < |columns| ==> RowDict(columns, row)[j] == (columns[j], Convert(row[j]))
  {
    var ps := Zip(columns, ConvertRow(row));
    FromPairsDistinct(ps);
  }

  /** A repeated column name keeps the value of its last occurrence; a column without a
      value, or a value without a column, is dropped; in a row without TIME or BINARY
      values nothing in the dict needs the encoder's help. */
  lemma RowDictLookup(columns: seq<string>, row: seq<SqlValue>)
    ensures forall k :: Lookup(RowDict(columns, row), k) == LastValue(Zip(columns, ConvertRow(row)), k)
    ensures (forall j :: 0 <= j < |row| ==> !Unhandled(row[j])) ==>
      forall p :: p in RowDict(columns, row) ==> Serializable(p.1)
  {
    var ps := Zip(columns, ConvertRow(row));
    FromPairsLookup(ps);
    if forall j :: 0 <= j < |row| ==> !Unhandled(row[j]) {
      assert forall i :: 0 <= i < |ps| ==> Serializable(ps[i].1);
      FromPairsValues(ps);
    }
  }

  lemma {:induction false} FromPairsValues(ps: seq<(string, SqlValue)>)
    requires forall p :: p in ps ==> Serializable(p.1)
    ensures forall p :: p in FromPairs(ps) ==> Serializable(p.1)
  {
    if ps != [] {
      var front, last := ps[..|ps| - 1], ps[|ps| - 1];
      assert forall p :: p in front ==> p in ps;
      FromPairsValues(front);
      var d := FromPairs(front);
      var i := IndexOf(d, last.0);
      if i >= 0 {
        forall p: (string, SqlValue) | p in d[i := last] ensures Serializable(p.1) {
          var k :| 0 <= k < |d| && d[i := last][k] == p;
          if k != i {
            assert d[k] in d;
          }
        }
      }
    }
  }

  // ----- calculate_health_metrics -----

  /** The metrics dict: {"message": "No data to analyze"}, or the six keys. */
  datatype Metrics =
    | NoData
    | Metrics(rowCount: nat, columns: seq<string>, hasDateData: bool, hasNumericData: bool,
              dataCategory: string, healthFocus: string)

  /** `isinstance(v, (int, float))`; a `bool` is an `int`. */
  predicate IsNumber(v: SqlValue) {
    v.SqlInt? || v.SqlFloat? || v.SqlBool?
  }

  /** The category and the focus of a query, by the first keyword found in its lower-case text. */
  function Focus(query: string): (string, string) {
    var q := Lower(query);
    if IsSubstring("cholesterol", q) then ("lab_results", "cardiovascular")
    else if IsSubstring("medication", q) then ("medications", "treatment")
    else if IsSubstring("blood pressure", q) then ("vitals", "cardiovascular")
    else if IsSubstring("hba1c", q) || IsSubstring("glucose", q) then ("lab_results", "diabetes")
    else ("general", "general")
  }

  /** The keyword rules in priority order: keywords, category, focus. */
  const FocusRules: seq<(seq<string>, string, string)> := [
    (["cholesterol"], "lab_results", "cardiovascular"),
    (["medication"], "medications", "treatment"),
    (["blood pressure"], "vitals", "cardiovascular"),
    (["hba1c", "glucose"], "lab_results", "diabetes")]

  predicate RuleMatches(rule: (seq<string>, string, string), q: string) {
    exists j :: 0 <= j < |rule.0| && IsSubstring(rule.0[j], q)
  }

  /** The rule that decides: the first one with a keyword in the lower-case query. */
  predicate FirstMatch(i: nat, q: string)
    requires i < |FocusRules|
  {
    RuleMatches(FocusRules[i], q) && forall j :: 0 <= j < i ==> !RuleMatches(FocusRules[j], q)
  }

  /** The query's category and focus are those of the first matching rule, and
      "general" when no rule matches. */
  lemma FocusIsFirstMatchingRule(query: string)
    ensures forall i :: 0 <= i < |FocusRules| && FirstMatch(i, Lower(query)) ==>
      Focus(query) == (FocusRules[i].1, FocusRules[i].2)
    ensures (forall i :: 0 <= i < |FocusRules| ==> !RuleMatches(FocusRules[i], Lower(query))) ==>
      Focus(query) == ("general", "general")
  {
    var q := Lower(query);
    assert RuleMatches(FocusRules[0], q) <==> IsSubstring("cholesterol", q) by {
      assert FocusRules[0].0[0] == "cholesterol";
    }
    assert RuleMatches(FocusRules[1], q) <==> IsSubstring("medication", q) by {
      assert FocusRules[1].0[0] == "medication";
    }
    assert RuleMatches(FocusRules[2], q) <==> IsSubstring("blood pressure", q) by {
      assert FocusRules[2].0[0] == "blood pressure";
    }
    assert RuleMatches(FocusRules[3], q) <==> IsSubstring("hba1c", q) || IsSubstring("glucose", q) by {
      assert FocusRules[3].0[0] == "hba1c" && FocusRules[3].0[1] == "glucose";
    }
  }

  predicate HasDateColumn(row: Dict<string, SqlValue>) {
    exists i :: 0 <= i < |row| && IsSubstring("date", Lower(row[i].0))
  }

  predicate HasNumber(row: Dict<string, SqlValue>) {
    exists i :: 0 <= i < |row| && IsNumber(row[i].1)
  }

  /** `calculate_health_metrics`: the first row decides the columns, the date flag and
      the numeric flag. */
  function HealthMetrics(query: string, results: seq<Dict<string, SqlValue>>): (m: Metrics)
    ensures m.NoData? <==> results == []
    ensures m.Metrics? ==> m.rowCount == |results| > 0
  {
    if results == [] then NoData
    else
      var focus := Focus(query);
      Metrics(|results|, Keys(results[0]), HasDateColumn(results[0]), HasNumber(results[0]), focus.0, focus.1)
  }

  /** With distinct columns and a full first row, the columns are reported, the date
      flag is set exactly when some column name contains "date" in any case, and the
      numeric flag exactly when some converted value of the first row is an int, a
      float or a bool. */
  lemma FirstRowFlagsExactly(query: string, columns: seq<string>, rows: seq<seq<SqlValue>>)
    requires rows != [] && DistinctColumns(columns) && |rows[0]| == |columns|
    ensures HealthMetrics(query, Results(columns, rows)).columns == columns
    ensures HealthMetrics(query, Results(columns, rows)).hasDateData <==>
      exists j :: 0 <= j < |columns| && IsSubstring("date", Lower(columns[j]))
    ensures HealthMetrics(query, Results(columns, rows)).hasNumericData <==>
      exists j :: 0 <= j < |columns| && IsNumber(Convert(rows[0][j]))
  {
    RowDictOfDistinctColumns(columns, rows[0]);
    assert forall j :: 0 <= j < |columns| ==> Results(columns, rows)[0][j] == (columns[j], Convert(rows[0][j]));
  }

  /** A `Decimal` in the first row makes the results numeric once it is converted to a
      float, and a column named with "DATE" in any case counts as date data. */
  lemma FirstRowFlags(query: string, columns: seq<string>, rows: seq<seq<SqlValue>>, j: nat)
    requires rows != [] && DistinctColumns(columns) && |rows[0]| == |columns| && j < |columns|
    ensures rows[0][j].SqlDecimal? ==> HealthMetrics(query, Results(columns, rows)).hasNumericData
    ensures IsSubstring("date", Lower(columns[j])) ==> HealthMetrics(query, Results(columns, rows)).hasDateData
  {
    FirstRowFlagsExactly(query, columns, rows);
    assert rows[0][j].SqlDecimal? ==> IsNumber(Convert(rows[0][j]));
  }

  // ----- gathering the SQL -----

  /** The SQL and the interpretation text gathered from the content blocks. */
  datatype Gathered = Gathered(sql: Json, interpretation: string)

  /** One content block: a "sql" block sets the statement, a "text" block appends its
      text and a blank line (a text that is not a string makes `+` raise). */
  function ScanBlock(g: Gathered, item: map<string, Json>): Outcome<Gathered> {
    var sql := if Get(item, "type") == JStr("sql") then Get(item, "statement") else g.sql;
    if Get(item, "type") == JStr("text") then
      match GetOr(item, "text", JStr(""))
      case JStr(t) => Done(Gathered(sql, g.interpretation + t + "\n\n"))
      case _ => Raised
    else Done(Gathered(sql, g.interpretation))
  }

  /** The content loop over `items`, from `sql = None` and `interpretation = ""`. */
  function ScanBlocks(items: seq<map<string, Json>>): Outcome<Gathered> {
    if items == [] then Done(Gathered(JNull, ""))
    else
      var g :- ScanBlocks(items[..|items| - 1]);
      ScanBlock(g, items[|items| - 1])
  }

  /** The content blocks, when `message` and its `content` are present. */
  function ContentBlocks(response: Json): Outcome<seq<map<string, Json>>> {
    var hasMessage :- Contains(response, "message");
    if !hasMessage then Done([])
    else
      var message :- Index(response, "message");
      var hasContent :- Contains(message, "content");
      if !hasContent then Done([])
      else
        var content :- Index(message, "content");
        IterObjects(content)
  }

  /** The gathered statement, or the top-level `sql` key, or else the `code` key. */
  function FindSql(response: Json, found: Json): Outcome<Json> {
    if Truthy(found) then Done(found)
    else
      var hasSql :- Contains(response, "sql");
      if hasSql then Index(response, "sql")
      else
        var hasCode :- Contains(response, "code");
        if hasCode then Index(response, "code") else Done(found)
  }

  lemma ScanBlocksStep(items: seq<map<string, Json>>, i: nat, g: Gathered)
    requires i < |items| && ScanBlocks(items[..i]) == Done(g)
    ensures ScanBlocks(items[..i + 1]) == ScanBlock(g, items[i])
  {
    assert items[..i + 1][..i] == items[..i];
  }

  /** The `for content_item in ...` loop. */
  method ScanContent(items: seq<map<string, Json>>) returns (r: Outcome<Gathered>)
    ensures r == ScanBlocks(items)
  {
    var sql := JNull;
    var interpretation := "";
    for i := 0 to |items|
      invariant ScanBlocks(items[..i]) == Done(Gathered(sql, interpretation))
    {
      ScanBlocksStep(items, i, Gathered(sql, interpretation));
      var item := items[i];
      if Get(item, "type") == JStr("sql") {
        sql := Get(item, "statement");
      }
      if Get(item, "type") == JStr("text") {
        var text := GetOr(item, "text", JStr(""));
        if !text.JStr? {
          ScanBlocksStaysRaised(items, i + 1);
          return Raised;
        }
        interpretation := interpretation + text.s + "\n\n";
      }
    }
    assert items[..|items|] == items;
    return Done(Gathered(sql, interpretation));
  }

  /** The position of the last "sql" block, or -1. */
  function LastSqlBlock(items: seq<map<string, Json>>): (r: int)
    ensures -1 <= r < |items|
    ensures 0 <= r ==> Get(items[r], "type") == JStr("sql")
    ensures forall j :: r < j < |items| ==> Get(items[j], "type") != JStr("sql")
  {
    if items == [] then -1
    else if Get(items[|items| - 1], "type") == JStr("sql") then |items| - 1
    else LastSqlBlock(items[..|items| - 1])
  }

  /** The statement of the last "sql" block wins; without one the SQL is still `None`. */
  lemma {:induction false} LastSqlBlockWins(items: seq<map<string, Json>>)
    requires ScanBlocks(items).Done?
    ensures var i := LastSqlBlock(items);
      ScanBlocks(items).value.sql == if i < 0 then JNull else Get(items[i], "statement")
  {
    if items != [] {
      var front := items[..|items| - 1];
      LastSqlBlockWins(front);
      if Get(items[|items| - 1], "type") != JStr("sql") {
        var i := LastSqlBlock(front);
        if 0 <= i {
          assert items[i] == front[i];
        }
      }
    }
  }

  /** The text of each "text" block, in order, each with its blank line. */
  function TextPieces(items: seq<map<string, Json>>): seq<string> {
    if items == [] then []
    else
      var item := items[|items| - 1];
      TextPieces(items[..|items| - 1])
      + (if Get(item, "type") == JStr("text") && GetOr(item, "text", JStr("")).JStr?
         then [GetOr(item, "text", JStr("")).s + "\n\n"] else [])
  }

  function Concat(parts: seq<string>): string {
    if parts == [] then "" else Concat(parts[..|parts| - 1]) + parts[|parts| - 1]
  }

  /** A "text" block whose text is not a string. */
  predicate BadText(item: map<string, Json>) {
    Get(item, "type") == JStr("text") && !GetOr(item, "text", JStr("")).JStr?
  }

  lemma ConcatSnoc(parts: seq<string>, last: seq<string>)
    requires |last| <= 1
    ensures Concat(parts + last) == Concat(parts) + (if last == [] then "" else last[0])
  {
    if last != [] {
      assert (parts + last)[..|parts|] == parts;
    } else {
      assert parts + last == parts;
    }
  }

  /** The content loop raises exactly when some "text" block's text is not a string. */
  lemma {:induction false} ScanBlocksRaised(items: seq<map<string, Json>>)
    ensures ScanBlocks(items).Raised? <==> exists i :: 0 <= i < |items| && BadText(items[i])
  {
    if items != [] {
      var front := items[..|items| - 1];
      ScanBlocksRaised(front);
      assert forall i :: 0 <= i < |front| ==> front[i] == items[i];
      if ScanBlocks(items).Raised? && ScanBlocks(front).Done? {
        assert BadText(items[|items| - 1]);
      }
      if exists i :: 0 <= i < |items| && BadText(items[i]) {
        var i :| 0 <= i < |items| && BadText(items[i]);
        if i < |front| {
          assert BadText(front[i]);
        }
      }
    }
  }

  /** Without an exception, the interpretation is the texts of the "text" blocks, each
      followed by a blank line. */
  lemma {:induction false} InterpretationOfTexts(items: seq<map<string, Json>>)
    requires ScanBlocks(items).Done?
    ensures ScanBlocks(items).value.interpretation == Concat(TextPieces(items))
  {
    if items != [] {
      var front, last := items[..|items| - 1], items[|items| - 1];
      InterpretationOfTexts(front);
      var piece := if Get(last, "type") == JStr("text") && GetOr(last, "text", JStr("")).JStr?
        then [GetOr(last, "text", JStr("")).s + "\n\n"] else [];
      ConcatSnoc(TextPieces(front), piece);
    }
  }

  /** Once a prefix of the blocks raises, the whole loop does. */
  lemma {:induction false} ScanBlocksStaysRaised(items: seq<map<string, Json>>, i: nat)
    requires i <= |items| && ScanBlocks(items[..i]).Raised?
    ensures ScanBlocks(items).Raised?
    decreases |items| - i
  {
    if i < |items| {
      assert items[..i + 1][..i] == items[..i];
      ScanBlocksStaysRaised(items, i + 1);
    } else {
      assert items[..i] == items;
    }
  }

  /** An answer that gives no SQL in its blocks and holds a falsy top-level `sql` never
      reaches the `code` key. */
  lemma SqlKeyShadowsCode(fields: map<string, Json>, found: Json)
    requires !Truthy(found) && "sql" in fields
    ensures FindSql(JObj(fields), found) == Done(fields["sql"])
  {
  }

  /** Without a statement in the blocks and without a `sql` key, the `code` key is used. */
  lemma CodeKeyIsLastResort(fields: map<string, Json>, found: Json)
    requires !Truthy(found) && "sql" !in fields
    ensures FindSql(JObj(fields), found) == Done(if "code" in fields then fields["code"] else found)
  {
  }

  // ----- the tool -----

  /** What the database answers to a statement: the column names and the fetched rows. */
  datatype QueryAnswer = QueryAnswer(columns: seq<string>, rows: seq<seq<SqlValue>>)

  datatype QueryResult =
    | Answered(query: string, interpretation: string, sql: Json, results: seq<Dict<string, SqlValue>>,
               resultCount: nat, metrics: Metrics)
    | NoSql(query: string, response: Json)
    | QueryFailed(query: string)

  /** The tool's result before its outer `except`; `run` is the database. */
  function Answer(query: string, response: Outcome<Json>, run: Json -> Outcome<QueryAnswer>): Outcome<QueryResult> {
    var resp :- response;
    var blocks :- ContentBlocks(resp);
    var g :- ScanBlocks(blocks);
    var sql :- FindSql(resp, g.sql);
    if !Truthy(sql) then Done(NoSql(query, resp))
    else
      var answer :- run(sql);
      var results := Results(answer.columns, answer.rows);
      Done(Answered(query, Strip(g.interpretation), sql, results, |results|, HealthMetrics(query, results)))
  }

  /** `execute_health_query_v2`: any exception gives `query_successful: False`. */
  function HealthQuery(query: string, response: Outcome<Json>, run: Json -> Outcome<QueryAnswer>): QueryResult {
    match Answer(query, response, run)
    case Done(r) => r
    case Raised => QueryFailed(query)
  }

  /** The tool, its steps in the source's order. */
  method ExecuteHealthQuery(query: string, response: Outcome<Json>, run: Json -> Outcome<QueryAnswer>)
    returns (r: QueryResult)
    ensures r == HealthQuery(query, response, run)
  {
    if response.Raised? {
      return QueryFailed(query);
    }
    var resp := response.value;
    var blocks := ContentBlocks(resp);
    if blocks.Raised? {
      return QueryFailed(query);
    }
    var gathered := ScanContent(blocks.value);
    if gathered.Raised? {
      return QueryFailed(query);
    }
    var sql := FindSql(resp, gathered.value.sql);
    if sql.Raised? {
      return QueryFailed(query);
    }
    if !Truthy(sql.value) {
      return NoSql(query, resp);
    }
    var answer := run(sql.value);
    if answer.Raised? {
      return QueryFailed(query);
    }
    var results := ExecuteQuery(answer.value.columns, answer.value.rows);
    var metrics := HealthMetrics(query, results);
    return Answered(query, Strip(gathered.value.interpretation), sql.value, results, |results|, metrics);
  }

  // ----- properties -----

  /** Without SQL the database is never asked: the result is the same whatever it would answer. */
  lemma NoSqlNeverRuns(query: string, response: Outcome<Json>, run: Json -> Outcome<QueryAnswer>,
                       other: Json -> Outcome<QueryAnswer>)
    requires HealthQuery(query, response, run).NoSql?
    ensures HealthQuery(query, response, other) == HealthQuery(query, response, run)
  {
  }

  /** An answered query ran a truthy statement, and reports one result per fetched row
      and the metrics of those results. */
  lemma AnswerReportsRows(query: string, response: Outcome<Json>, run: Json -> Outcome<QueryAnswer>)
    requires HealthQuery(query, response, run).Answered?
    ensures var r := HealthQuery(query, response, run);
      && Truthy(r.sql) && run(r.sql).Done?
      && r.resultCount == |r.results| == |run(r.sql).value.rows|
      && r.results == Results(run(r.sql).value.columns, run(r.sql).value.rows)
      && r.metrics == HealthMetrics(query, r.results)
      && response.Done? && ContentBlocks(response.value).Done?
      && r.interpretation == Strip(Concat(TextPieces(ContentBlocks(response.value).value)))
  {
    InterpretationOfTexts(ContentBlocks(response.value).value);
  }
}
