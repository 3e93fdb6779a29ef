/** The SQL half of src/neon_swarm/tools.py: execute_sql's choice between
    fetching and committing, and fetch_database_schema's regrouping of the flat
    information_schema rows into one record per table. */
module SqlTools {
  import opened Values
  import opened PyText

  /** One result row, as the tuple psycopg2's fetchall returns. */
  type Row = seq<Json>

  /** execute_sql's test: `sql_query.strip().lower().startswith("select")`. */
  predicate IsSelect(query: string)
  {
    StartsWith(Lower(Strip(query)), "select")
  }

  /** The connection and cursor execute_sql opens with
      `psycopg2.connect(connection_uri, sslmode='require')`. The database is
      abstract: `answer` is what it does with a statement, either the rows a
      fetch would return or the exception psycopg2 raises. */
  class Connection {
    /** Whether `conn.commit()` has been called. */
    var committed: bool
    /** Every statement passed to `cur.execute`, in order. */
    var executed: seq<string>
    /** Whether `cur.close()` has been called. */
    var cursorClosed: bool
    const answer: string -> Outcome<seq<Row>>

    constructor (answer: string -> Outcome<seq<Row>>)
      ensures this.answer == answer
      ensures !committed && executed == [] && !cursorClosed
    {
      this.answer := answer;
      committed := false;
      executed := [];
      cursorClosed := false;
    }
  }

  /** execute_sql: run one statement; for a SELECT return its rows without
      committing, for anything else commit and return []. An exception from the
      database escapes before the commit and before the cursor is closed. */
  method ExecuteSql(conn: Connection, query: string) returns (r: Outcome<seq<Row>>)
    modifies conn
    ensures conn.executed == old(conn.executed) + [query]
    ensures conn.answer(query).Raised? ==>
      && r == conn.answer(query)
      && conn.committed == old(conn.committed)
      && conn.cursorClosed == old(conn.cursorClosed)
    ensures conn.answer(query).Returned? ==>
      && conn.cursorClosed
      && (IsSelect(query) ==> r == conn.answer(query) && conn.committed == old(conn.committed))
      && (!IsSelect(query) ==> r == Returned([]) && conn.committed)
  {
    conn.executed := conn.executed + [query];
    var answer := conn.answer(query);
    if answer.Raised? {
      return Raised(answer.error);
    }
    if IsSelect(query) {
      r := Returned(answer.value);
    } else {
      conn.committed := true;
      r := Returned([]);
    }
    conn.cursorClosed := true;
  }

  /** Whether execute_sql fetches does not depend on letter case ... */
  lemma IsSelectIgnoresCase(q1: string, q2: string)
    requires Lower(q1) == Lower(q2)
    ensures IsSelect(q1) == IsSelect(q2)
  {
    LowerStrip(q1);
    LowerStrip(q2);
  }

  /** ... nor on leading whitespace. */
  lemma IsSelectIgnoresLeadingSpace(pad: string, q: string)
    requires AllSpace(pad)
    ensures IsSelect(pad + q) == IsSelect(q)
  {
    TrimStartPadding(pad, q);
  }

  /** A statement that starts with six characters, the outer two not
      whitespace, is a SELECT exactly when those six spell "select". */
  lemma LeadingWord(word: string, rest: string)
    requires |word| == 6 && !IsSpace(word[0]) && !IsSpace(word[5])
    ensures IsSelect(word + rest) <==> Lower(word) == "select"
  {
    var s := word + rest;
    assert s[0] == word[0] && s[5] == word[5];
    assert TrimStart(s) == s;
    var t := Strip(s);
    assert 6 <= |t| && t[..6] == word by {
      assert t == s[..|t|];
    }
    assert Lower(t)[..6] == Lower(word);
  }

  /** A plain SELECT fetches ... */
  lemma SelectFetches(rest: string)
    ensures IsSelect("SELECT" + rest)
  {
    var word := "SELECT";
    assert Lower(word) == "select";
    LeadingWord(word, rest);
  }

  /** ... and so does an indented one in lower case. */
  lemma IndentedSelectFetches(rest: string)
    ensures IsSelect("  " + ("select" + rest))
  {
    var word, pad := "select", "  ";
    assert Lower(word) == "select";
    LeadingWord(word, rest);
    assert AllSpace(pad);
    IsSelectIgnoresLeadingSpace(pad, word + rest);
  }

  /** INSERT commits ... */
  lemma InsertCommits(rest: string)
    ensures !IsSelect("INSERT" + rest)
  {
    var word := "INSERT";
    assert Lower(word)[0] == 'i';
    LeadingWord(word, rest);
  }

  /** ... and so does UPDATE ... */
  lemma UpdateCommits(rest: string)
    ensures !IsSelect("UPDATE" + rest)
  {
    var word := "UPDATE";
    assert Lower(word)[0] == 'u';
    LeadingWord(word, rest);
  }

  /** ... and a statement that starts with WITH, although such a query
      returns rows: execute_sql commits it and returns []. */
  lemma WithCommits(rest: string)
    ensures !IsSelect("WITH t" + rest)
  {
    var word := "WITH t";
    assert Lower(word)[0] == 'w';
    LeadingWord(word, rest);
  }

  /** The statement fetch_database_schema sends, character for character:
      the triple-quoted text starts and ends with a line break and four spaces. */
  const SchemaQuery: string := SchemaMargin + SchemaStatement + SchemaMargin

  const SchemaMargin: string := "\n    "

  const SchemaStatement: string := "SELECT" + SchemaClauses + ";"

  const SchemaClauses: string :=
    " \n        table_name, \n        column_name, \n        data_type, \n        is_nullable\n" +
    "    FROM \n        information_schema.columns\n    WHERE \n        table_schema = 'public'\n" +
    "    ORDER BY \n        table_name, ordinal_position"

  /** Whitespace around a statement is invisible to `strip()`. */
  lemma StripFramed(margin: string, statement: string)
    requires AllSpace(margin)
    requires statement != [] && !IsSpace(statement[0]) && !IsSpace(statement[|statement| - 1])
    ensures Strip(margin + statement + margin) == statement
  {
    var body := statement + margin;
    assert margin + statement + margin == margin + body;
    TrimStartPadding(margin, body);
    assert TrimStart(body) == body;
    TrimEndPadding(statement, margin);
  }

  /** A statement framed by whitespace starts with "select" when its first six
      letters spell it in any case. */
  lemma FramedIsSelect(margin: string, keyword: string, clauses: string)
    requires AllSpace(margin)
    requires |keyword| == 6 && Lower(keyword) == "select"
    ensures IsSelect(margin + (keyword + clauses + ";") + margin)
  {
    var statement := keyword + clauses + ";";
    assert statement[0] == keyword[0];
    assert LowerChar(keyword[0]) == 's' by {
      assert Lower(keyword)[0] == LowerChar(keyword[0]);
    }
    assert statement[|statement| - 1] == ';';
    StripFramed(margin, statement);
    assert statement[..6] == keyword;
    assert Lower(statement)[..6] == Lower(keyword);
  }

  /** The schema query is a SELECT, so fetching the schema never commits. */
  lemma SchemaQueryIsSelect()
    ensures IsSelect(SchemaQuery)
  {
    assert AllSpace(SchemaMargin);
    assert Lower("SELECT") == "select";
    FramedIsSelect(SchemaMargin, "SELECT", SchemaClauses);
  }

  /** `table_name, column_name, data_type, is_nullable = row` needs four cells,
      and `table_name not in schema` needs a hashable table name. */
  predicate Hashable(v: Json)
  {
    !v.JArr? && !v.JObj?
  }

  function UnpackError(row: Row): Option<PyError>
  {
    if |row| != 4 then Some(ValueError)
    else if !Hashable(row[0]) then Some(TypeError)
    else None
  }

  /** The exception of the first row the loop cannot unpack, if any. */
  function FirstUnpackError(rows: seq<Row>): Option<PyError>
  {
    if rows == [] then None
    else
      var before := FirstUnpackError(rows[..|rows| - 1]);
      if before.Some? then before else UnpackError(rows[|rows| - 1])
  }

  /** The cell at position k, None past the end (only unpackable rows are
      ever grouped, so the default is never observed). */
  function Cell(row: Row, k: nat): Json
  {
    if k < |row| then row[k] else JNull
  }

  function TableName(row: Row): Json
  {
    Cell(row, 0)
  }

  /** The column record fetch_database_schema builds from one row. */
  function ColumnOf(row: Row): Json
  {
    JObj(map["column_name" := Cell(row, 1), "data_type" := Cell(row, 2), "is_nullable" := Cell(row, 3)])
  }

  /** The distinct table names of `rows`, in the order first seen. */
  function Tables(rows: seq<Row>): seq<Json>
  {
    if rows == [] then []
    else
      var before := Tables(rows[..|rows| - 1]);
      var name := TableName(rows[|rows| - 1]);
      if name in before then before else before + [name]
  }

  /** The column records of the rows of table t, in row order. */
  function ColumnsOf(rows: seq<Row>, t: Json): seq<Json>
  {
    if rows == [] then []
    else
      var before := ColumnsOf(rows[..|rows| - 1], t);
      if TableName(rows[|rows| - 1]) == t then before + [ColumnOf(rows[|rows| - 1])] else before
  }

  function TableRecord(t: Json, columns: seq<Json>): Json
  {
    JObj(map["table_name" := t, "columns" := JArr(columns)])
  }

  /** The list fetch_database_schema returns for unpackable rows. */
  function Schema(rows: seq<Row>): Json
  {
    var ts := Tables(rows);
    JArr(seq(|ts|, i requires 0 <= i < |ts| => TableRecord(ts[i], ColumnsOf(rows, ts[i]))))
  }

  /** What the grouping loop and the final comprehension produce from rows. */
  function GroupedSchema(rows: seq<Row>): Outcome<Json>
  {
    match FirstUnpackError(rows)
    case Some(e) => Raised(e)
    case None => Returned(Schema(rows))
  }

  lemma FirstUnpackErrorPrefix(rows: seq<Row>, k: nat)
    requires k <= |rows|
    requires FirstUnpackError(rows[..k]).Some?
    ensures FirstUnpackError(rows) == FirstUnpackError(rows[..k])
    decreases |rows| - k
  {
    if k < |rows| {
      var init := rows[..|rows| - 1];
      assert init[..k] == rows[..k];
      FirstUnpackErrorPrefix(init, k);
    } else {
      assert rows[..k] == rows;
    }
  }

  lemma TablesSnoc(rows: seq<Row>, row: Row)
    ensures Tables(rows + [row]) ==
      if TableName(row) in Tables(rows) then Tables(rows) else Tables(rows) + [TableName(row)]
    ensures FirstUnpackError(rows + [row]) ==
      if FirstUnpackError(rows).Some? then FirstUnpackError(rows) else UnpackError(row)
    ensures forall t :: ColumnsOf(rows + [row], t) ==
                        if TableName(row) == t then ColumnsOf(rows, t) + [ColumnOf(row)] else ColumnsOf(rows, t)
  {
    assert (rows + [row])[..|rows|] == rows;
  }

  /** A table that does not occur has no columns. */
  lemma {:induction false} ColumnsOfAbsent(rows: seq<Row>, t: Json)
    requires t !in Tables(rows)
    ensures ColumnsOf(rows, t) == []
  {
    if rows != [] {
      var init, last := rows[..|rows| - 1], rows[|rows| - 1];
      assert rows == init + [last];
      TablesSnoc(init, last);
      ColumnsOfAbsent(init, t);
    }
  }

  /** fetch_database_schema: group the rows loop-wise in a dict keyed by table
      name, then list the dict's entries. A Python dict iterates in insertion
      order; `order` holds that order, which Dafny's maps do not keep. */
  method GroupSchema(rows: seq<Row>) returns (r: Outcome<Json>)
    ensures r == GroupedSchema(rows)
  {
    var columns: map<Json, seq<Json>> := map[];
    var order: seq<Json> := [];
    for i := 0 to |rows|
      invariant FirstUnpackError(rows[..i]).None?
      invariant order == Tables(rows[..i])
      invariant forall t :: t in columns <==> t in order
      invariant forall t :: t in columns ==> columns[t] == ColumnsOf(rows[..i], t)
    {
      var row := rows[i];
      assert rows[..i + 1] == rows[..i] + [row];
      TablesSnoc(rows[..i], row);
      if |row| != 4 {
        FirstUnpackErrorPrefix(rows, i + 1);
        return Raised(ValueError);
      }
      var tableName, columnName, dataType, isNullable := row[0], row[1], row[2], row[3];
      if !Hashable(tableName) {
        FirstUnpackErrorPrefix(rows, i + 1);
        return Raised(TypeError);
      }
      if tableName !in columns {
        ColumnsOfAbsent(rows[..i], tableName);
        columns := columns[tableName := []];
        order := order + [tableName];
      }
      columns := columns[tableName := columns[tableName] +
        [JObj(map["column_name" := columnName, "data_type" := dataType, "is_nullable" := isNullable])]];
    }
    assert rows[..|rows|] == rows;
    var records := seq(|order|, k requires 0 <= k < |order| => TableRecord(order[k], columns[order[k]]));
    assert JArr(records) == Schema(rows);
    r := Returned(JArr(records));
  }

  /** fetch_database_schema as a whole: run the schema query, then group. */
  method FetchDatabaseSchema(conn: Connection) returns (r: Outcome<Json>)
    modifies conn
    ensures conn.executed == old(conn.executed) + [SchemaQuery]
    ensures conn.committed == old(conn.committed)
    ensures conn.answer(SchemaQuery).Raised? ==> r == Raised(conn.answer(SchemaQuery).error)
    ensures conn.answer(SchemaQuery).Returned? ==> r == GroupedSchema(conn.answer(SchemaQuery).value)
    ensures conn.answer(SchemaQuery).Returned? ==> conn.cursorClosed
    ensures conn.answer(SchemaQuery).Raised? ==> conn.cursorClosed == old(conn.cursorClosed)
  {
    SchemaQueryIsSelect();
    var results := ExecuteSql(conn, SchemaQuery);
    if results.Raised? {
      return Raised(results.error);
    }
    r := GroupSchema(results.value);
  }

  /** The grouping raises exactly when some row cannot be unpacked, and then
      with the exception of the first such row. */
  lemma {:induction false} FirstUnpackErrorSpec(rows: seq<Row>)
    ensures FirstUnpackError(rows).None? <==> forall i :: 0 <= i < |rows| ==> UnpackError(rows[i]).None?
    ensures FirstUnpackError(rows).Some? ==>
      exists i :: 0 <= i < |rows| && UnpackError(rows[i]) == FirstUnpackError(rows)
        && forall j :: 0 <= j < i ==> UnpackError(rows[j]).None?
  {
    if rows != [] {
      var init, last := rows[..|rows| - 1], rows[|rows| - 1];
      assert rows == init + [last];
      FirstUnpackErrorSpec(init);
      if FirstUnpackError(init).Some? {
        var i :| 0 <= i < |init| && UnpackError(init[i]) == FirstUnpackError(init)
          && forall j :: 0 <= j < i ==> UnpackError(init[j]).None?;
        assert rows[i] == init[i];
        assert forall j :: 0 <= j < i ==> rows[j] == init[j];
      } else {
        assert forall j :: 0 <= j < |init| ==> rows[j] == init[j];
      }
    }
  }

  /** No table name is listed twice. */
  lemma {:induction false} TablesDistinct(rows: seq<Row>)
    ensures forall i, j :: 0 <= i < j < |Tables(rows)| ==> Tables(rows)[i] != Tables(rows)[j]
  {
    if rows != [] {
      var init, last := rows[..|rows| - 1], rows[|rows| - 1];
      assert rows == init + [last];
      TablesSnoc(init, last);
      TablesDistinct(init);
    }
  }

  /** A name is listed exactly when some row carries it. */
  lemma {:induction false} TablesMembership(rows: seq<Row>, t: Json)
    ensures t in Tables(rows) <==> exists i :: 0 <= i < |rows| && TableName(rows[i]) == t
  {
    if rows != [] {
      var init, last := rows[..|rows| - 1], rows[|rows| - 1];
      assert rows == init + [last];
      TablesSnoc(init, last);
      TablesMembership(init, t);
      if t in Tables(init) {
        var i :| 0 <= i < |init| && TableName(init[i]) == t;
        assert rows[i] == init[i];
      }
      if exists i :: 0 <= i < |rows| && TableName(rows[i]) == t {
        var i :| 0 <= i < |rows| && TableName(rows[i]) == t;
        if i < |init| {
          assert init[i] == rows[i];
        }
      }
    }
  }

  /** The position of the first row of table t. */
  function FirstRow(rows: seq<Row>, t: Json): (k: nat)
    requires exists i :: 0 <= i < |rows| && TableName(rows[i]) == t
    ensures k < |rows| && TableName(rows[k]) == t
    ensures forall j :: 0 <= j < k ==> TableName(rows[j]) != t
  {
    if TableName(rows[0]) == t then 0
    else
      var i :| 0 <= i < |rows| && TableName(rows[i]) == t;
      assert rows[1..][i - 1] == rows[i];
      1 + FirstRow(rows[1..], t)
  }

  /** Appending a row does not move the first row of a table already seen. */
  lemma FirstRowExtend(init: seq<Row>, last: Row, t: Json)
    requires exists i :: 0 <= i < |init| && TableName(init[i]) == t
    ensures exists i :: 0 <= i < |init + [last]| && TableName((init + [last])[i]) == t
    ensures FirstRow(init + [last], t) == FirstRow(init, t)
  {
    var rows := init + [last];
    var a := FirstRow(init, t);
    assert rows[a] == init[a];
    assert forall c :: 0 <= c < a ==> rows[c] == init[c];
  }

  /** A table first seen in the appended row starts there. */
  lemma FirstRowNew(init: seq<Row>, last: Row)
    requires forall c :: 0 <= c < |init| ==> TableName(init[c]) != TableName(last)
    ensures exists i :: 0 <= i < |init + [last]| && TableName((init + [last])[i]) == TableName(last)
    ensures FirstRow(init + [last], TableName(last)) == |init|
  {
    var rows := init + [last];
    assert rows[|init|] == last;
    assert forall c :: 0 <= c < |init| ==> rows[c] == init[c];
  }

  /** Tables are listed in the order of their first rows. */
  lemma {:induction false} TablesFirstSeen(rows: seq<Row>, i: int, j: int)
    requires 0 <= i < j < |Tables(rows)|
    ensures exists a :: 0 <= a < |rows| && TableName(rows[a]) == Tables(rows)[i]
    ensures exists b :: 0 <= b < |rows| && TableName(rows[b]) == Tables(rows)[j]
    ensures FirstRow(rows, Tables(rows)[i]) < FirstRow(rows, Tables(rows)[j])
  {
    var ts := Tables(rows);
    TablesMembership(rows, ts[i]);
    TablesMembership(rows, ts[j]);
    var init, last := rows[..|rows| - 1], rows[|rows| - 1];
    assert rows == init + [last];
    TablesSnoc(init, last);
    var before := Tables(init);
    assert ts[i] == before[i];
    TablesMembership(init, ts[i]);
    FirstRowExtend(init, last, ts[i]);
    if j < |before| {
      TablesMembership(init, ts[j]);
      FirstRowExtend(init, last, ts[j]);
      TablesFirstSeen(init, i, j);
    } else {
      assert ts[j] == TableName(last) && TableName(last) !in before;
      TablesMembership(init, TableName(last));
      FirstRowNew(init, last);
    }
  }

  /** The number of columns listed under the tables ts. */
  function ColumnCount(rows: seq<Row>, ts: seq<Json>): nat
  {
    if ts == [] then 0 else ColumnCount(rows, ts[..|ts| - 1]) + |ColumnsOf(rows, ts[|ts| - 1])|
  }

  /** How often t occurs in ts. */
  function Occurrences(ts: seq<Json>, t: Json): nat
  {
    if ts == [] then 0 else Occurrences(ts[..|ts| - 1], t) + (if ts[|ts| - 1] == t then 1 else 0)
  }

  lemma {:induction false} ColumnCountSnocRow(rows: seq<Row>, row: Row, ts: seq<Json>)
    ensures ColumnCount(rows + [row], ts) == ColumnCount(rows, ts) + Occurrences(ts, TableName(row))
  {
    TablesSnoc(rows, row);
    if ts != [] {
      ColumnCountSnocRow(rows, row, ts[..|ts| - 1]);
    }
  }

  lemma {:induction false} OccurrencesDistinct(ts: seq<Json>, t: Json)
    requires forall i, j :: 0 <= i < j < |ts| ==> ts[i] != ts[j]
    ensures Occurrences(ts, t) == if t in ts then 1 else 0
  {
    if ts != [] {
      var init := ts[..|ts| - 1];
      assert ts == init + [ts[|ts| - 1]];
      OccurrencesDistinct(init, t);
    }
  }

  lemma {:induction false} ColumnCountSnocTable(rows: seq<Row>, ts: seq<Json>, t: Json)
    ensures ColumnCount(rows, ts + [t]) == ColumnCount(rows, ts) + |ColumnsOf(rows, t)|
  {
    assert (ts + [t])[..|ts|] == ts;
  }

  /** Every row lands in exactly one table: the column lists together are as
      long as the input. */
  lemma {:induction false} ColumnCountTotal(rows: seq<Row>)
    ensures ColumnCount(rows, Tables(rows)) == |rows|
  {
    if rows != [] {
      var init, last := rows[..|rows| - 1], rows[|rows| - 1];
      assert rows == init + [last];
      TablesSnoc(init, last);
      ColumnCountTotal(init);
      var before := Tables(init);
      var name := TableName(last);
      ColumnCountSnocRow(init, last, before);
      TablesDistinct(init);
      OccurrencesDistinct(before, name);
      if name !in before {
        ColumnCountSnocTable(rows, before, name);
        ColumnsOfAbsent(init, name);
        assert Occurrences(before + [name], name) == Occurrences(before, name) + 1 by {
          assert (before + [name])[..|before|] == before;
        }
        ColumnCountSnocRow(init, last, before + [name]);
        ColumnCountSnocTable(init, before, name);
      }
    }
  }

  /** No rows, no tables. */
  lemma EmptySchema()
    ensures GroupedSchema([]) == Returned(JArr([]))
  {
    assert Schema([]).items == [];
  }

  /** The two-row example: both columns of "users" under one record, in order. */
  lemma UsersExample()
    ensures GroupedSchema([[JStr("users"), JStr("id"), JStr("integer"), JStr("NO")],
                           [JStr("users"), JStr("email"), JStr("text"), JStr("YES")]])
      == Returned(JArr([JObj(map[
           "table_name" := JStr("users"),
           "columns" := JArr([
             JObj(map["column_name" := JStr("id"), "data_type" := JStr("integer"), "is_nullable" := JStr("NO")]),
             JObj(map["column_name" := JStr("email"), "data_type" := JStr("text"), "is_nullable" := JStr("YES")])])])]))
  {
    var r1: Row := [JStr("users"), JStr("id"), JStr("integer"), JStr("NO")];
    var r2: Row := [JStr("users"), JStr("email"), JStr("text"), JStr("YES")];
    var users := JStr("users");
    TablesSnoc([], r1);
    TablesSnoc([r1], r2);
    assert [r1] + [r2] == [r1, r2];
    assert [] + [r1] == [r1];
    assert Tables([r1, r2]) == [users];
    assert ColumnsOf([r1, r2], users) == [ColumnOf(r1), ColumnOf(r2)];
    assert FirstUnpackError([r1, r2]).None?;
    assert Schema([r1, r2]).items == [TableRecord(users, [ColumnOf(r1), ColumnOf(r2)])];
  }
}
