/**
 * The MySQL adapter: every operation borrows a connection from one
 * process-wide c3p0 pool and runs a parameterised statement against the
 * fixed table "usertable".
 *
 * JDBC is an abstract value, `Jdbc`: whether a connection can be had, and
 * what executing a statement reports.  A statement with an unbound
 * placeholder is refused with an SQLException, as MySQL Connector/J refuses
 * it ("No value specified for parameter").
 */
module Mysql {
  import opened Records
  import opened SqlText

  /** Every statement targets this table, whatever table the caller names. */
  const TableName: string := "usertable"

  /** The fixed text around the generated parts of the statements. */
  const InsertHead: string := "INSERT INTO " + TableName + " SET "
  const InsertTail: string := "id=?"
  const UpdateHead: string := "UPDATE " + TableName + " SET "
  const ByKey: string := " WHERE id=?"
  const ReadHead: string := "SELECT "
  const ReadTail: string := " FROM " + TableName + ByKey
  const DeleteSql: string := "DELETE FROM " + TableName + ByKey

  // ---------------------------------------------------------------------
  // The connection pool and init

  /**
   * The mysql.* properties init reads.  The three pool sizes are already
   * parsed: None stands for a property that is missing or not an integer,
   * on which Integer.parseInt raises NumberFormatException.
   */
  datatype Props = Props(
    driver: Option<string>,
    url: Option<string>,
    user: Option<string>,
    password: Option<string>,
    poolMin: Option<int>,
    poolAcquireIncrement: Option<int>,
    poolMax: Option<int>)

  /** The settings of the pool; None: never set, the pool's own default applies. */
  datatype PoolConfig = PoolConfig(
    driverClass: Option<string>,
    jdbcUrl: Option<string>,
    user: Option<string>,
    password: Option<string>,
    minPoolSize: Option<int>,
    acquireIncrement: Option<int>,
    maxPoolSize: Option<int>)

  const FreshPool: PoolConfig := PoolConfig(None, None, None, None, None, None, None)

  /**
   * init returns normally, throws DBException when the pool vetoes the driver
   * class, or lets a runtime exception escape.
   */
  datatype InitOutcome = Initialized | Vetoed | InitUncaught(error: RuntimeError)

  /**
   * The pool init leaves in the static field, and how init ends.  The pool
   * is published before it is configured, so a failure part-way leaves a
   * partly configured pool behind.  `driverAccepted` says whether the pool
   * accepts the driver class (setDriverClass vetoes a class it cannot load).
   */
  function InitStep(current: Option<PoolConfig>, props: Props, driverAccepted: bool): (r: (Option<PoolConfig>, InitOutcome))
    ensures r.0.Some?
    ensures current.Some? ==> r == (current, Initialized)
    ensures r.1 == Initialized <==>
              current.Some? ||
              (driverAccepted && props.poolMin.Some? && props.poolAcquireIncrement.Some? && props.poolMax.Some?)
    ensures r.1 == Vetoed <==> current.None? && !driverAccepted
    ensures current.None? && driverAccepted ==>
              r.0.value.driverClass == props.driver && r.0.value.jdbcUrl == props.url &&
              r.0.value.user == props.user && r.0.value.password == props.password
  {
    if current.Some? then (current, Initialized)
    else if !driverAccepted then (Some(FreshPool), Vetoed)
    else
      var c := FreshPool.(driverClass := props.driver, jdbcUrl := props.url, user := props.user, password := props.password);
      if props.poolMin.None? then (Some(c), InitUncaught(NumberFormat))
      else
        var c := c.(minPoolSize := props.poolMin);
        if props.poolAcquireIncrement.None? then (Some(c), InitUncaught(NumberFormat))
        else
          var c := c.(acquireIncrement := props.poolAcquireIncrement);
          if props.poolMax.None? then (Some(c), InitUncaught(NumberFormat))
          else (Some(c.(maxPoolSize := props.poolMax)), Initialized)
  }

  /** The static field `dataSource`, shared by every client of the process. */
  class DataSourceSlot {
    var dataSource: Option<PoolConfig>

    constructor ()
      ensures dataSource == None
    {
      dataSource := None;
    }
  }

  method Init(slot: DataSourceSlot, props: Props, driverAccepted: bool) returns (outcome: InitOutcome)
    modifies slot
    ensures (slot.dataSource, outcome) == InitStep(old(slot.dataSource), props, driverAccepted)
  {
    if slot.dataSource.Some? {
      return Initialized;
    }
    slot.dataSource := Some(FreshPool);
    if !driverAccepted {
      return Vetoed;
    }
    var c := FreshPool.(driverClass := props.driver, jdbcUrl := props.url, user := props.user, password := props.password);
    slot.dataSource := Some(c);
    if props.poolMin.None? {
      return InitUncaught(NumberFormat);
    }
    c := c.(minPoolSize := props.poolMin);
    slot.dataSource := Some(c);
    if props.poolAcquireIncrement.None? {
      return InitUncaught(NumberFormat);
    }
    c := c.(acquireIncrement := props.poolAcquireIncrement);
    slot.dataSource := Some(c);
    if props.poolMax.None? {
      return InitUncaught(NumberFormat);
    }
    slot.dataSource := Some(c.(maxPoolSize := props.poolMax));
    outcome := Initialized;
  }

  // ---------------------------------------------------------------------
  // Statements

  /** A prepared statement: its SQL text and its parameters by 1-based index. */
  datatype Statement = Statement(sql: string, params: map<int, string>)

  /** The parameters 1..|ps|, parameter i being ps[i - 1]. */
  function Bindings(ps: seq<string>): (r: map<int, string>)
    ensures forall i :: i in r <==> 1 <= i <= |ps|
    ensures forall i :: 1 <= i <= |ps| ==> r[i] == ps[i - 1]
    decreases |ps|
  {
    if ps == [] then map[] else Bindings(ps[..|ps| - 1])[|ps| := ps[|ps| - 1]]
  }

  /** Every placeholder of the statement has a parameter, and there is no other parameter. */
  predicate FullyBound(st: Statement) {
    && (forall i :: i in st.params ==> 1 <= i <= Occurrences(st.sql, Placeholder))
    && (forall i :: 1 <= i <= Occurrences(st.sql, Placeholder) ==> i in st.params)
  }

  /** No field name holds a '?', which the server would take for a placeholder. */
  predicate PlainNames(names: seq<string>) {
    forall i :: 0 <= i < |names| ==> Placeholder !in names[i]
  }

  /** "k=?" for every field, in iteration order. */
  function Assignments(values: Entries): (r: seq<string>)
    ensures |r| == |values| && forall i :: 0 <= i < |values| ==> r[i] == values[i].0 + "=?"
  {
    if values == [] then [] else Assignments(values[..|values| - 1]) + [values[|values| - 1].0 + "=?"]
  }

  /** Parameters 1..n are the values in iteration order, parameter n + 1 is the key, and there is no other. */
  function InsertStatement(key: string, values: Entries): (st: Statement)
    ensures forall i :: i in st.params <==> 1 <= i <= |values| + 1
    ensures forall i :: 1 <= i <= |values| ==> st.params[i] == values[i - 1].1
    ensures st.params[|values| + 1] == key
  {
    Statement(InsertHead + CommaTerminated(Assignments(values)) + InsertTail,
              Bindings(Values(values) + [key]))
  }

  /** Bound as insert's statement: the values in iteration order, then the key. */
  function UpdateStatement(key: string, values: Entries): (st: Statement)
    ensures forall i :: i in st.params <==> 1 <= i <= |values| + 1
    ensures forall i :: 1 <= i <= |values| ==> st.params[i] == values[i - 1].1
    ensures st.params[|values| + 1] == key
  {
    Statement(UpdateHead + CommaJoined(Assignments(values)) + ByKey,
              Bindings(Values(values) + [key]))
  }

  /** The column list: * when `fields` is null, else the field names. */
  function ReadStatement(key: string, fields: Option<seq<string>>): (st: Statement)
    ensures st.params == map[1 := key]
  {
    var columns := if fields.None? then "*" else CommaJoined(fields.value);
    Statement(ReadHead + columns + ReadTail, Bindings([key]))
  }

  /** delete prepares a statement with one placeholder and binds nothing to it. */
  function DeleteStatement(key: string): (st: Statement)
    ensures Occurrences(st.sql, Placeholder) == 1
    ensures st.params == map[]
  {
    DeleteTextPlaceholders();
    Statement(DeleteSql, map[])
  }

  lemma {:induction false} AssignmentPlaceholders(values: Entries)
    requires PlainNames(Names(values))
    ensures forall i :: 0 <= i < |values| ==> Occurrences(Assignments(values)[i], Placeholder) == 1
  {
    forall i | 0 <= i < |values|
      ensures Occurrences(Assignments(values)[i], Placeholder) == 1
    {
      assert Placeholder !in Names(values)[i];
      OccurrencesAbsent(values[i].0, Placeholder);
      OccurrencesConcat(values[i].0, "=?", Placeholder);
      assert Occurrences("=?", Placeholder) == 1 by {
        assert "=?"[1..] == "?";
        assert "?"[1..] == "";
      }
    }
  }

  // The placeholders of the fixed text: one in each text that ends a statement.

  lemma InsertTextPlaceholders()
    ensures Occurrences(InsertHead, Placeholder) == 0
    ensures Occurrences(InsertTail, Placeholder) == 1
  {
    OccurrencesAbsent(InsertHead, Placeholder);
    EndsWithOnlyPlaceholder(InsertTail);
  }

  lemma UpdateTextPlaceholders()
    ensures Occurrences(UpdateHead, Placeholder) == 0
    ensures Occurrences(ByKey, Placeholder) == 1
  {
    OccurrencesAbsent(UpdateHead, Placeholder);
    EndsWithOnlyPlaceholder(ByKey);
  }

  lemma ReadTextPlaceholders()
    ensures Occurrences(ReadHead, Placeholder) == 0
    ensures Occurrences(ReadTail, Placeholder) == 1
  {
    OccurrencesAbsent(ReadHead, Placeholder);
    EndsWithOnlyPlaceholder(ReadTail);
  }

  lemma DeleteTextPlaceholders()
    ensures Occurrences(DeleteSql, Placeholder) == 1
  {
    EndsWithOnlyPlaceholder(DeleteSql);
  }

  /** Binding a sequence and then one more parameter. */
  lemma {:induction false} BindingsThenLast(ps: seq<string>, last: string)
    ensures var p := Bindings(ps + [last]);
            && (forall i :: 1 <= i <= |ps| ==> i in p && p[i] == ps[i - 1])
            && |ps| + 1 in p && p[|ps| + 1] == last
  {
    var all := ps + [last];
    assert all[..|all| - 1] == ps;
    assert Bindings(all) == Bindings(ps)[|ps| + 1 := last];
  }

  /** The parameters insert and update bind: the values in iteration order, then the key. */
  lemma ValuesThenKey(values: Entries, key: string)
    ensures var p := Bindings(Values(values) + [key]);
            && (forall i :: 1 <= i <= |values| ==> i in p && p[i] == values[i - 1].1)
            && |values| + 1 in p && p[|values| + 1] == key
  {
    BindingsThenLast(Values(values), key);
  }

  /** A statement bound to as many parameters as it has placeholders is fully bound. */
  lemma BoundByCount(st: Statement, ps: seq<string>)
    requires st.params == Bindings(ps) && Occurrences(st.sql, Placeholder) == |ps|
    ensures FullyBound(st)
  {
  }

  /** insert's SET list is the field assignments followed by "id=?", comma-joined. */
  lemma {:induction false} InsertSetList(values: Entries)
    ensures CommaTerminated(Assignments(values)) + InsertTail == CommaJoined(Assignments(values) + [InsertTail])
  {
    var xs := Assignments(values) + [InsertTail];
    DropTrailingComma(xs);
    assert xs[..|xs| - 1] == Assignments(values);
    assert CommaTerminated(xs) == CommaTerminated(Assignments(values)) + InsertTail + ",";
  }

  /**
   * insert: the SQL is "INSERT INTO usertable SET k1=?,...,kn=?,id=?"; it has
   * n + 1 placeholders, parameter i is the i-th value in iteration order and
   * parameter n + 1 is the key, so the statement is fully bound.
   */
  lemma {:induction false} InsertStatementShape(key: string, values: Entries)
    requires PlainNames(Names(values))
    ensures var st := InsertStatement(key, values);
            && st.sql == InsertHead + CommaJoined(Assignments(values) + [InsertTail])
            && Occurrences(st.sql, Placeholder) == |values| + 1
            && (forall i :: 1 <= i <= |values| ==> i in st.params && st.params[i] == values[i - 1].1)
            && |values| + 1 in st.params && st.params[|values| + 1] == key
            && FullyBound(st)
  {
    var st := InsertStatement(key, values);
    var setList := CommaTerminated(Assignments(values));
    assert st.sql == InsertHead + CommaJoined(Assignments(values) + [InsertTail]) by {
      InsertSetList(values);
    }
    assert Occurrences(st.sql, Placeholder) == |values| + 1 by {
      assert Occurrences(setList, Placeholder) == |values| by {
        AssignmentPlaceholders(values);
        PlaceholdersOfList(Assignments(values), 1);
      }
      InsertTextPlaceholders();
      OccurrencesOfThree(InsertHead, setList, InsertTail, Placeholder);
    }
    BoundByCount(st, Values(values) + [key]);
    ValuesThenKey(values, key);
  }

  /**
   * update: the SQL is "UPDATE usertable SET k1=?,...,kn=? WHERE id=?" and it
   * is bound like insert's, so for non-empty values it is fully bound.
   */
  lemma {:induction false} UpdateStatementShape(key: string, values: Entries)
    requires values != [] && PlainNames(Names(values))
    ensures var st := UpdateStatement(key, values);
            && Occurrences(st.sql, Placeholder) == |values| + 1
            && (forall i :: 1 <= i <= |values| ==> i in st.params && st.params[i] == values[i - 1].1)
            && |values| + 1 in st.params && st.params[|values| + 1] == key
            && FullyBound(st)
  {
    var st := UpdateStatement(key, values);
    var setList := CommaJoined(Assignments(values));
    assert Occurrences(st.sql, Placeholder) == |values| + 1 by {
      assert Occurrences(setList, Placeholder) == |values| by {
        AssignmentPlaceholders(values);
        PlaceholdersOfJoined(Assignments(values), 1);
      }
      UpdateTextPlaceholders();
      OccurrencesOfThree(UpdateHead, setList, ByKey, Placeholder);
    }
    BoundByCount(st, Values(values) + [key]);
    ValuesThenKey(values, key);
  }

  /** read: one placeholder, bound to the key, whether it selects * or named fields. */
  lemma {:induction false} ReadStatementShape(key: string, fields: Option<seq<string>>)
    requires fields.Some? ==> PlainNames(fields.value)
    ensures var st := ReadStatement(key, fields);
            && Occurrences(st.sql, Placeholder) == 1
            && st.params == map[1 := key]
            && FullyBound(st)
  {
    var st := ReadStatement(key, fields);
    var columns := if fields.None? then "*" else CommaJoined(fields.value);
    assert Occurrences(st.sql, Placeholder) == 1 by {
      assert Occurrences(columns, Placeholder) == 0 by {
        if fields.Some? && fields.value != [] {
          forall i | 0 <= i < |fields.value|
            ensures Occurrences(fields.value[i], Placeholder) == 0
          {
            OccurrencesAbsent(fields.value[i], Placeholder);
          }
          PlaceholdersOfJoined(fields.value, 0);
        } else {
          OccurrencesAbsent(columns, Placeholder);
        }
      }
      ReadTextPlaceholders();
      OccurrencesOfThree(ReadHead, columns, ReadTail, Placeholder);
    }
    BoundByCount(st, [key]);
    assert Bindings([key]) == map[1 := key];
  }

  // ---------------------------------------------------------------------
  // Building statements, as the source does with StringBuilder and arrays

  /** insert's loops: append "k=?," per field while filling `vals`, then bind. */
  method PrepareInsert(key: string, values: Entries) returns (st: Statement)
    ensures st == InsertStatement(key, values)
  {
    var sb: string, vals := SetClause(values);
    var sql := InsertHead + sb + InsertTail;
    var params := BindAll(vals, key);
    st := Statement(sql, params);
  }

  /**
   * update's loops: the same clause with its trailing comma cut off;
   * setLength(-1) raises StringIndexOutOfBoundsException when there are no values.
   */
  method PrepareUpdate(key: string, values: Entries) returns (st: Option<Statement>)
    ensures values == [] <==> st.None?
    ensures st.Some? ==> st.value == UpdateStatement(key, values)
  {
    var sb: string, vals := SetClause(values);
    if values != [] {
      DropTrailingComma(Assignments(values));
    }
    if |sb| == 0 {
      return None;
    }
    sb := sb[..|sb| - 1];
    var sql := UpdateHead + sb + ByKey;
    var params := BindAll(vals, key);
    st := Some(Statement(sql, params));
  }

  /** read's loop: the field names each followed by ',', then the last ',' cut off. */
  method PrepareRead(key: string, fields: Option<seq<string>>) returns (st: Option<Statement>)
    ensures st.None? <==> fields == Some([])
    ensures st.Some? ==> st.value == ReadStatement(key, fields)
  {
    var columns: string;
    if fields.Some? {
      columns := "";
      var i := 0;
      while i < |fields.value|
        invariant 0 <= i <= |fields.value|
        invariant columns == CommaTerminated(fields.value[..i])
      {
        assert fields.value[..i + 1][..i] == fields.value[..i];
        columns := columns + fields.value[i] + ",";
        i := i + 1;
      }
      assert fields.value[..i] == fields.value;
      if |columns| == 0 {
        return None;
      }
      DropTrailingComma(fields.value);
      columns := columns[..|columns| - 1];
    } else {
      columns := "*";
    }
    st := Some(Statement(ReadHead + columns + ReadTail, map[1 := key]));
  }

  /** The first `i` assignments, each followed by a comma: the StringBuilder after `i` rounds. */
  function SetListPrefix(values: Entries, i: nat): string
    requires i <= |values|
  {
    if i == 0 then "" else SetListPrefix(values, i - 1) + values[i - 1].0 + "=?,"
  }

  lemma {:induction false} SetListPrefixComplete(values: Entries, i: nat)
    requires i <= |values|
    ensures SetListPrefix(values, i) == CommaTerminated(Assignments(values[..i]))
  {
    if i > 0 {
      SetListPrefixComplete(values, i - 1);
      var a := Assignments(values[..i]);
      assert values[..i][..i - 1] == values[..i - 1];
      assert a[..|a| - 1] == Assignments(values[..i - 1]);
      assert CommaTerminated(a) == CommaTerminated(Assignments(values[..i - 1])) + (values[i - 1].0 + "=?") + ",";
    }
  }

  /** The loop shared by insert and update: "k=?," per field, and the values in order. */
  method SetClause(values: Entries) returns (sb: string, vals: seq<string>)
    ensures sb == CommaTerminated(Assignments(values))
    ensures vals == Values(values)
  {
    sb := "";
    var arr := new string[|values|];
    var i := 0;
    while i < |values|
      invariant 0 <= i <= |values|
      invariant sb == SetListPrefix(values, i)
      invariant forall j :: 0 <= j < i ==> arr[j] == values[j].1
    {
      sb := sb + values[i].0 + "=?,";
      arr[i] := values[i].1;
      i := i + 1;
    }
    vals := arr[..];
    SetListPrefixComplete(values, i);
    assert values[..i] == values;
  }

  /** setString(i, vals[i - 1]) for i = 1..n, then setString(n + 1, key). */
  method BindAll(vals: seq<string>, key: string) returns (params: map<int, string>)
    ensures params == Bindings(vals + [key])
  {
    params := map[];
    var i := 1;
    while i <= |vals|
      invariant 1 <= i <= |vals| + 1
      invariant params == Bindings(vals[..i - 1])
    {
      assert vals[..i][..i - 1] == vals[..i - 1];
      params := params[i := vals[i - 1]];
      i := i + 1;
    }
    assert vals[..i - 1] == vals == (vals + [key])[..|vals|];
    params := params[i := key];
  }

  // ---------------------------------------------------------------------
  // JDBC and the operations

  /** A result row: (column label, value) in column order. */
  type Row = Entries

  /** What execute() produces: an SQLException, an update count (execute() is false), or a result set. */
  datatype QueryOutcome = QueryRaised | UpdateCount | ResultSet(rows: seq<Row>)

  /**
   * The database as the adapter sees it: whether getConnection succeeds, the
   * rows executeUpdate reports for a fully bound statement (None: SQLException),
   * and what execute produces for one.
   */
  datatype Jdbc = Jdbc(
    connects: bool,
    executeUpdate: Statement -> Option<int>,
    execute: Statement -> QueryOutcome)

  /** executeUpdate: a statement with an unbound or extra parameter raises before it reaches the server. */
  function RunUpdate(db: Jdbc, st: Statement): (rows: Option<int>)
    ensures !FullyBound(st) ==> rows.None?
    ensures FullyBound(st) ==> rows == db.executeUpdate(st)
  {
    if FullyBound(st) then db.executeUpdate(st) else None
  }

  /** execute: the same refusal of a statement that is not fully bound. */
  function RunQuery(db: Jdbc, st: Statement): (outcome: QueryOutcome)
    ensures !FullyBound(st) ==> outcome == QueryRaised
    ensures FullyBound(st) ==> outcome == db.execute(st)
  {
    if FullyBound(st) then db.execute(st) else QueryRaised
  }

  /** rowsAffected > 0 ? 0 : 1, where an SQLException leaves rowsAffected at 0. */
  function WriteStatus(rowsAffected: Option<int>): (s: Status)
    ensures s.Ok? <==> rowsAffected.Some? && rowsAffected.value > 0
    ensures s.Ok? || s.Failed?
    ensures s.Code() == if rowsAffected.Some? && rowsAffected.value > 0 then 0 else 1
  {
    if rowsAffected.Some? && rowsAffected.value > 0 then Ok else Failed
  }

  /** ResultSet.getString(label): the value of the first column carrying `column`. */
  function ColumnValue(row: Row, column: string): (v: Option<string>)
    ensures v.Some? <==> exists i :: 0 <= i < |row| && row[i].0 == column
    ensures v.Some? ==> (column, v.value) in row
    decreases |row|
  {
    if row == [] then None
    else if row[0].0 == column then Some(row[0].1)
    else ColumnValue(row[1..], column)
  }

  /** The labels of the first `n` columns. */
  function LabelsUpTo(row: Row, n: int): set<string>
    requires 0 <= n <= |row|
  {
    set i | 0 <= i < n :: row[i].0
  }

  function Labels(row: Row): set<string> {
    LabelsUpTo(row, |row|)
  }

  lemma {:induction false} ColumnValueFound(row: Row, i: int)
    requires 0 <= i < |row|
    ensures ColumnValue(row, row[i].0).Some?
    ensures DistinctKeys(row) ==> ColumnValue(row, row[i].0) == Some(row[i].1)
    decreases |row|
  {
    if i > 0 && row[0].0 != row[i].0 {
      ColumnValueFound(row[1..], i - 1);
      assert DistinctKeys(row) ==> DistinctKeys(row[1..]);
    }
  }

  lemma LabelsSnoc(row: Row, i: int)
    requires 0 <= i < |row|
    ensures LabelsUpTo(row, i + 1) == LabelsUpTo(row, i) + {row[i].0}
  {
  }

  /** `copied` is `result` with the first `n` columns of `row` put into it. */
  ghost predicate CopiedUpTo(row: Row, result: Record, copied: Record, n: int)
    requires 0 <= n <= |row|
  {
    && copied.Keys == result.Keys + LabelsUpTo(row, n)
    && ColumnsCopied(row, copied, n)
    && OthersKept(row, result, copied, n)
  }

  ghost predicate ColumnsCopied(row: Row, copied: Record, n: int)
    requires 0 <= n <= |row|
  {
    forall j :: 0 <= j < n ==> row[j].0 in copied && Some(copied[row[j].0]) == ColumnValue(row, row[j].0)
  }

  ghost predicate OthersKept(row: Row, result: Record, copied: Record, n: int)
    requires 0 <= n <= |row|
  {
    forall k :: k in result && k !in LabelsUpTo(row, n) ==> k in copied && copied[k] == result[k]
  }

  lemma ColumnsCopiedStep(row: Row, copied: Record, i: int)
    requires 0 <= i < |row| && ColumnsCopied(row, copied, i)
    ensures ColumnValue(row, row[i].0).Some?
    ensures ColumnsCopied(row, copied[row[i].0 := ColumnValue(row, row[i].0).value], i + 1)
  {
    ColumnValueFound(row, i);
    var k := row[i].0;
    var next := copied[k := ColumnValue(row, k).value];
    forall j | 0 <= j < i + 1
      ensures row[j].0 in next && Some(next[row[j].0]) == ColumnValue(row, row[j].0)
    {
      if row[j].0 != k {
        assert j < i;
      }
    }
  }

  lemma OthersKeptStep(row: Row, result: Record, copied: Record, i: int, v: string)
    requires 0 <= i < |row| && OthersKept(row, result, copied, i)
    ensures OthersKept(row, result, copied[row[i].0 := v], i + 1)
  {
    LabelsSnoc(row, i);
  }

  lemma CopiedStep(row: Row, result: Record, copied: Record, i: int)
    requires 0 <= i < |row| && CopiedUpTo(row, result, copied, i)
    ensures ColumnValue(row, row[i].0).Some?
    ensures CopiedUpTo(row, result, copied[row[i].0 := ColumnValue(row, row[i].0).value], i + 1)
  {
    ColumnsCopiedStep(row, copied, i);
    OthersKeptStep(row, result, copied, i, ColumnValue(row, row[i].0).value);
    LabelsSnoc(row, i);
  }

  /** read's column loop: put every column of the row into `result`, by label. */
  method CopyRow(row: Row, result: Record) returns (newResult: Record)
    ensures newResult.Keys == result.Keys + Labels(row)
    ensures forall i :: 0 <= i < |row| ==> Some(newResult[row[i].0]) == ColumnValue(row, row[i].0)
    ensures forall k :: k in result && k !in Labels(row) ==> newResult[k] == result[k]
  {
    newResult := result;
    var i := 0;
    while i < |row|
      invariant 0 <= i <= |row|
      invariant CopiedUpTo(row, result, newResult, i)
    {
      CopiedStep(row, result, newResult, i);
      var k := row[i].0;
      newResult := newResult[k := ColumnValue(row, k).value];
      i := i + 1;
    }
  }

  /** insert: `table` is not consulted. */
  method Insert(slot: DataSourceSlot, db: Jdbc, table: string, key: string, values: Entries)
    returns (status: Status)
    ensures slot.dataSource.None? ==> status == Uncaught(NullPointer)
    ensures slot.dataSource.Some? && !db.connects ==> status == Failed
    ensures slot.dataSource.Some? && db.connects ==> status == WriteStatus(RunUpdate(db, InsertStatement(key, values)))
  {
    if slot.dataSource.None? {
      return Uncaught(NullPointer);
    }
    if !db.connects {
      return Failed;
    }
    var st := PrepareInsert(key, values);
    status := WriteStatus(RunUpdate(db, st));
  }

  /** update: the SET clause is built before a connection is requested. */
  method Update(slot: DataSourceSlot, db: Jdbc, table: string, key: string, values: Entries)
    returns (status: Status)
    ensures values == [] ==> status == Uncaught(StringIndexOutOfBounds)
    ensures values != [] && slot.dataSource.None? ==> status == Uncaught(NullPointer)
    ensures values != [] && slot.dataSource.Some? && !db.connects ==> status == Failed
    ensures values != [] && slot.dataSource.Some? && db.connects ==>
              status == WriteStatus(RunUpdate(db, UpdateStatement(key, values)))
  {
    var st := PrepareUpdate(key, values);
    if st.None? {
      return Uncaught(StringIndexOutOfBounds);
    }
    if slot.dataSource.None? {
      return Uncaught(NullPointer);
    }
    if !db.connects {
      return Failed;
    }
    status := WriteStatus(RunUpdate(db, st.value));
  }

  /**
   * read: `fields` is None for null.  The status is 0 exactly when execute()
   * returned true; a false execute() leaves no result set, and rs.next() on
   * null raises NullPointerException.
   */
  method Read(slot: DataSourceSlot, db: Jdbc, table: string, key: string, fields: Option<seq<string>>, result: Record)
    returns (status: Status, newResult: Record)
    ensures slot.dataSource.None? ==> status == Uncaught(NullPointer) && newResult == result
    ensures slot.dataSource.Some? && !db.connects ==> status == Failed && newResult == result
    ensures slot.dataSource.Some? && db.connects && fields == Some([]) ==>
              status == Uncaught(StringIndexOutOfBounds) && newResult == result
    ensures slot.dataSource.Some? && db.connects && fields != Some([]) ==>
              match RunQuery(db, ReadStatement(key, fields))
              case QueryRaised => status == Failed && newResult == result
              case UpdateCount => status == Uncaught(NullPointer) && newResult == result
              case ResultSet(rows) =>
                && status == Ok
                && (rows == [] ==> newResult == result)
                && (rows != [] ==>
                      && newResult.Keys == result.Keys + Labels(rows[0])
                      && (forall i :: 0 <= i < |rows[0]| ==>
                            Some(newResult[rows[0][i].0]) == ColumnValue(rows[0], rows[0][i].0))
                      && (forall k :: k in result && k !in Labels(rows[0]) ==> newResult[k] == result[k]))
  {
    newResult := result;
    if slot.dataSource.None? {
      return Uncaught(NullPointer), result;
    }
    if !db.connects {
      return Failed, result;
    }
    var st := PrepareRead(key, fields);
    if st.None? {
      return Uncaught(StringIndexOutOfBounds), result;
    }
    var outcome := RunQuery(db, st.value);
    match outcome
    case QueryRaised =>
      status := Failed;
    case UpdateCount =>
      status := Uncaught(NullPointer);
    case ResultSet(rows) =>
      if rows != [] {
        newResult := CopyRow(rows[0], result);
      }
      status := Ok;
  }

  /** delete: `table` is not consulted, and the key is never bound. */
  method Delete(slot: DataSourceSlot, db: Jdbc, table: string, key: string) returns (status: Status)
    ensures slot.dataSource.None? ==> status == Uncaught(NullPointer)
    ensures slot.dataSource.Some? && !db.connects ==> status == Failed
    ensures slot.dataSource.Some? && db.connects ==> status == WriteStatus(RunUpdate(db, DeleteStatement(key)))
  {
    if slot.dataSource.None? {
      return Uncaught(NullPointer);
    }
    if !db.connects {
      return Failed;
    }
    status := WriteStatus(RunUpdate(db, DeleteStatement(key)));
  }

  /** scan is not supported. */
  method Scan(table: string, startKey: string, recordCount: int, fields: Option<seq<string>>) returns (status: Status)
    ensures status == Unsupported
  {
    status := Unsupported;
  }

  // ---------------------------------------------------------------------
  // Properties

  /** init configures the pool once: a later init leaves it as it is, whatever its properties. */
  lemma InitOnlyOnce(current: PoolConfig, props: Props, driverAccepted: bool)
    ensures InitStep(Some(current), props, driverAccepted) == (Some(current), Initialized)
  {
  }

  lemma RepeatedInitKeepsFirst(props1: Props, accepted1: bool, props2: Props, accepted2: bool)
    ensures var first := InitStep(None, props1, accepted1).0;
            first.Some? && InitStep(first, props2, accepted2).0 == first
  {
  }

  /** With every property present and the driver accepted, init configures all seven settings. */
  lemma FullInit(props: Props)
    requires props.poolMin.Some? && props.poolAcquireIncrement.Some? && props.poolMax.Some?
    ensures InitStep(None, props, true) ==
              (Some(PoolConfig(props.driver, props.url, props.user, props.password,
                               props.poolMin, props.poolAcquireIncrement, props.poolMax)), Initialized)
  {
  }

  /**
   * A missing mysql.pool.min makes the first init raise, yet leaves a pool
   * without pool sizes that every later init accepts as it is.
   */
  lemma MissingPoolMin(props: Props, later: Props, laterAccepted: bool)
    requires props.poolMin.None?
    ensures var (pool, outcome) := InitStep(None, props, true);
            && outcome == InitUncaught(NumberFormat)
            && pool.Some? && pool.value.minPoolSize.None? && pool.value.maxPoolSize.None?
            && InitStep(pool, later, laterAccepted) == (pool, Initialized)
  {
  }

  /** insert succeeds exactly when the server reports an affected row for the statement it is given. */
  lemma InsertStatus(db: Jdbc, key: string, values: Entries)
    requires PlainNames(Names(values))
    ensures var st := InsertStatement(key, values);
            WriteStatus(RunUpdate(db, st)).Ok? <==> db.executeUpdate(st).Some? && db.executeUpdate(st).value > 0
  {
    InsertStatementShape(key, values);
  }

  lemma UpdateStatus(db: Jdbc, key: string, values: Entries)
    requires values != [] && PlainNames(Names(values))
    ensures var st := UpdateStatement(key, values);
            WriteStatus(RunUpdate(db, st)).Ok? <==> db.executeUpdate(st).Some? && db.executeUpdate(st).value > 0
  {
    UpdateStatementShape(key, values);
  }

  /** delete's statement has a placeholder and no parameter, so the driver refuses it: delete never succeeds. */
  lemma {:induction false} DeleteAlwaysFails(db: Jdbc, key: string)
    ensures !FullyBound(DeleteStatement(key))
    ensures WriteStatus(RunUpdate(db, DeleteStatement(key))) == Failed
  {
    DeleteTextPlaceholders();
    assert 1 !in DeleteStatement(key).params;
  }

  /** delete as intended: the key bound to the one placeholder. */
  function DeleteStatementFixed(key: string): Statement {
    Statement(DeleteSql, map[1 := key])
  }

  lemma {:induction false} DeleteStatementFixedBound(key: string)
    ensures FullyBound(DeleteStatementFixed(key))
  {
    DeleteTextPlaceholders();
    var params := DeleteStatementFixed(key).params;
    assert forall i :: i in params <==> i == 1;
  }

  /** delete with the key bound: it succeeds exactly when the server reports a removed row. */
  method DeleteFixed(slot: DataSourceSlot, db: Jdbc, table: string, key: string) returns (status: Status)
    ensures slot.dataSource.None? ==> status == Uncaught(NullPointer)
    ensures slot.dataSource.Some? && !db.connects ==> status == Failed
    ensures slot.dataSource.Some? && db.connects ==>
              (status == Ok <==> db.executeUpdate(DeleteStatementFixed(key)).Some?
                                 && db.executeUpdate(DeleteStatementFixed(key)).value > 0)
  {
    if slot.dataSource.None? {
      return Uncaught(NullPointer);
    }
    if !db.connects {
      return Failed;
    }
    DeleteStatementFixedBound(key);
    status := WriteStatus(RunUpdate(db, DeleteStatementFixed(key)));
  }
}
