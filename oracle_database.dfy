/**
 * The Oracle database wrapper (chain/sql/oracle/OracleDatabase.java): which
 * tables the chains may use, the CREATE TABLE text that describes them to the
 * language model, and the text rendering of a statement's result.
 *
 * The JDBC layer is replaced by plain records: the catalog is the sequence of
 * rows DatabaseMetaData.getTables reports (each with the rows getColumns
 * reports for its name), and executing a statement yields an Execution.
 */
module OracleDb {
  import opened Common

  /** One row of DatabaseMetaData.getColumns. `nullable` is the NULLABLE code: 0 means NOT NULL. */
  datatype Column = Column(
    name: string,
    typeName: string,
    size: int,
    decimalDigits: int,
    nullable: int,
    defaultValue: Option<string>,
    remarks: Option<string>)

  /** One row of DatabaseMetaData.getTables, with the columns reported for that table. */
  datatype TableMeta = TableMeta(name: string, remarks: Option<string>, columns: seq<Column>)

  /**
   * What Statement.execute leaves behind: a result set (its column labels and
   * its rows, a null cell as None), an update count, or an SQLException.
   */
  datatype Execution =
    | ResultRows(columnNames: seq<string>, rows: seq<seq<Option<string>>>)
    | UpdateCount(count: int)
    | Failed(message: string)

  /** An open JDBC connection: its catalog, its product name and its statement executor. */
  datatype Connection = Connection(catalog: seq<TableMeta>, productName: string, execute: string -> Execution)

  const BOTH_LISTS_MESSAGE: string := "Cannot specify both includeTables and ignoreTables"

  // ---------------------------------------------------------------------
  // Lists and catalog lookups

  /** Collection.removeAll: drops every element equal to one of `drop`, keeping the order of the rest. */
  function RemoveAll(xs: seq<string>, drop: seq<string>): (r: seq<string>)
    ensures |r| <= |xs|
    ensures forall x :: x in r <==> x in xs && x !in drop
    ensures Subsequence(r, xs)
    ensures forall x :: multiset(r)[x] == if x in drop then 0 else multiset(xs)[x]
    decreases |xs|
  {
    if xs == [] then []
    else
      var rest := RemoveAll(xs[1..], drop);
      assert xs == [xs[0]] + xs[1..];
      assert multiset(xs) == multiset{xs[0]} + multiset(xs[1..]);
      SubsequenceCons(rest, xs[1..], xs[0]);
      if xs[0] in drop then rest
      else
        assert multiset([xs[0]] + rest) == multiset{xs[0]} + multiset(rest);
        [xs[0]] + rest
  }

  /** Removing nothing keeps the list as it is. */
  lemma {:induction false} RemoveNothing(xs: seq<string>)
    ensures RemoveAll(xs, []) == xs
    decreases |xs|
  {
    if xs != [] {
      RemoveNothing(xs[1..]);
      assert xs == [xs[0]] + xs[1..];
    }
  }

  /** Removing a superset of the elements leaves nothing. */
  lemma {:induction false} RemoveAllCovered(xs: seq<string>, drop: seq<string>)
    requires forall x | x in xs :: x in drop
    ensures RemoveAll(xs, drop) == []
    decreases |xs|
  {
    if xs != [] {
      assert xs[0] in xs;
      RemoveAllCovered(xs[1..], drop);
    }
  }

  /** The TABLE_NAME column of the catalog, in metadata order. */
  function TableNames(catalog: seq<TableMeta>): seq<string>
  {
    seq(|catalog|, i requires 0 <= i < |catalog| => catalog[i].name)
  }

  /** The rows getTables reports for a given table name (the pattern is taken as an exact name). */
  function MatchingTables(catalog: seq<TableMeta>, tableName: string): seq<TableMeta>
    decreases |catalog|
  {
    if catalog == [] then []
    else if catalog[|catalog| - 1].name == tableName then
      MatchingTables(catalog[..|catalog| - 1], tableName) + [catalog[|catalog| - 1]]
    else MatchingTables(catalog[..|catalog| - 1], tableName)
  }

  /** The rows getColumns reports for a given table name: the columns of every table of that name. */
  function ColumnsOf(tables: seq<TableMeta>): seq<Column>
    decreases |tables|
  {
    if tables == [] then [] else ColumnsOf(tables[..|tables| - 1]) + tables[|tables| - 1].columns
  }

  lemma {:induction false} MatchingTablesNamed(catalog: seq<TableMeta>, tableName: string)
    ensures forall m | m in MatchingTables(catalog, tableName) :: m.name == tableName && m in catalog
    ensures tableName !in TableNames(catalog) ==> MatchingTables(catalog, tableName) == []
    decreases |catalog|
  {
    if catalog != [] {
      var init := catalog[..|catalog| - 1];
      MatchingTablesNamed(init, tableName);
      assert TableNames(init) == TableNames(catalog)[..|catalog| - 1];
      assert forall m | m in init :: m in catalog;
      if tableName !in TableNames(catalog) {
        assert catalog[|catalog| - 1].name == TableNames(catalog)[|catalog| - 1];
      }
    }
  }

  // ---------------------------------------------------------------------
  // CREATE TABLE text

  /** The "(size[,digits])" part of a column definition. */
  function SizeText(c: Column): string
  {
    if c.size > 0 then
      "(" + IntToString(c.size) + (if c.decimalDigits > 0 then "," + IntToString(c.decimalDigits) else "") + ")"
    else ""
  }

  /** One column of the CREATE TABLE text, without its separating comma. */
  function ColumnDefinition(c: Column): string
  {
    "\n\t" + c.name + " " + c.typeName + SizeText(c)
    + (if c.nullable == 0 then " NOT NULL" else "")
    + (if c.defaultValue.Some? then " DEFAULT " + c.defaultValue.value else "")
    + (if IsNotEmpty(c.remarks) then " COMMENT '" + c.remarks.value + "'" else "")
  }

  /** What the column loop appends: every definition followed by a comma. */
  function ColumnList(cols: seq<Column>): string
    decreases |cols|
  {
    if cols == [] then "" else ColumnList(cols[..|cols| - 1]) + ColumnDefinition(cols[|cols| - 1]) + ","
  }

  /** The check that deletes the builder's last character when it is a comma. */
  function DropLastComma(s: string): string
  {
    if s != [] && s[|s| - 1] == ',' then s[..|s| - 1] else s
  }

  /** The closing line, with the table's remarks as a comment when there are any. */
  function TableClose(remarks: Option<string>): string
  {
    if IsNotEmpty(remarks) then "\n) COMMENT '" + remarks.value + "'\n\n" else "\n)\n\n"
  }

  function CreateTableHead(tableName: string): string
  {
    "\nCREATE TABLE " + tableName + " ("
  }

  /** The text the outer loop of getTableDdl appends for one catalog row. */
  function TableBlock(tableName: string, cols: seq<Column>, remarks: Option<string>): string
  {
    CreateTableHead(tableName) + DropLastComma(ColumnList(cols)) + TableClose(remarks)
  }

  /** One block per catalog row of that name, each listing the columns reported for the name. */
  function DdlBlocks(tables: seq<TableMeta>, tableName: string, cols: seq<Column>): string
    decreases |tables|
  {
    if tables == [] then ""
    else DdlBlocks(tables[..|tables| - 1], tableName, cols) + TableBlock(tableName, cols, tables[|tables| - 1].remarks)
  }

  function ColumnDefinitions(cols: seq<Column>): seq<string>
  {
    seq(|cols|, i requires 0 <= i < |cols| => ColumnDefinition(cols[i]))
  }

  lemma ColumnListEnd(cols: seq<Column>)
    ensures cols == [] ==> ColumnList(cols) == ""
    ensures cols != [] ==> ColumnList(cols) != [] && ColumnList(cols)[|ColumnList(cols)| - 1] == ','
  {
  }

  /**
   * Removing the last comma leaves the column definitions separated by
   * commas: exactly String.join(",", definitions), with no trailing comma.
   */
  lemma {:induction false} ColumnListJoined(cols: seq<Column>)
    ensures DropLastComma(ColumnList(cols)) == Join(",", ColumnDefinitions(cols))
    decreases |cols|
  {
    if cols != [] {
      var init := cols[..|cols| - 1];
      var last := ColumnDefinition(cols[|cols| - 1]);
      assert ColumnDefinitions(cols) == ColumnDefinitions(init) + [last];
      var whole := ColumnList(init) + last + ",";
      assert DropLastComma(whole) == ColumnList(init) + last by {
        assert whole[..|whole| - 1] == ColumnList(init) + last;
      }
      if init == [] {
        assert ColumnDefinitions(cols) == [last];
      } else {
        ColumnListJoined(init);
        ColumnListEnd(init);
        var l := ColumnList(init);
        assert l == DropLastComma(l) + ",";
        JoinSnoc(",", ColumnDefinitions(init), last);
      }
    }
  }

  /** The appends of getTableDdl's inner loop for one column. */
  method AppendColumn(builder: string, c: Column) returns (b: string)
    ensures b == builder + ColumnDefinition(c) + ","
  {
    b := builder + "\n\t" + c.name + " " + c.typeName;
    assert b == builder + ("\n\t" + c.name + " " + c.typeName);
    if c.size > 0 {
      b := b + "(" + IntToString(c.size);
      if c.decimalDigits > 0 {
        b := b + "," + IntToString(c.decimalDigits);
      }
      b := b + ")";
    }
    ghost var d0 := "\n\t" + c.name + " " + c.typeName + SizeText(c);
    assert b == builder + d0;
    if c.nullable == 0 {
      b := b + " NOT NULL";
    }
    ghost var d1 := d0 + (if c.nullable == 0 then " NOT NULL" else "");
    assert b == builder + d1 by {
      if c.nullable == 0 { Regroup(builder, d0, " NOT NULL", d1); } else { assert d1 == d0; }
    }
    ghost var text := if c.defaultValue.Some? then " DEFAULT " + c.defaultValue.value else "";
    if c.defaultValue.Some? {
      b := b + " DEFAULT " + c.defaultValue.value;
    }
    ghost var d2 := d1 + text;
    assert b == builder + d2 by {
      if c.defaultValue.Some? {
        Regroup(builder + d1, " DEFAULT ", c.defaultValue.value, text);
        Regroup(builder, d1, text, d2);
      } else { assert d2 == d1; }
    }
    text := if IsNotEmpty(c.remarks) then " COMMENT '" + c.remarks.value + "'" else "";
    if IsNotEmpty(c.remarks) {
      b := b + " COMMENT '" + c.remarks.value + "'";
    }
    ghost var d := d2 + text;
    assert b == builder + d by {
      if IsNotEmpty(c.remarks) {
        Regroup(builder + d2, " COMMENT '", c.remarks.value, " COMMENT '" + c.remarks.value);
        Regroup(builder + d2, " COMMENT '" + c.remarks.value, "'", text);
        Regroup(builder, d2, text, d);
      } else { assert d == d2; }
    }
    assert d == ColumnDefinition(c);
    b := b + ",";
  }

  /** The loop of getTableDdl over the getColumns rows. */
  method AppendColumns(builder: string, columns: seq<Column>) returns (b: string)
    ensures b == builder + ColumnList(columns)
  {
    b := builder;
    for j := 0 to |columns|
      invariant b == builder + ColumnList(columns[..j])
    {
      ghost var list := ColumnList(columns[..j]);
      assert columns[..j + 1][..j] == columns[..j];
      assert ColumnList(columns[..j + 1]) == list + ColumnDefinition(columns[j]) + ",";
      Regroup(builder, list, ColumnDefinition(columns[j]), list + ColumnDefinition(columns[j]));
      Regroup(builder, list + ColumnDefinition(columns[j]), ",", ColumnList(columns[..j + 1]));
      b := AppendColumn(b, columns[j]);
    }
    assert columns[..|columns|] == columns;
  }

  /** One iteration of getTableDdl's outer loop: head, columns, last comma removed, closing line. */
  method AppendTable(builder: string, tableName: string, columns: seq<Column>, remarks: Option<string>)
    returns (b: string)
    ensures b == builder + TableBlock(tableName, columns, remarks)
  {
    b := builder + "\nCREATE TABLE " + tableName + " (";
    ghost var start := b;
    assert start == builder + CreateTableHead(tableName);
    b := AppendColumns(b, columns);
    ColumnListEnd(columns);
    ghost var list := ColumnList(columns);
    if b[|b| - 1] == ',' {
      assert list != [];
      assert b[..|b| - 1] == start + list[..|list| - 1];
      b := b[..|b| - 1];
    } else {
      assert list == [];
      assert b == start + list;
    }
    assert b == start + DropLastComma(list);
    ghost var body := DropLastComma(list);
    Regroup(builder, CreateTableHead(tableName), body, CreateTableHead(tableName) + body);
    if IsNotEmpty(remarks) {
      b := b + "\n) COMMENT '" + remarks.value + "'\n\n";
    } else {
      b := b + "\n)\n\n";
    }
    Regroup(builder, CreateTableHead(tableName) + body, TableClose(remarks), TableBlock(tableName, columns, remarks));
  }

  lemma EndsWithCommentClose(p: string, middle: string)
    ensures var d := p + middle + "*/"; |d| >= |p| + 2 && d[..|p|] == p && d[|d| - 2..] == "*/"
  {
    var d := p + middle + "*/";
    assert d == p + (middle + "*/");
  }

  lemma SingleTableBlock(tableName: string, table: TableMeta)
    ensures ColumnsOf([table]) == table.columns
    ensures DdlBlocks([table], tableName, table.columns) == TableBlock(tableName, table.columns, table.remarks)
  {
    assert [table][..0] == [];
  }

  lemma StripAfterClose(body: string, remarks: Option<string>)
    ensures var block := body + TableClose(remarks);
      StripTrailingNewlines(block) == block[..|block| - 2]
  {
    var block := body + TableClose(remarks);
    var closed := block[..|block| - 2];
    assert block == closed + "\n\n";
    assert closed[|closed| - 1] != '\n';
    assert block[..|block| - 1] == closed + "\n";
    assert block[..|block| - 1][..|block| - 2] == closed;
  }

  // ---------------------------------------------------------------------
  // Statement results

  /** String.join("\t", row), a null cell written "null". */
  function RowLine(row: seq<Option<string>>): string
  {
    Join("\t", seq(|row|, i requires 0 <= i < |row| => JavaString(row[i])))
  }

  function RowLines(rows: seq<seq<Option<string>>>): seq<string>
  {
    seq(|rows|, i requires 0 <= i < |rows| => RowLine(rows[i]))
  }

  function Header(columnNames: seq<string>, includeColumnName: bool): string
  {
    if includeColumnName then Join("\t", columnNames) + "\n" else ""
  }

  /** A Join ends with its last part. */
  lemma JoinEndsWithLast(sep: string, parts: seq<string>)
    requires parts != []
    ensures var j := Join(sep, parts); var p := parts[|parts| - 1];
      |p| <= |j| && j[|j| - |p|..] == p
  {
    var p := parts[|parts| - 1];
    if |parts| > 1 {
      var init := parts[..|parts| - 1];
      assert parts == init + [p];
      JoinSnoc(sep, init, p);
    }
  }

  // ---------------------------------------------------------------------
  // The database

  /** Applies f to each name in order; the first failure is the result. */
  function AllOk(f: string -> Result<string>, names: seq<string>): Result<seq<string>>
    decreases |names|
  {
    if names == [] then Ok([])
    else
      match AllOk(f, names[..|names| - 1])
      case Err(e) => Err(e)
      case Ok(results) =>
        match f(names[|names| - 1])
        case Err(e) => Err(e)
        case Ok(x) => Ok(results + [x])
  }

  /** A success holds one result per name, each that name's own. */
  lemma {:induction false} AllOkPerName(f: string -> Result<string>, names: seq<string>)
    requires AllOk(f, names).Ok?
    ensures var rs := AllOk(f, names).value;
      |rs| == |names| && forall i | 0 <= i < |names| :: f(names[i]) == Ok(rs[i])
    decreases |names|
  {
    if names != [] {
      var init := names[..|names| - 1];
      AllOkPerName(f, init);
      var rs := AllOk(f, names).value;
      assert rs[..|init|] == AllOk(f, init).value;
      forall i | 0 <= i < |names|
        ensures f(names[i]) == Ok(rs[i])
      {
        if i < |init| {
          assert names[i] == init[i] && rs[i] == rs[..|init|][i];
        }
      }
    }
  }

  /** A failure is the failure of one of the names. */
  lemma {:induction false} AllOkFailure(f: string -> Result<string>, names: seq<string>)
    requires AllOk(f, names).Err?
    ensures exists i | 0 <= i < |names| :: f(names[i]) == Err(AllOk(f, names).error)
    decreases |names|
  {
    var n := |names|;
    var init := names[..n - 1];
    if AllOk(f, init).Err? {
      AllOkFailure(f, init);
      var i :| 0 <= i < |init| && f(init[i]) == Err(AllOk(f, init).error);
      assert names[i] == init[i];
    } else {
      assert f(names[n - 1]) == Err(AllOk(f, names).error);
    }
  }

  /** A failure among the first k names is the failure of the whole list. */
  lemma {:induction false} FirstFailureStays(f: string -> Result<string>, names: seq<string>, k: nat)
    requires k <= |names| && AllOk(f, names[..k]).Err?
    ensures AllOk(f, names) == AllOk(f, names[..k])
    decreases |names| - k
  {
    if k < |names| {
      assert names[..k + 1][..k] == names[..k];
      FirstFailureStays(f, names, k + 1);
    } else {
      assert names[..k] == names;
    }
  }

  /**
   * An OracleDatabase: an open connection and the table-selection options.
   * A null include or ignore list is the empty sequence: the code only ever
   * asks whether a list is non-empty before using it.
   */
  datatype OracleDatabase = OracleDatabase(
    connection: Connection,
    includeTables: seq<string>,
    ignoreTables: seq<string>,
    sampleRowsInTableInfo: int,
    indexesInTableInfo: bool)
  {
    /** getDialect: the product name in lower case. */
    function Dialect(): (d: string)
      ensures |d| == |connection.productName|
      ensures forall i | 0 <= i < |d| :: !('A' <= d[i] <= 'Z')
      ensures forall i | 0 <= i < |d| :: LowerChar(d[i]) == LowerChar(connection.productName[i])
    {
      Lower(connection.productName)
    }

    /**
     * getUsableTableNames: the include list itself when it is non-empty;
     * otherwise every catalog table in metadata order, minus the ignored ones.
     */
    function UsableTableNames(): (names: seq<string>)
      ensures includeTables != [] ==> names == includeTables
      ensures includeTables == [] ==> |names| <= |connection.catalog|
      ensures includeTables == [] ==>
        forall t :: t in names <==> t in TableNames(connection.catalog) && t !in ignoreTables
      ensures includeTables == [] ==> names == RemoveAll(TableNames(connection.catalog), ignoreTables)
      ensures includeTables == [] && ignoreTables == [] ==> names == TableNames(connection.catalog)
    {
      RemoveNothing(TableNames(connection.catalog));
      if includeTables != [] then includeTables
      else if ignoreTables != [] then RemoveAll(TableNames(connection.catalog), ignoreTables)
      else TableNames(connection.catalog)
    }

    /** getAllTables: one name per getTables row, in order. */
    method GetAllTables() returns (allTables: seq<string>)
      ensures allTables == TableNames(connection.catalog)
    {
      allTables := [];
      var i := 0;
      while i < |connection.catalog|
        invariant 0 <= i <= |connection.catalog|
        invariant |allTables| == i
        invariant forall k | 0 <= k < i :: allTables[k] == connection.catalog[k].name
      {
        allTables := allTables + [connection.catalog[i].name];
        i := i + 1;
      }
    }

    method GetUsableTableNames() returns (names: seq<string>)
      ensures names == UsableTableNames()
    {
      if includeTables != [] {
        return includeTables;
      }
      var allTables := GetAllTables();
      if ignoreTables != [] {
        allTables := RemoveAll(allTables, ignoreTables);
      }
      return allTables;
    }

    /** getTableDdl: one CREATE TABLE block per catalog row of that name. */
    function TableDdl(tableName: string): string
    {
      var tables := MatchingTables(connection.catalog, tableName);
      DdlBlocks(tables, tableName, ColumnsOf(tables))
    }

    /** The StringBuilder loop of getTableDdl over the getTables rows of that name. */
    method GetTableDdl(tableName: string) returns (ddl: string)
      ensures ddl == TableDdl(tableName)
    {
      var tables := MatchingTables(connection.catalog, tableName);
      var columns := ColumnsOf(tables);
      var builder := "";
      for i := 0 to |tables|
        invariant builder == DdlBlocks(tables[..i], tableName, columns)
      {
        assert tables[..i + 1][..i] == tables[..i];
        builder := AppendTable(builder, tableName, columns, tables[i].remarks);
      }
      assert tables[..|tables|] == tables;
      ddl := builder;
    }

    /** getTableIndexes: always empty. */
    function TableIndexes(tableName: string): (indexes: string)
      ensures indexes == ""
    {
      ""
    }

    /** The statement getSampleRows runs. */
    function SampleRowsCommand(tableName: string): string
    {
      "SELECT * FROM " + tableName + " OFFSET 0 ROWS FETCH NEXT " + IntToString(sampleRowsInTableInfo) + " ROWS ONLY "
    }

    /**
     * run(command, includeColumnName): for a result set, the optional header
     * line and then the rows, each tab-joined, separated by "\n"; for any
     * other statement "Update Count: <n>"; an SQLException escapes.
     */
    function Run(command: string, includeColumnName: bool): (r: Result<string>)
      ensures r.Err? <==> connection.execute(command).Failed?
      ensures r.Err? ==> r.error == SqlFailure(connection.execute(command).message)
    {
      match connection.execute(command)
      case Failed(message) => Err(SqlFailure(message))
      case UpdateCount(n) => Ok("Update Count: " + IntToString(n))
      case ResultRows(names, rows) => Ok(Header(names, includeColumnName) + Join("\n", RowLines(rows)))
    }

    method RunCommand(command: string, includeColumnName: bool) returns (r: Result<string>)
      ensures r == Run(command, includeColumnName)
    {
      match connection.execute(command)
      case Failed(message) =>
        r := Err(SqlFailure(message));
      case UpdateCount(n) =>
        r := Ok("Update Count: " + IntToString(n));
      case ResultRows(names, rows) =>
        var result := "";
        if includeColumnName {
          result := result + Join("\t", names) + "\n";
        }
        assert result == Header(names, includeColumnName);
        var data: seq<string> := [];
        for i := 0 to |rows|
          invariant |data| == i
          invariant forall k | 0 <= k < i :: data[k] == RowLine(rows[k])
        {
          data := data + [RowLine(rows[i])];
        }
        assert data == RowLines(rows);
        r := Ok(result + Join("\n", data));
    }

    /** With column names asked for, the result is the tab-joined header line followed by the result without it. */
    lemma RunWithHeader(command: string)
      requires connection.execute(command).ResultRows?
      ensures Run(command, true).Ok? && Run(command, false).Ok?
      ensures Run(command, true).value
           == Join("\t", connection.execute(command).columnNames) + "\n" + Run(command, false).value
    {
    }

    /** The rows are not followed by a newline: the result ends with the last row's text. */
    lemma RunEndsWithLastRow(command: string, includeColumnName: bool)
      requires connection.execute(command).ResultRows? && connection.execute(command).rows != []
      ensures var r := Run(command, includeColumnName).value;
        var rows := connection.execute(command).rows;
        var last := RowLine(rows[|rows| - 1]);
        |last| <= |r| && r[|r| - |last|..] == last
    {
      var rows := connection.execute(command).rows;
      var h := Header(connection.execute(command).columnNames, includeColumnName);
      var j := Join("\n", RowLines(rows));
      JoinEndsWithLast("\n", RowLines(rows));
      var r := h + j;
      assert r[|r| - |RowLine(rows[|rows| - 1])|..] == j[|j| - |RowLine(rows[|rows| - 1])|..];
    }

    /** getSampleRows: "<n> rows from <t> table:\n" followed by the result of the sample query. */
    function SampleRows(tableName: string): (r: Result<string>)
      ensures r.Err? <==> connection.execute(SampleRowsCommand(tableName)).Failed?
      ensures r.Ok? ==> r.value == IntToString(sampleRowsInTableInfo) + " rows from " + tableName + " table:\n"
                                   + Run(SampleRowsCommand(tableName), true).value
    {
      match Run(SampleRowsCommand(tableName), true)
      case Err(e) => Err(e)
      case Ok(result) => Ok(IntToString(sampleRowsInTableInfo) + " rows from " + tableName + " table:\n" + result)
    }

    method GetSampleRows(tableName: string) returns (r: Result<string>)
      ensures r == SampleRows(tableName)
    {
      var command := "SELECT * FROM " + tableName + " OFFSET 0 ROWS FETCH NEXT "
                     + IntToString(sampleRowsInTableInfo) + " ROWS ONLY ";
      var result := RunCommand(command, true);
      match result
      case Err(e) => r := Err(e);
      case Ok(text) => r := Ok(IntToString(sampleRowsInTableInfo) + " rows from " + tableName + " table:\n" + text);
    }

    predicate HasExtraInfo()
    {
      indexesInTableInfo || sampleRowsInTableInfo > 0
    }

    /** The description of one table in getTableInfo: its DDL, then the optional comment block. */
    function TableDescription(tableName: string): Result<string>
    {
      var tableInfo := StripTrailingNewlines(TableDdl(tableName));
      var opening := if HasExtraInfo() then tableInfo + "\n\n/*" else tableInfo;
      var indexes := if indexesInTableInfo then opening + "\n" + TableIndexes(tableName) + "\n" else opening;
      if sampleRowsInTableInfo > 0 then
        match SampleRows(tableName)
        case Err(e) => Err(e)
        case Ok(rows) => Ok(CloseComment(indexes + "\n" + rows + "\n"))
      else Ok(CloseComment(indexes))
    }

    function CloseComment(tableInfo: string): string
    {
      if HasExtraInfo() then tableInfo + "*/" else tableInfo
    }

    /** The body of getTableInfo's loop for one table. */
    method DescribeTable(tableName: string) returns (r: Result<string>)
      ensures r == TableDescription(tableName)
    {
      var createTable := GetTableDdl(tableName);
      var tableInfo := StripTrailingNewlines(createTable);
      var hasExtraInfo := indexesInTableInfo || sampleRowsInTableInfo > 0;
      if hasExtraInfo {
        tableInfo := tableInfo + "\n\n/*";
      }
      if indexesInTableInfo {
        tableInfo := tableInfo + "\n" + TableIndexes(tableName) + "\n";
      }
      if sampleRowsInTableInfo > 0 {
        var rows := GetSampleRows(tableName);
        if rows.Err? {
          return Err(rows.error);
        }
        tableInfo := tableInfo + "\n" + rows.value + "\n";
      }
      if hasExtraInfo {
        tableInfo := tableInfo + "*/";
      }
      r := Ok(tableInfo);
    }

    /** The descriptions of the given tables in order, or the first failure. */
    function TableDescriptions(tableNames: seq<string>): Result<seq<string>>
    {
      AllOk(name => TableDescription(name), tableNames)
    }

    function Described(tableNames: seq<string>): Result<string>
    {
      match TableDescriptions(tableNames)
      case Err(e) => Err(e)
      case Ok(descriptions) => Ok(Join("\n\n", descriptions))
    }

    /**
     * getTableInfo(tableNames): null describes every usable table; a list
     * naming a table that is not usable (exact comparison) is rejected with
     * the missing names; otherwise exactly the listed tables, in list order.
     */
    function TableInfo(tableNames: Option<seq<string>>): (r: Result<string>)
      ensures tableNames.Some? && RemoveAll(tableNames.value, UsableTableNames()) != [] ==>
        r == Err(IllegalArgument("tableNames " + ListToString(RemoveAll(tableNames.value, UsableTableNames()))
                                 + " not found in database"))
      ensures r.Ok? ==> tableNames.None? || forall t | t in tableNames.value :: t in UsableTableNames()
    {
      var allTableNames := UsableTableNames();
      match tableNames
      case None => Described(allTableNames)
      case Some(names) =>
        var missingTables := RemoveAll(names, allTableNames);
        if missingTables != [] then
          Err(IllegalArgument("tableNames " + ListToString(missingTables) + " not found in database"))
        else
          Described(names)
    }

    /** A successful table info joins, with blank lines, one description per listed table, in list order. */
    lemma TableInfoJoinsEach(names: seq<string>)
      requires TableInfo(Some(names)).Ok?
      ensures TableDescriptions(names).Ok?
      ensures var ds := TableDescriptions(names).value;
        |ds| == |names| && (forall i | 0 <= i < |names| :: TableDescription(names[i]) == Ok(ds[i]))
        && TableInfo(Some(names)).value == Join("\n\n", ds)
    {
      AllOkPerName(name => TableDescription(name), names);
    }

    /** When every listed table is usable, a failure is the failure of describing one of them. */
    lemma TableInfoFailsOnOneTable(names: seq<string>)
      requires RemoveAll(names, UsableTableNames()) == [] && TableInfo(Some(names)).Err?
      ensures exists i | 0 <= i < |names| :: TableDescription(names[i]) == TableInfo(Some(names))
    {
      AllOkFailure(name => TableDescription(name), names);
    }

    method GetTableInfo(tableNames: Option<seq<string>>) returns (r: Result<string>)
      ensures r == TableInfo(tableNames)
    {
      var allTableNames := GetUsableTableNames();
      if tableNames.Some? {
        var missingTables := RemoveAll(tableNames.value, allTableNames);
        if missingTables != [] {
          return Err(IllegalArgument("tableNames " + ListToString(missingTables) + " not found in database"));
        }
        allTableNames := tableNames.value;
      }
      var tables: seq<string> := [];
      for i := 0 to |allTableNames|
        invariant TableDescriptions(allTableNames[..i]) == Ok(tables)
      {
        assert allTableNames[..i + 1][..i] == allTableNames[..i];
        var tableInfo := DescribeTable(allTableNames[i]);
        if tableInfo.Err? {
          FirstFailureStays(name => TableDescription(name), allTableNames, i + 1);
          return Err(tableInfo.error);
        }
        tables := tables + [tableInfo.value];
      }
      assert allTableNames[..|allTableNames|] == allTableNames;
      r := Ok(Join("\n\n", tables));
    }

    /** Passing null and passing the usable table names describe the same tables. */
    lemma TableInfoOfAllUsable()
      ensures TableInfo(None) == TableInfo(Some(UsableTableNames()))
    {
      var all := UsableTableNames();
      RemoveAllCovered(all, all);
    }

    /** An empty list describes nothing. */
    lemma TableInfoOfNoTables()
      ensures TableInfo(Some([])) == Ok("")
    {
    }

    /**
     * A name that is not usable, compared exactly, makes getTableInfo throw,
     * and the message lists it among the missing names.
     */
    lemma TableInfoRejectsUnknown(tableNames: seq<string>, unknown: string)
      requires unknown in tableNames && unknown !in UsableTableNames()
      ensures TableInfo(Some(tableNames)).Err? && TableInfo(Some(tableNames)).error.IllegalArgument?
      ensures unknown in RemoveAll(tableNames, UsableTableNames())
    {
    }

    /** Without indexes or sample rows a table is described by its DDL alone, trailing newlines removed. */
    lemma PlainDescription(tableName: string)
      requires !HasExtraInfo()
      ensures TableDescription(tableName) == Ok(StripTrailingNewlines(TableDdl(tableName)))
    {
    }

    /**
     * With indexes or sample rows the DDL is followed by an SQL comment block
     * that opens after two newlines and closes at the very end.
     */
    lemma WrappedDescription(tableName: string)
      requires HasExtraInfo() && TableDescription(tableName).Ok?
      ensures var d := TableDescription(tableName).value; var p := StripTrailingNewlines(TableDdl(tableName)) + "\n\n/*";
        |d| >= |p| + 2 && d[..|p|] == p && d[|d| - 2..] == "*/"
    {
      var p := StripTrailingNewlines(TableDdl(tableName)) + "\n\n/*";
      var extra := if indexesInTableInfo then "\n\n" else "";
      if sampleRowsInTableInfo > 0 {
        EndsWithCommentClose(p, extra + "\n" + SampleRows(tableName).value + "\n");
      } else {
        EndsWithCommentClose(p, extra);
      }
    }

    /** With indexes and no sample rows the comment block holds only the empty index text between two newlines. */
    lemma IndexOnlyDescription(tableName: string)
      requires indexesInTableInfo && sampleRowsInTableInfo <= 0
      ensures TableDescription(tableName) == Ok(StripTrailingNewlines(TableDdl(tableName)) + "\n\n/*\n\n*/")
    {
      var opening := StripTrailingNewlines(TableDdl(tableName)) + "\n\n/*";
      var indexes := opening + "\n" + TableIndexes(tableName) + "\n";
      assert HasExtraInfo();
      assert TableDescription(tableName) == Ok(CloseComment(indexes));
      assert CloseComment(indexes) == opening + "\n\n*/";
      Regroup(StripTrailingNewlines(TableDdl(tableName)), "\n\n/*", "\n\n*/", "\n\n/*\n\n*/");
    }

    /**
     * A table the catalog holds once is described by one CREATE TABLE block:
     * its head, its column definitions joined by commas, and its closing
     * line; removing trailing newlines drops exactly the final two.
     */
    lemma DdlOfSingleTable(tableName: string, table: TableMeta)
      requires MatchingTables(connection.catalog, tableName) == [table]
      ensures TableDdl(tableName)
           == CreateTableHead(tableName) + Join(",", ColumnDefinitions(table.columns)) + TableClose(table.remarks)
      ensures var ddl := TableDdl(tableName); StripTrailingNewlines(ddl) == ddl[..|ddl| - 2]
    {
      var head, close := CreateTableHead(tableName), TableClose(table.remarks);
      var columns := DropLastComma(ColumnList(table.columns));
      ColumnListJoined(table.columns);
      assert columns == Join(",", ColumnDefinitions(table.columns));
      SingleTableBlock(tableName, table);
      assert TableDdl(tableName) == head + columns + close;
      StripAfterClose(head + columns, table.remarks);
    }

    /** A name that is not in the catalog has no DDL. */
    lemma DdlOfUnknownTable(tableName: string)
      requires tableName !in TableNames(connection.catalog)
      ensures TableDdl(tableName) == ""
    {
      MatchingTablesNamed(connection.catalog, tableName);
    }
  }

  /**
   * The seven-argument constructor: both lists non-empty is rejected before
   * any connection is opened; otherwise the connection is opened (an
   * SQLException escapes) and the options are kept as given.
   */
  function Create(url: string, username: string, password: string, includeTables: seq<string>,
                  ignoreTables: seq<string>, sampleRowsInTableInfo: int, indexesInTableInfo: bool,
                  connect: (string, string, string) -> Result<Connection>): (r: Result<OracleDatabase>)
    ensures includeTables != [] && ignoreTables != [] ==> r == Err(IllegalArgument(BOTH_LISTS_MESSAGE))
    ensures !(includeTables != [] && ignoreTables != []) ==>
      (r.Ok? <==> connect(url, username, password).Ok?)
      && (r.Err? ==> r.error == connect(url, username, password).error)
    ensures r.Ok? ==> (Ok(r.value.connection) == connect(url, username, password)
      && r.value.includeTables == includeTables && r.value.ignoreTables == ignoreTables
      && r.value.sampleRowsInTableInfo == sampleRowsInTableInfo && r.value.indexesInTableInfo == indexesInTableInfo)
  {
    if includeTables != [] && ignoreTables != [] then
      Err(IllegalArgument(BOTH_LISTS_MESSAGE))
    else
      match connect(url, username, password)
      case Err(e) => Err(e)
      case Ok(connection) =>
        Ok(OracleDatabase(connection, includeTables, ignoreTables, sampleRowsInTableInfo, indexesInTableInfo))
  }

  /** The three-argument constructor and fromUri: no table lists, three sample rows, no indexes. */
  function FromUri(url: string, username: string, password: string,
                   connect: (string, string, string) -> Result<Connection>): (r: Result<OracleDatabase>)
    ensures r.Ok? <==> connect(url, username, password).Ok?
    ensures r.Ok? ==> (r.value.includeTables == [] && r.value.ignoreTables == []
      && r.value.sampleRowsInTableInfo == 3 && !r.value.indexesInTableInfo
      && r.value.UsableTableNames() == TableNames(r.value.connection.catalog))
  {
    Create(url, username, password, [], [], 3, false, connect)
  }
}
