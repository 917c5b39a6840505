/**
 * `OptimizedMySqlAdapter::createTable`: the MySQL `CREATE TABLE` statement
 * with merged default options, a synthesised auto-increment primary key and
 * a charset derived from the collation. Column, index and foreign-key SQL
 * and the identifier/string quoting belong to Phinx's `MysqlAdapter` and the
 * PDO connection; they are parameters of the model (`Dialect`).
 */
module CreateTable {
  import opened Wrappers
  import opened PhpStrings
  import opened Values
  import opened Columns
  import T = ColumnTypes

  datatype Index = Index(columns: seq<string>, options: Options)

  datatype ForeignKey = ForeignKey(
    columns: seq<string>, referencedTable: string, referencedColumns: seq<string>, options: Options)

  /** A Phinx `Table` as `createTable` reads it. */
  datatype Table = Table(
    name: string, options: Options, pending: seq<Column>, indexes: seq<Index>, foreignKeys: seq<ForeignKey>)

  /** The SQL fragment builders and quoting functions `createTable` calls. */
  datatype Dialect = Dialect(
    quoteTableName: string -> string,
    quoteColumnName: string -> string,
    columnDefinition: Column -> string,
    indexDefinition: Index -> string,
    foreignKeyDefinition: ForeignKey -> string,
    quote: string -> string)

  /** The keys an adapter-level option may contribute. */
  const DefaultKeys: set<string> := {"engine", "collation"}

  /** The built-in defaults: InnoDB with `utf8_general_ci`. */
  function Defaults(): (r: Options)
    ensures r.Keys == DefaultKeys
  {
    map["engine" := Str("InnoDB"), "collation" := Str("utf8_general_ci")]
  }

  /**
   * `array_merge($defaults, array_intersect_key($adapterOptions, $defaults), $tableOptions)`:
   * every key takes its value from the last layer that has it.
   */
  function MergeOptions(adapterOptions: Options, tableOptions: Options): (r: Options)
    ensures r.Keys == DefaultKeys + tableOptions.Keys
    ensures forall k :: k in tableOptions ==> r[k] == tableOptions[k]
    ensures forall k :: k in DefaultKeys && k !in tableOptions && k in adapterOptions ==> r[k] == adapterOptions[k]
    ensures forall k :: k in DefaultKeys && k !in tableOptions && k !in adapterOptions ==> r[k] == Defaults()[k]
  {
    var restricted := map k | k in adapterOptions && k in DefaultKeys :: adapterOptions[k];
    Defaults() + restricted + tableOptions
  }

  /** The name of the identity column `createTable` prepends, if it prepends one. */
  function SynthesisedIdName(options: Options): Option<string> {
    if !Isset(options, "id") || options["id"] == Bool(true) then Some("id")
    else if options["id"].Str? then Some(options["id"].s)
    else None
  }

  /** The synthesised column: an integer identity, signed unless the `signed` option says otherwise. */
  function IdColumn(name: string, options: Options): (c: Column)
    ensures c.name == name && c.kind == T.Integer && c.identity
    ensures c.signed == (if Isset(options, "signed") then Truthy(options["signed"]) else true)
    ensures !c.nullable && !c.unique
  {
    Column(name, T.Integer, map[], false, if Isset(options, "signed") then Truthy(options["signed"]) else true, true, false)
  }

  /** The options and column list after the default primary key is added. */
  datatype Prepared = Prepared(options: Options, columns: seq<Column>)

  /** Source lines 36-50: default `id`, the prepended identity column and the forced `primary_key`. */
  function AddPrimaryKey(options: Options, pending: seq<Column>): (r: Prepared)
    ensures SynthesisedIdName(options).Some? ==>
              var n := SynthesisedIdName(options).value;
              && r.columns == [IdColumn(n, options)] + pending
              && r.options == options["id" := Str(n)]["primary_key" := Str(n)]
    ensures SynthesisedIdName(options).None? ==> r == Prepared(options, pending)
  {
    var o := if !Isset(options, "id") || options["id"] == Bool(true) then options["id" := Str("id")] else options;
    if Isset(o, "id") && o["id"].Str? then
      Prepared(o["primary_key" := o["id"]], [IdColumn(o["id"].s, o)] + pending)
    else
      Prepared(o, pending)
  }

  /** The engine named by the merged options, InnoDB when the `engine` option is null. */
  function EngineName(options: Options): string {
    if Isset(options, "engine") then ToText(options["engine"]) else "InnoDB"
  }

  /** `ENGINE = <engine>`. */
  function EngineClause(options: Options): string {
    "ENGINE = " + EngineName(options)
  }

  /** ` CHARACTER SET <charset> COLLATE <collation>`, present only when a collation is set. */
  function CollationClause(options: Options): string {
    if Isset(options, "collation") then
      var collation := ToText(options["collation"]);
      " CHARACTER SET " + BeforeFirst(collation, '_') + " COLLATE " + collation
    else ""
  }

  /** ` COMMENT=<quoted> `, present only when a comment is set. */
  function CommentClause(d: Dialect, options: Options): string {
    if Isset(options, "comment") then " COMMENT=" + d.quote(ToText(options["comment"])) + " " else ""
  }

  /** The table-options string that follows the closing parenthesis. */
  function OptionsString(d: Dialect, options: Options): string {
    EngineClause(options) + CollationClause(options) + CommentClause(d, options)
  }

  /** `quoteColumnName(name) . ' ' . getColumnSqlDefinition(column)` for each column. */
  function ColumnDefinitions(d: Dialect, columns: seq<Column>): (r: seq<string>)
    ensures |r| == |columns|
    ensures forall i :: 0 <= i < |columns| ==> r[i] == d.quoteColumnName(columns[i].name) + " " + d.columnDefinition(columns[i])
  {
    seq(|columns|, i requires 0 <= i < |columns| => d.quoteColumnName(columns[i].name) + " " + d.columnDefinition(columns[i]))
  }

  /** `array_map([$this, 'quoteColumnName'], $names)`. */
  function QuoteAll(d: Dialect, names: seq<string>): (r: seq<string>)
    ensures |r| == |names|
    ensures forall i :: 0 <= i < |names| ==> r[i] == d.quoteColumnName(names[i])
  {
    seq(|names|, i requires 0 <= i < |names| => d.quoteColumnName(names[i]))
  }

  /** The text inside `PRIMARY KEY (…)`: one quoted name, or a list joined by `,`. */
  function PrimaryKeyList(d: Dialect, pk: OptValue): string {
    match pk
    case Str(s) => d.quoteColumnName(s)
    case List(names) => Join(QuoteAll(d, names), ",")
    case _ => ""
  }

  /** `, a, b, c` for a list of SQL fragments; empty for none. */
  function Clauses(parts: seq<string>): string {
    if parts == [] then "" else ", " + Join(parts, ", ")
  }

  /** Appending one fragment to a clause list appends `, ` and the fragment. */
  lemma ClausesSnoc(parts: seq<string>, p: string)
    ensures Clauses(parts + [p]) == Clauses(parts) + ", " + p
  {
    if parts != [] {
      JoinSnoc(parts, p, ", ");
    } else {
      assert parts + [p] == [p];
    }
  }

  /** The column text as the loop leaves it: every definition followed by `, `. */
  function Accumulated(defs: seq<string>): string {
    if defs == [] then "" else Join(defs, ", ") + ", "
  }

  lemma AccumulatedSnoc(defs: seq<string>, p: string)
    ensures Accumulated(defs + [p]) == Accumulated(defs) + p + ", "
  {
    if defs != [] {
      JoinSnoc(defs, p, ", ");
    } else {
      assert defs + [p] == [p];
    }
  }

  /** One pass of the column loop: appending the next definition and `, ` extends the accumulated text. */
  lemma AccumulateStep(head: string, defs: seq<string>, i: nat, name: string, definition: string)
    requires i < |defs| && defs[i] == name + " " + definition
    ensures head + Accumulated(defs[..i]) + name + " " + definition + ", " == head + Accumulated(defs[..i + 1])
  {
    AccumulatedSnoc(defs[..i], defs[i]);
    assert defs[..i + 1] == defs[..i] + [defs[i]];
  }

  /** One pass of the index or foreign-key loop. */
  lemma ClausesStep(start: string, parts: seq<string>, j: nat)
    requires j < |parts|
    ensures start + Clauses(parts[..j]) + ", " + parts[j] == start + Clauses(parts[..j + 1])
  {
    ClausesSnoc(parts[..j], parts[j]);
    assert parts[..j + 1] == parts[..j] + [parts[j]];
  }

  /** Trimming the accumulated column text removes just the final space. */
  lemma TrimAccumulated(head: string, defs: seq<string>)
    requires defs != []
    ensures RTrim(head + Accumulated(defs)) == head + Join(defs, ", ") + ","
  {
    RTrimAppendBlank(head + Join(defs, ", ") + ",", " ");
    assert head + Accumulated(defs) == head + Join(defs, ", ") + "," + " ";
  }

  /** `CREATE TABLE <name> (` up to the closing parenthesis of the primary key, or of the last column. */
  function ColumnsClause(d: Dialect, name: string, columns: seq<Column>, options: Options): string {
    var head := "CREATE TABLE " + d.quoteTableName(name) + " (";
    var defs := ColumnDefinitions(d, columns);
    if Isset(options, "primary_key") then
      (if columns == [] then head else head + Join(defs, ", ") + ",")
      + " PRIMARY KEY (" + PrimaryKeyList(d, options["primary_key"]) + ")"
    else if columns == [] then head[..|head| - 1]
    else head + Join(defs, ", ")
  }

  /** The statement built from already prepared options and columns. */
  function Statement(d: Dialect, table: Table, p: Prepared): string {
    RTrim(ColumnsClause(d, table.name, p.columns, p.options)
          + Clauses(IndexDefinitions(d, table)) + Clauses(ForeignKeyDefinitions(d, table))
          + ") " + OptionsString(d, p.options)) + ";"
  }

  /** The statement `createTable` executes, stated declaratively. */
  function CreateTableSql(d: Dialect, adapterOptions: Options, table: Table): string {
    Statement(d, table, AddPrimaryKey(MergeOptions(adapterOptions, table.options), table.pending))
  }

  /** `substr($s, 0, -1)`. */
  function DropLast(s: string): string {
    if s == [] then [] else s[..|s| - 1]
  }

  /** Source lines 73-75 as written: each column definition followed by `, `. */
  method AccumulateColumns(d: Dialect, head: string, columns: seq<Column>) returns (sql: string)
    ensures sql == head + Accumulated(ColumnDefinitions(d, columns))
  {
    ghost var defs := ColumnDefinitions(d, columns);
    sql := head;
    var i := 0;
    while i < |columns|
      invariant 0 <= i <= |columns|
      invariant sql == head + Accumulated(defs[..i])
    {
      AccumulateStep(head, defs, i, d.quoteColumnName(columns[i].name), d.columnDefinition(columns[i]));
      sql := sql + d.quoteColumnName(columns[i].name) + " " + d.columnDefinition(columns[i]) + ", ";
      i := i + 1;
    }
    assert defs[..|columns|] == defs;
  }

  /**
   * Source lines 71-89 as written: the trailing `, ` of the column list is
   * trimmed away again; the result is the declarative clause.
   */
  method BuildColumnsClause(d: Dialect, name: string, columns: seq<Column>, options: Options) returns (sql: string)
    ensures sql == ColumnsClause(d, name, columns, options)
  {
    var head := "CREATE TABLE " + d.quoteTableName(name) + " (";
    sql := AccumulateColumns(d, head, columns);
    ghost var defs := ColumnDefinitions(d, columns);
    if columns != [] {
      TrimAccumulated(head, defs);
    } else {
      assert sql == head;
    }
    if Isset(options, "primary_key") {
      sql := RTrim(sql);
      sql := sql + " PRIMARY KEY (";
      var pk := options["primary_key"];
      if pk.Str? {
        sql := sql + d.quoteColumnName(pk.s);
      } else if pk.List? {
        sql := sql + Join(QuoteAll(d, pk.items), ",");
      }
      sql := sql + ")";
    } else {
      sql := DropLast(RTrim(sql));
    }
  }

  /** Source lines 92-101 as written: `$sql .= ', ' . $fragment` for each fragment. */
  method AppendClauses(start: string, parts: seq<string>) returns (sql: string)
    ensures sql == start + Clauses(parts)
  {
    sql := start;
    var j := 0;
    while j < |parts|
      invariant 0 <= j <= |parts|
      invariant sql == start + Clauses(parts[..j])
    {
      ClausesStep(start, parts, j);
      sql := sql + ", " + parts[j];
      j := j + 1;
    }
    assert parts[..|parts|] == parts;
  }

  /**
   * Source lines 36-50 as written: when an id column is synthesised it comes
   * first and names the primary key; otherwise nothing changes.
   */
  method PrepareColumns(merged: Options, pending: seq<Column>) returns (options: Options, columns: seq<Column>)
    ensures SynthesisedIdName(merged).Some? ==>
              var n := SynthesisedIdName(merged).value;
              && columns == [IdColumn(n, merged)] + pending
              && options == merged["id" := Str(n)]["primary_key" := Str(n)]
    ensures SynthesisedIdName(merged).None? ==> options == merged && columns == pending
  {
    options := merged;
    columns := pending;
    if !Isset(options, "id") || options["id"] == Bool(true) {
      options := options["id" := Str("id")];
    }
    if Isset(options, "id") && options["id"].Str? {
      columns := [IdColumn(options["id"].s, options)] + columns;
      options := options["primary_key" := options["id"]];
    }
  }

  /** Source lines 54-69 as written. */
  method BuildOptionsString(d: Dialect, options: Options) returns (optionsStr: string)
    ensures optionsStr == OptionsString(d, options)
  {
    var engine := AppendEngine(options);
    var collated := AppendCollation(engine, options);
    optionsStr := AppendComment(d, collated, options);
    EngineStep(options, engine);
    CollationStep(engine, options, collated);
    CommentStep(d, collated, options, optionsStr);
  }

  /** The engine statement yields the engine clause. */
  lemma EngineStep(options: Options, engine: string)
    requires Isset(options, "engine") ==> engine == "ENGINE = " + ToText(options["engine"])
    requires !Isset(options, "engine") ==> engine == "ENGINE = InnoDB"
    ensures engine == EngineClause(options)
  {
  }

  /** The collation statements append the collation clause. */
  lemma CollationStep(start: string, options: Options, collated: string)
    requires Isset(options, "collation") ==>
               var collation := ToText(options["collation"]);
               exists charset :: CharsetOf(charset, collation)
                                 && collated == start + (" CHARACTER SET " + charset + " COLLATE " + collation)
    requires !Isset(options, "collation") ==> collated == start
    ensures collated == start + CollationClause(options)
  {
    if Isset(options, "collation") {
      var collation := ToText(options["collation"]);
      var charset :| CharsetOf(charset, collation)
                     && collated == start + (" CHARACTER SET " + charset + " COLLATE " + collation);
      CollationClauseOf(options, charset);
    }
  }

  /** The collation clause names the collation's one charset. */
  lemma CollationClauseOf(options: Options, charset: string)
    requires Isset(options, "collation") && CharsetOf(charset, ToText(options["collation"]))
    ensures CollationClause(options) == " CHARACTER SET " + charset + " COLLATE " + ToText(options["collation"])
  {
    CharsetUnique(charset, ToText(options["collation"]));
  }

  /** The comment statement appends the comment clause. */
  lemma CommentStep(d: Dialect, start: string, options: Options, commented: string)
    requires Isset(options, "comment") ==> commented == start + " COMMENT=" + d.quote(ToText(options["comment"])) + " "
    requires !Isset(options, "comment") ==> commented == start
    ensures commented == start + CommentClause(d, options)
  {
  }

  /** Source lines 54-57: InnoDB unless an engine is set. */
  method AppendEngine(options: Options) returns (optionsStr: string)
    ensures Isset(options, "engine") ==> optionsStr == "ENGINE = " + ToText(options["engine"])
    ensures !Isset(options, "engine") ==> optionsStr == "ENGINE = InnoDB"
  {
    optionsStr := "ENGINE = InnoDB";
    if Isset(options, "engine") {
      optionsStr := "ENGINE = " + ToText(options["engine"]);
    }
  }

  /** Source lines 60-64: the charset is the collation up to its first `_`. */
  method AppendCollation(start: string, options: Options) returns (optionsStr: string)
    ensures Isset(options, "collation") ==>
              var collation := ToText(options["collation"]);
              exists charset :: CharsetOf(charset, collation)
                                && optionsStr == start + (" CHARACTER SET " + charset + " COLLATE " + collation)
    ensures !Isset(options, "collation") ==> optionsStr == start
  {
    optionsStr := start;
    if Isset(options, "collation") {
      var collation := ToText(options["collation"]);
      var charset := BeforeFirst(collation, '_');
      optionsStr := optionsStr + " CHARACTER SET " + charset;
      optionsStr := optionsStr + " COLLATE " + collation;
      assert CharsetOf(charset, collation);
    }
  }

  /** `charset` is the text of `collation` before its first `_`, or all of it when it has none. */
  predicate CharsetOf(charset: string, collation: string) {
    && |charset| <= |collation| && charset == collation[..|charset|]
    && '_' !in charset
    && (|charset| < |collation| ==> collation[|charset|] == '_')
  }

  /** A collation has exactly one charset: the one `explode('_', …)[0]` picks. */
  lemma CharsetUnique(charset: string, collation: string)
    requires CharsetOf(charset, collation)
    ensures charset == BeforeFirst(collation, '_')
  {
  }

  /** Source lines 67-69: the quoted comment, with a blank on each side. */
  method AppendComment(d: Dialect, start: string, options: Options) returns (optionsStr: string)
    ensures Isset(options, "comment") ==> optionsStr == start + " COMMENT=" + d.quote(ToText(options["comment"])) + " "
    ensures !Isset(options, "comment") ==> optionsStr == start
  {
    optionsStr := start;
    if Isset(options, "comment") {
      optionsStr := optionsStr + (" COMMENT=" + d.quote(ToText(options["comment"])) + " ");
    }
  }

  /** `createTable` as written, producing the statement it executes. */
  method BuildCreateTable(d: Dialect, adapterOptions: Options, table: Table) returns (sql: string)
    ensures sql == CreateTableSql(d, adapterOptions, table)
  {
    var options, columns := PrepareColumns(MergeOptions(adapterOptions, table.options), table.pending);
    var optionsStr := BuildOptionsString(d, options);
    sql := BuildColumnsClause(d, table.name, columns, options);
    sql := AppendClauses(sql, IndexDefinitions(d, table));
    sql := AppendClauses(sql, ForeignKeyDefinitions(d, table));
    sql := sql + ") " + optionsStr;
    sql := RTrim(sql) + ";";
  }

  /** The index fragments of a table, in order. */
  function IndexDefinitions(d: Dialect, table: Table): seq<string> {
    seq(|table.indexes|, i requires 0 <= i < |table.indexes| => d.indexDefinition(table.indexes[i]))
  }

  /** The foreign-key fragments of a table, in order. */
  function ForeignKeyDefinitions(d: Dialect, table: Table): seq<string> {
    seq(|table.foreignKeys|, i requires 0 <= i < |table.foreignKeys| => d.foreignKeyDefinition(table.foreignKeys[i]))
  }

  /** The table-options string always starts with the engine clause. */
  lemma OptionsStringStart(d: Dialect, options: Options)
    ensures var o := OptionsString(d, options);
            |o| >= 8 && o[..8] == "ENGINE =" && o[0] == 'E'
  {
    var rest := CollationClause(options) + CommentClause(d, options);
    EngineFirst(EngineName(options), rest);
    assert OptionsString(d, options) == "ENGINE = " + EngineName(options) + rest;
  }

  lemma EngineFirst(name: string, rest: string)
    ensures var o := "ENGINE = " + name + rest;
            |o| >= 8 && o[..8] == "ENGINE =" && o[0] == 'E'
  {
  }

  /** The trimmed table-options string keeps its engine clause and ends in a non-blank character. */
  lemma TrimmedOptions(d: Dialect, options: Options)
    ensures var opts := RTrim(OptionsString(d, options));
            |opts| >= 8 && opts[..8] == "ENGINE =" && !IsBlank(opts[|opts| - 1])
  {
    var o := OptionsString(d, options);
    OptionsStringStart(d, options);
    assert o == "ENGINE =" + o[8..];
    RTrimKeepsPrefix("ENGINE =", o[8..]);
  }

  /**
   * Clause order: the columns (with the primary key), the indexes, the
   * foreign keys, `) ` and the table options; the statement ends in exactly
   * one `;` placed after the trailing blanks are trimmed.
   */
  lemma StatementLayout(d: Dialect, table: Table, p: Prepared)
    ensures var opts := RTrim(OptionsString(d, p.options));
            && Statement(d, table, p)
               == ColumnsClause(d, table.name, p.columns, p.options)
                  + Clauses(IndexDefinitions(d, table)) + Clauses(ForeignKeyDefinitions(d, table))
                  + ") " + opts + ";"
            && |opts| >= 8 && opts[..8] == "ENGINE ="
            && !IsBlank(opts[|opts| - 1])
  {
    var o := OptionsString(d, p.options);
    var front := ColumnsClause(d, table.name, p.columns, p.options)
                 + Clauses(IndexDefinitions(d, table)) + Clauses(ForeignKeyDefinitions(d, table));
    OptionsStringStart(d, p.options);
    TrimmedOptions(d, p.options);
    TrimAfterParen(front, o);
  }

  /** `rtrim` of `front) options` trims only the options. */
  lemma TrimAfterParen(front: string, o: string)
    requires o != [] && !IsBlank(o[0])
    ensures RTrim(front + ") " + o) == front + ") " + RTrim(o)
  {
    RTrimSuffix(") ", o);
    assert (") " + o)[0] == ')';
    RTrimSuffix(front, ") " + o);
    assert front + ") " + o == front + (") " + o);
    assert front + ") " + RTrim(o) == front + (") " + RTrim(o));
  }

  /** The charset of the default collation. */
  lemma DefaultCharset()
    ensures BeforeFirst("utf8_general_ci", '_') == "utf8"
  {
    var collation := "utf8_general_ci";
    assert collation[4] == '_';
    assert |BeforeFirst(collation, '_')| == 4;
  }

  /** The default options produce InnoDB with the utf8 charset and its general collation. */
  lemma DefaultOptionsString(d: Dialect, options: Options)
    requires "engine" in options && options["engine"] == Str("InnoDB")
    requires "collation" in options && options["collation"] == Str("utf8_general_ci")
    requires "comment" !in options
    ensures RTrim(OptionsString(d, options)) == DefaultTableOptions
  {
    DefaultClauses(d, options);
    DefaultTableOptionsTrimmed();
  }

  /** The three clauses of the default options, before trimming. */
  lemma DefaultClauses(d: Dialect, options: Options)
    requires "engine" in options && options["engine"] == Str("InnoDB")
    requires "collation" in options && options["collation"] == Str("utf8_general_ci")
    requires "comment" !in options
    ensures OptionsString(d, options) == DefaultTableOptions
  {
    DefaultCharset();
    assert EngineClause(options) == "ENGINE = " + "InnoDB";
    assert CollationClause(options) == DefaultCollationClause;
    assert CommentClause(d, options) == "";
    assert OptionsString(d, options) == DefaultTableOptions + "";
  }

  /** The default options end in a letter, so `rtrim` leaves them alone. */
  lemma DefaultTableOptionsTrimmed()
    ensures RTrim(DefaultTableOptions) == DefaultTableOptions
  {
    EndsWith(" CHARACTER SET " + "utf8" + " COLLATE ", "utf8_general_ci", 'i');
    EndsWith("ENGINE = " + "InnoDB", DefaultCollationClause, 'i');
    RTrimNonBlankEnd(DefaultTableOptions);
  }

  /** The collation clause of the default collation. */
  const DefaultCollationClause := " CHARACTER SET " + "utf8" + " COLLATE " + "utf8_general_ci"

  /** The table options of a table that sets none: `ENGINE = InnoDB CHARACTER SET utf8 COLLATE utf8_general_ci`. */
  const DefaultTableOptions := "ENGINE = " + "InnoDB" + DefaultCollationClause

  lemma EndsWith(a: string, b: string, c: char)
    requires b != [] && b[|b| - 1] == c
    ensures (a + b)[|a + b| - 1] == c
  {
  }

  /** A table with no options of its own on an adapter without engine/collation options. */
  lemma DefaultTableStatement(d: Dialect, adapterOptions: Options, table: Table)
    requires table.options == map[]
    requires "engine" !in adapterOptions && "collation" !in adapterOptions
    ensures var idColumn := Column("id", T.Integer, map[], false, true, true, false);
            CreateTableSql(d, adapterOptions, table)
            == "CREATE TABLE " + d.quoteTableName(table.name) + " ("
               + Join(ColumnDefinitions(d, [idColumn] + table.pending), ", ")
               + "," + " PRIMARY KEY (" + d.quoteColumnName("id") + ")"
               + Clauses(IndexDefinitions(d, table)) + Clauses(ForeignKeyDefinitions(d, table))
               + ") " + DefaultTableOptions + ";"
  {
    var p := AddPrimaryKey(MergeOptions(adapterOptions, table.options), table.pending);
    DefaultPrepared(adapterOptions, table);
    DefaultOptionsString(d, p.options);
    IdColumnsClause(d, table.name, p.columns, p.options);
    StatementLayout(d, table, p);
  }

  /** The column list of a table whose primary key is `id`, the synthesised column among its columns. */
  lemma IdColumnsClause(d: Dialect, name: string, columns: seq<Column>, options: Options)
    requires columns != []
    requires "primary_key" in options && options["primary_key"] == Str("id")
    ensures ColumnsClause(d, name, columns, options)
            == "CREATE TABLE " + d.quoteTableName(name) + " (" + Join(ColumnDefinitions(d, columns), ", ")
               + "," + " PRIMARY KEY (" + d.quoteColumnName("id") + ")"
  {
  }

  /** The options and columns of a table that sets no options, after the primary key is added. */
  lemma DefaultPrepared(adapterOptions: Options, table: Table)
    requires table.options == map[]
    requires "engine" !in adapterOptions && "collation" !in adapterOptions
    ensures var p := AddPrimaryKey(MergeOptions(adapterOptions, table.options), table.pending);
            && p.columns == [Column("id", T.Integer, map[], false, true, true, false)] + table.pending
            && "primary_key" in p.options && p.options["primary_key"] == Str("id")
            && "engine" in p.options && p.options["engine"] == Str("InnoDB")
            && "collation" in p.options && p.options["collation"] == Str("utf8_general_ci")
            && "comment" !in p.options
  {
    assert MergeOptions(adapterOptions, table.options) == Defaults();
  }

  /**
   * With `id => false` and a list-valued `primary_key`, no column is
   * synthesised and the key lists the quoted names joined by `,` in order.
   */
  lemma ListPrimaryKey(d: Dialect, adapterOptions: Options, table: Table, names: seq<string>)
    requires "id" in table.options && table.options["id"] == Bool(false)
    requires "primary_key" in table.options && table.options["primary_key"] == List(names)
    requires table.pending != []
    ensures var p := AddPrimaryKey(MergeOptions(adapterOptions, table.options), table.pending);
            && p.columns == table.pending
            && ColumnsClause(d, table.name, p.columns, p.options)
               == "CREATE TABLE " + d.quoteTableName(table.name) + " ("
                  + Join(ColumnDefinitions(d, table.pending), ", ") + "," + " PRIMARY KEY (" + Join(QuoteAll(d, names), ",") + ")"
  {
  }
}
