/**
 * The DDL generator: the `.then` callback of `parseFile`. It walks the
 * tables and, inside each, the columns in key order; a column with a
 * reference first gets the referenced column's current type written into
 * it, then a FOREIGN KEY clause; every column gets one clause line.
 */
module Generator {
  import opened Results
  import opened JsStrings
  import opened OrderedMaps
  import opened Uml

  /** The TypeError `getType` throws when the referenced table, or the
      referenced column inside it, is not in the schema. */
  datatype GenError = UnknownTable(table: string) | UnknownColumn(table: string, column: string)

  /** What the generator has built for one table so far: the schema with
      the types written so far, the column clauses and the foreign keys. */
  datatype TableOut = TableOut(uml: Schema, lines: seq<string>, fks: seq<string>)

  /** What the generator has built so far: the schema and `createStatement`. */
  datatype Progress = Progress(uml: Schema, ddl: string)

  /** `uml[ref.table].columns[ref.col]` exists; an undefined `ref.col`
      is looked up under the key "undefined". */
  predicate Resolves(u: Schema, ref: ColRef) {
    HasColumn(u, ref.table, Show(ref.col))
  }

  /** A column without a reference, or one whose reference resolves. */
  predicate RefResolvesIn(u: Schema, col: Column) {
    col.ref.Some? ==> Resolves(u, col.ref.value)
  }

  /** `getType`: the type the referenced column has in `u` right now, or the
      TypeError for a reference that leads nowhere. */
  function GetType(ref: ColRef, u: Schema): (r: Result<Option<string>, GenError>)
    ensures r.Ok? <==> Resolves(u, ref)
    ensures r.Ok? ==> r.value == Col(u, ref.table, Show(ref.col)).dataType
    ensures r.Err? && ref.table !in u.entries ==> r.error == UnknownTable(ref.table)
    ensures r.Err? && ref.table in u.entries ==> r.error == UnknownColumn(ref.table, Show(ref.col))
  {
    if ref.table !in u.entries then Err(UnknownTable(ref.table))
    else if Show(ref.col) !in u.entries[ref.table].columns.entries then Err(UnknownColumn(ref.table, Show(ref.col)))
    else Ok(u.entries[ref.table].columns.entries[Show(ref.col)].dataType)
  }

  /** The clause of one column: its key, its type, then the two flags that
      are rendered. The not-null flag is never rendered. */
  function ColumnLine(name: string, col: Column): string {
    name + " " + Show(col.dataType)
    + (if col.autoIncrement then " AUTO_INCREMENT" else "")
    + (if col.isPk then " PRIMARY KEY" else "")
  }

  /** The clause of a column named `name` that references `ref`. */
  function ForeignKeyClause(name: string, ref: ColRef): string {
    "FOREIGN KEY (" + name + ") REFERENCES " + ref.table + "(" + Show(ref.col) + ")"
  }

  /** The statement of one table; the foreign-key clauses follow the
      column clauses only when there is at least one. */
  function TableBlock(t: string, lines: seq<string>, fks: seq<string>): string {
    "\nCREATE TABLE IF NOT EXISTS " + t + " ("
    + "\n" + Join(lines, ",\n")
    + (if |fks| > 0 then ",\n" + Join(fks, ",\n") else "")
    + "\n)  ENGINE=INNODB;\n"
  }

  /** `v` differs from `u` at most in the types of the columns that carry a
      reference: no key, name, flag or reference changes. */
  ghost predicate OnlyRefTypesChanged(u: Schema, v: Schema) {
    && v.keys == u.keys
    && v.entries.Keys == u.entries.Keys
    && forall t :: t in u.entries ==> SameTableButRefTypes(u.entries[t], v.entries[t])
  }

  ghost predicate SameTableButRefTypes(a: Table, b: Table) {
    && b.tableName == a.tableName
    && b.pkList == a.pkList
    && b.columns.keys == a.columns.keys
    && b.columns.entries.Keys == a.columns.entries.Keys
    && forall c :: c in a.columns.entries ==> SameColumnButRefType(a.columns.entries[c], b.columns.entries[c])
  }

  ghost predicate SameColumnButRefType(x: Column, y: Column) {
    y == x.(dataType := y.dataType) && (x.ref.None? ==> y.dataType == x.dataType)
  }

  /** Only table `t` may differ between `u` and `v`. */
  ghost predicate OthersUnchanged(u: Schema, v: Schema, t: string) {
    forall t' :: t' in u.entries && t' != t ==> t' in v.entries && v.entries[t'] == u.entries[t']
  }

  /** What the callback makes of a column: a referencing column gets the
      type the referenced column has in `u` right now. */
  function ResolveColumn(u: Schema, col: Column): (r: Result<Column, GenError>)
    ensures r.Ok? <==> RefResolvesIn(u, col)
    ensures r.Ok? ==> r.value == col.(dataType := r.value.dataType)
    ensures r.Ok? && col.ref.None? ==> r.value == col
    ensures r.Ok? && col.ref.Some? ==> r.value.dataType == Col(u, col.ref.value.table, Show(col.ref.value.col)).dataType
  {
    match col.ref
    case None => Ok(col)
    case Some(ref) =>
      match GetType(ref, u)
      case Err(e) => Err(e)
      case Ok(ty) => Ok(col.(dataType := ty))
  }

  /** The FOREIGN KEY clause a column contributes: one if it references a
      column, none otherwise. */
  function RefClause(col: Column): seq<string> {
    if col.ref.Some? then [ForeignKeyClause(col.name, col.ref.value)] else []
  }

  /** The body of the inner `forEach` on column `c` of table `t`. */
  function ColumnStep(o: TableOut, t: string, c: string): (r: Result<TableOut, GenError>)
    requires Shaped(o.uml) && HasColumn(o.uml, t, c)
    ensures r.Ok? ==> Shaped(r.value.uml) && OnlyRefTypesChanged(o.uml, r.value.uml)
    ensures r.Ok? ==> OthersUnchanged(o.uml, r.value.uml, t)
    ensures r.Ok? ==> |r.value.lines| == |o.lines| + 1
  {
    match ResolveColumn(o.uml, Col(o.uml, t, c))
    case Err(e) => Err(e)
    case Ok(col') =>
      var u' := if col'.ref.Some? then SetRefType(o.uml, t, c, col'.dataType); SetColumn(o.uml, t, c, col') else o.uml;
      Ok(TableOut(u', o.lines + [ColumnLine(c, col')], o.fks + RefClause(col')))
  }

  /** The inner `forEach` over the keys `ks` of table `t`, started on `u`;
      the first TypeError ends it. */
  function ProcessColumns(u: Schema, t: string, ks: seq<string>): (r: Result<TableOut, GenError>)
    requires Shaped(u) && t in u.entries
    requires forall k :: k in ks ==> k in u.entries[t].columns.entries
    ensures r.Ok? ==> Shaped(r.value.uml) && OnlyRefTypesChanged(u, r.value.uml)
    ensures r.Ok? ==> OthersUnchanged(u, r.value.uml, t)
    ensures r.Ok? ==> |r.value.lines| == |ks|
    decreases |ks|
  {
    if ks == [] then Ok(TableOut(u, [], []))
    else
      match ProcessColumns(u, t, ks[..|ks| - 1])
      case Err(e) => Err(e)
      case Ok(o) =>
        assert SameTableButRefTypes(u.entries[t], o.uml.entries[t]);
        var r := ColumnStep(o, t, ks[|ks| - 1]);
        if r.Ok? then OnlyRefTypesChangedTrans(u, o.uml, r.value.uml); r else r
  }

  /** The body of the outer `forEach` on table `t`. */
  function TableStep(p: Progress, t: string): (r: Result<Progress, GenError>)
    requires Shaped(p.uml) && t in p.uml.entries
    ensures r.Ok? ==> Shaped(r.value.uml) && OnlyRefTypesChanged(p.uml, r.value.uml)
  {
    var ks := p.uml.entries[t].columns.keys;
    match ProcessColumns(p.uml, t, ks)
    case Err(e) => Err(e)
    case Ok(o) => Ok(Progress(o.uml, p.ddl + TableBlock(t, o.lines, o.fks)))
  }

  /** The outer `forEach` over the table keys `ts`, started on `u`. */
  function ProcessTables(u: Schema, ts: seq<string>): (r: Result<Progress, GenError>)
    requires Shaped(u)
    requires forall t :: t in ts ==> t in u.entries
    ensures r.Ok? ==> Shaped(r.value.uml) && OnlyRefTypesChanged(u, r.value.uml)
    decreases |ts|
  {
    if ts == [] then Ok(Progress(u, ""))
    else
      match ProcessTables(u, ts[..|ts| - 1])
      case Err(e) => Err(e)
      case Ok(p) =>
        var r := TableStep(p, ts[|ts| - 1]);
        if r.Ok? then OnlyRefTypesChangedTrans(u, p.uml, r.value.uml); r else r
  }

  /** The string the callback returns, or the TypeError it throws. */
  function Generate(u: Schema): Result<string, GenError>
    requires Shaped(u)
  {
    match ProcessTables(u, u.keys)
    case Ok(p) => Ok(p.ddl)
    case Err(e) => Err(e)
  }

  /** The schema once every reference has had its type written. */
  function Resolve(u: Schema): Result<Schema, GenError>
    requires Shaped(u)
  {
    match ProcessTables(u, u.keys)
    case Ok(p) => Ok(p.uml)
    case Err(e) => Err(e)
  }

  /** Writing a type into a column that carries a reference changes
      nothing else. */
  lemma SetRefType(u: Schema, t: string, c: string, ty: Option<string>)
    requires Shaped(u) && HasColumn(u, t, c) && Col(u, t, c).ref.Some?
    ensures var v := SetColumn(u, t, c, Col(u, t, c).(dataType := ty));
            OnlyRefTypesChanged(u, v) && OthersUnchanged(u, v, t)
  {
    var col' := Col(u, t, c).(dataType := ty);
    var v := SetColumn(u, t, c, col');
    assert v.entries[t].columns.entries == u.entries[t].columns.entries[c := col'];
    assert SameTableButRefTypes(u.entries[t], v.entries[t]);
  }

  lemma OnlyRefTypesChangedTrans(u: Schema, v: Schema, w: Schema)
    requires OnlyRefTypesChanged(u, v) && OnlyRefTypesChanged(v, w)
    ensures OnlyRefTypesChanged(u, w)
  {
    forall t | t in u.entries
      ensures SameTableButRefTypes(u.entries[t], w.entries[t])
    {
      var a, b, c := u.entries[t], v.entries[t], w.entries[t];
      assert SameTableButRefTypes(a, b) && SameTableButRefTypes(b, c);
      forall k | k in a.columns.entries
        ensures SameColumnButRefType(a.columns.entries[k], c.columns.entries[k])
      {
        assert SameColumnButRefType(a.columns.entries[k], b.columns.entries[k]);
        assert SameColumnButRefType(b.columns.entries[k], c.columns.entries[k]);
      }
    }
  }

  lemma ProcessColumnsSnoc(u: Schema, t: string, ks: seq<string>, j: nat)
    requires Shaped(u) && t in u.entries && j < |ks|
    requires forall k :: k in ks ==> k in u.entries[t].columns.entries
    ensures ProcessColumns(u, t, ks[..j + 1])
            == if ProcessColumns(u, t, ks[..j]).Err? then ProcessColumns(u, t, ks[..j])
               else ColumnStep(ProcessColumns(u, t, ks[..j]).value, t, ks[j])
  {
    assert ks[..j + 1][..j] == ks[..j];
  }

  /** Where the inner loop stands after `j` columns, the next column
      exists, and a TypeError on it is the outcome of the whole table. */
  lemma ProcessColumnsNext(u: Schema, t: string, ks: seq<string>, j: nat)
    requires Shaped(u) && t in u.entries && j < |ks|
    requires forall k :: k in ks ==> k in u.entries[t].columns.entries
    requires ProcessColumns(u, t, ks[..j]).Ok?
    ensures var o := ProcessColumns(u, t, ks[..j]).value;
            && HasColumn(o.uml, t, ks[j])
            && ProcessColumns(u, t, ks[..j + 1]) == ColumnStep(o, t, ks[j])
            && (ColumnStep(o, t, ks[j]).Err? ==> ProcessColumns(u, t, ks) == ColumnStep(o, t, ks[j]))
  {
    var o := ProcessColumns(u, t, ks[..j]).value;
    assert SameTableButRefTypes(u.entries[t], o.uml.entries[t]);
    ProcessColumnsSnoc(u, t, ks, j);
    if ColumnStep(o, t, ks[j]).Err? {
      ProcessColumnsErrStays(u, t, ks, j + 1);
    }
  }

  lemma {:induction false} ProcessColumnsErrStays(u: Schema, t: string, ks: seq<string>, n: nat)
    requires Shaped(u) && t in u.entries && n <= |ks|
    requires forall k :: k in ks ==> k in u.entries[t].columns.entries
    requires ProcessColumns(u, t, ks[..n]).Err?
    ensures ProcessColumns(u, t, ks) == ProcessColumns(u, t, ks[..n])
    decreases |ks| - n
  {
    if n < |ks| {
      assert ks[..|ks| - 1][..n] == ks[..n];
      ProcessColumnsErrStays(u, t, ks[..|ks| - 1], n);
    } else {
      assert ks[..n] == ks;
    }
  }

  lemma ProcessTablesSnoc(u: Schema, ts: seq<string>, i: nat)
    requires Shaped(u) && i < |ts|
    requires forall t :: t in ts ==> t in u.entries
    ensures ProcessTables(u, ts[..i + 1])
            == if ProcessTables(u, ts[..i]).Err? then ProcessTables(u, ts[..i])
               else TableStep(ProcessTables(u, ts[..i]).value, ts[i])
  {
    assert ts[..i + 1][..i] == ts[..i];
  }

  lemma {:induction false} ProcessTablesErrStays(u: Schema, ts: seq<string>, n: nat)
    requires Shaped(u) && n <= |ts|
    requires forall t :: t in ts ==> t in u.entries
    requires ProcessTables(u, ts[..n]).Err?
    ensures ProcessTables(u, ts) == ProcessTables(u, ts[..n])
    decreases |ts| - n
  {
    if n < |ts| {
      assert ts[..|ts| - 1][..n] == ts[..n];
      ProcessTablesErrStays(u, ts[..|ts| - 1], n);
    } else {
      assert ts[..n] == ts;
    }
  }

  /** The inner `forEach` body on column `columnName` of `tableName`. */
  method EmitColumn(tableName: string, columnName: string,
                    uml: Schema, columnLines: seq<string>, foreignKeys: seq<string>)
    returns (uml': Schema, columnLines': seq<string>, foreignKeys': seq<string>, error: Option<GenError>)
    requires Shaped(uml) && HasColumn(uml, tableName, columnName)
    ensures ColumnStep(TableOut(uml, columnLines, foreignKeys), tableName, columnName)
            == if error.None? then Ok(TableOut(uml', columnLines', foreignKeys')) else Err(error.value)
  {
    var columnData := uml.entries[tableName].columns.entries[columnName];
    uml', columnLines', foreignKeys' := uml, columnLines, foreignKeys;
    if columnData.ref.Some? {
      var ty := GetType(columnData.ref.value, uml);
      if ty.Err? {
        return uml', columnLines', foreignKeys', Some(ty.error);
      }
      columnData := columnData.(dataType := ty.value);
      uml' := SetColumn(uml, tableName, columnName, columnData);
      foreignKeys' := foreignKeys + [ForeignKeyClause(columnData.name, columnData.ref.value)];
      assert RefClause(columnData) == [ForeignKeyClause(columnData.name, columnData.ref.value)];
    } else {
      assert foreignKeys + RefClause(columnData) == foreignKeys;
    }
    columnLines' := columnLines + [ColumnLine(columnName, columnData)];
    assert ResolveColumn(uml, Col(uml, tableName, columnName)) == Ok(columnData);
    error := None;
  }

  /** Appending a table's statement piece by piece appends `TableBlock`. */
  lemma AppendTableBlock(cs: string, t: string, lines: seq<string>, fks: seq<string>)
    ensures var s := cs + "\nCREATE TABLE IF NOT EXISTS " + t + " (" + "\n" + Join(lines, ",\n");
            var s' := if |fks| > 0 then s + ",\n" + Join(fks, ",\n") else s;
            s' + "\n)  ENGINE=INNODB;\n" == cs + TableBlock(t, lines, fks)
  {
    var keys := if |fks| > 0 then ",\n" + Join(fks, ",\n") else "";
    var s := cs + "\nCREATE TABLE IF NOT EXISTS " + t + " (" + "\n" + Join(lines, ",\n");
    if |fks| > 0 {
      Assoc(s, ",\n", Join(fks, ",\n"));
    } else {
      assert s + keys == s;
    }
    Regroup(cs, "\nCREATE TABLE IF NOT EXISTS ", t, " (", "\n", Join(lines, ",\n"), keys, "\n)  ENGINE=INNODB;\n");
  }

  lemma Assoc(a: string, b: string, c: string)
    ensures a + b + c == a + (b + c)
  {
  }

  lemma Regroup(a: string, b: string, c: string, d: string, e: string, f: string, g: string, h: string)
    ensures a + b + c + d + e + f + g + h == a + (b + c + d + e + f + g + h)
  {
    Assoc(a, b, c);
    Assoc(a, b + c, d);
    Assoc(a, b + c + d, e);
    Assoc(a, b + c + d + e, f);
    Assoc(a, b + c + d + e + f, g);
    Assoc(a, b + c + d + e + f + g, h);
  }

  /** The inner `forEach` over the column keys of `tableName`. */
  method EmitColumns(uml: Schema, tableName: string)
    returns (uml': Schema, columnLines: seq<string>, foreignKeys: seq<string>, error: Option<GenError>)
    requires Shaped(uml) && tableName in uml.entries
    ensures ProcessColumns(uml, tableName, uml.entries[tableName].columns.keys)
            == if error.None? then Ok(TableOut(uml', columnLines, foreignKeys)) else Err(error.value)
  {
    foreignKeys, columnLines := [], [];
    var columnKeys := uml.entries[tableName].columns.keys;
    uml' := uml;
    assert columnKeys[..0] == [];
    for j := 0 to |columnKeys|
      invariant ProcessColumns(uml, tableName, columnKeys[..j]) == Ok(TableOut(uml', columnLines, foreignKeys))
    {
      ProcessColumnsNext(uml, tableName, columnKeys, j);
      uml', columnLines, foreignKeys, error := EmitColumn(tableName, columnKeys[j], uml', columnLines, foreignKeys);
      if error.Some? {
        return;
      }
    }
    assert columnKeys[..|columnKeys|] == columnKeys;
    error := None;
  }

  /** The outer `forEach` body on `tableName`: appends the table's statement
      to `createStatement`, writing the referenced types into `uml`. */
  method EmitTable(uml: Schema, createStatement: string, tableName: string)
    returns (uml': Schema, createStatement': string, error: Option<GenError>)
    requires Shaped(uml) && tableName in uml.entries
    ensures TableStep(Progress(uml, createStatement), tableName)
            == if error.None? then Ok(Progress(uml', createStatement')) else Err(error.value)
  {
    createStatement' := createStatement + "\nCREATE TABLE IF NOT EXISTS " + tableName + " (";
    var columnLines, foreignKeys;
    uml', columnLines, foreignKeys, error := EmitColumns(uml, tableName);
    if error.Some? {
      return;
    }
    createStatement' := createStatement' + "\n" + Join(columnLines, ",\n");
    if |foreignKeys| > 0 {
      createStatement' := createStatement' + ",\n" + Join(foreignKeys, ",\n");
    }
    createStatement' := createStatement' + "\n)  ENGINE=INNODB;\n";
    AppendTableBlock(createStatement, tableName, columnLines, foreignKeys);
  }

  /** The `.then` callback: every table in key order; a thrown TypeError
      is returned as `Err`. */
  method GenerateDdl(uml: Schema) returns (r: Result<string, GenError>)
    requires Shaped(uml)
    ensures r == Generate(uml)
  {
    var createStatement := "";
    var tables := uml.keys;
    var current := uml;
    assert tables[..0] == [];
    for i := 0 to |tables|
      invariant ProcessTables(uml, tables[..i]) == Ok(Progress(current, createStatement))
    {
      ProcessTablesSnoc(uml, tables, i);
      var error;
      current, createStatement, error := EmitTable(current, createStatement, tables[i]);
      if error.Some? {
        ProcessTablesErrStays(uml, tables, i + 1);
        return Err(error.value);
      }
    }
    assert tables[..|tables|] == tables;
    return Ok(createStatement);
  }
}

/** What the generator guarantees, stated over the functions of `Generator`. */
module GeneratorProperties {
  import opened Results
  import opened JsStrings
  import opened OrderedMaps
  import opened Uml
  import opened Generator

  predicate Distinct(ks: seq<string>) {
    forall i, j :: 0 <= i < j < |ks| ==> ks[i] != ks[j]
  }

  /** A list of distinct keys is its distinct front followed by a last key
      that is not in the front. */
  lemma DistinctSnoc(ks: seq<string>)
    requires Distinct(ks) && ks != []
    ensures Distinct(ks[..|ks| - 1]) && ks[|ks| - 1] !in ks[..|ks| - 1]
    ensures ks == ks[..|ks| - 1] + [ks[|ks| - 1]]
  {
    var init := ks[..|ks| - 1];
    forall i | 0 <= i < |init| ensures init[i] != ks[|ks| - 1] {
      assert init[i] == ks[i];
    }
  }

  /** Every reference of table `t` leads to a column of `u`. */
  ghost predicate TableRefsResolve(u: Schema, t: string)
    requires t in u.entries
  {
    forall c :: c in u.entries[t].columns.entries ==> RefResolvesIn(u, u.entries[t].columns.entries[c])
  }

  ghost predicate AllRefsResolve(u: Schema) {
    forall t :: t in u.entries ==> TableRefsResolve(u, t)
  }

  /** One FOREIGN KEY clause per column of `ks` that carries a reference,
      in the order of `ks`. */
  function RefClauses(tb: Table, ks: seq<string>): seq<string>
    requires forall k :: k in ks ==> k in tb.columns.entries
    decreases |ks|
  {
    if ks == [] then []
    else RefClauses(tb, ks[..|ks| - 1]) + RefClause(tb.columns.entries[ks[|ks| - 1]])
  }

  /** The clause of every column of a table, in key order. */
  function ColumnLines(tb: Table): seq<string>
    requires Valid(tb.columns)
  {
    var ks := tb.columns.keys;
    seq(|ks|, i requires 0 <= i < |ks| => ColumnLine(ks[i], tb.columns.entries[ks[i]]))
  }

  function ForeignKeys(tb: Table): seq<string>
    requires Valid(tb.columns)
  {
    RefClauses(tb, tb.columns.keys)
  }

  /** The statements of the tables `ts` of a schema whose types are final. */
  function Render(v: Schema, ts: seq<string>): string
    requires Shaped(v) && forall t :: t in ts ==> t in v.entries
    decreases |ts|
  {
    if ts == [] then ""
    else
      var t := ts[|ts| - 1];
      Render(v, ts[..|ts| - 1]) + TableBlock(t, ColumnLines(v.entries[t]), ForeignKeys(v.entries[t]))
  }

  /** A column whose reference leads to a column without a reference ends
      up with that column's type. */
  ghost predicate PlainTargetCopied(u: Schema, v: Schema, t: string, c: string)
    requires HasColumn(u, t, c) && HasColumn(v, t, c)
  {
    var col := Col(u, t, c);
    col.ref.Some? && Resolves(u, col.ref.value)
    && Col(u, col.ref.value.table, Show(col.ref.value.col)).ref.None?
    ==> Col(v, t, c).dataType == Col(u, col.ref.value.table, Show(col.ref.value.col)).dataType
  }

  /** Whether a reference resolves depends on the keys alone, which the
      generator never changes. */
  lemma ResolvesSame(u: Schema, v: Schema, ref: ColRef)
    requires OnlyRefTypesChanged(u, v)
    ensures Resolves(u, ref) <==> Resolves(v, ref)
  {
    if ref.table in u.entries {
      assert SameTableButRefTypes(u.entries[ref.table], v.entries[ref.table]);
    }
  }

  lemma ColumnSame(u: Schema, v: Schema, t: string, c: string)
    requires OnlyRefTypesChanged(u, v) && HasColumn(u, t, c)
    ensures HasColumn(v, t, c)
    ensures SameColumnButRefType(Col(u, t, c), Col(v, t, c))
  {
    assert SameTableButRefTypes(u.entries[t], v.entries[t]);
  }

  /** The inner loop runs to its end exactly when every reference among
      its columns resolves. */
  lemma {:induction false} ProcessColumnsOk(u: Schema, t: string, ks: seq<string>)
    requires Shaped(u) && t in u.entries
    requires forall k :: k in ks ==> k in u.entries[t].columns.entries
    ensures ProcessColumns(u, t, ks).Ok? <==> forall k :: k in ks ==> RefResolvesIn(u, Col(u, t, k))
    decreases |ks|
  {
    if ks != [] {
      var init, c := ks[..|ks| - 1], ks[|ks| - 1];
      assert ks == init + [c];
      ProcessColumnsOk(u, t, init);
      match ProcessColumns(u, t, init)
      case Err(_) =>
      case Ok(o) =>
        ColumnSame(u, o.uml, t, c);
        if Col(u, t, c).ref.Some? {
          ResolvesSame(u, o.uml, Col(u, t, c).ref.value);
        }
    }
  }

  /** One step of the inner loop: the clause line of `c` renders `c` as
      the step leaves it, and no other column changes. */
  lemma ColumnStepFrame(o: TableOut, t: string, c: string)
    requires Shaped(o.uml) && HasColumn(o.uml, t, c)
    ensures var r := ColumnStep(o, t, c);
            r.Ok? ==>
              && HasColumn(r.value.uml, t, c)
              && r.value.lines == o.lines + [ColumnLine(c, Col(r.value.uml, t, c))]
              && forall k :: k != c && HasColumn(o.uml, t, k) ==>
                   HasColumn(r.value.uml, t, k) && Col(r.value.uml, t, k) == Col(o.uml, t, k)
  {
  }

  /** One step of the inner loop adds a FOREIGN KEY clause exactly when the
      column carries a reference, and the clause is the same as the one of
      the column before any type was written. */
  lemma ColumnStepForeignKey(u: Schema, o: TableOut, t: string, c: string)
    requires Shaped(u) && Shaped(o.uml) && OnlyRefTypesChanged(u, o.uml) && HasColumn(u, t, c)
    ensures HasColumn(o.uml, t, c)
    ensures ColumnStep(o, t, c).Ok? ==> ColumnStep(o, t, c).value.fks == o.fks + RefClause(Col(u, t, c))
  {
    ColumnSame(u, o.uml, t, c);
  }

  /** The foreign keys of a table are one clause per referencing column, in
      column order, computed from the schema as it was before the table. */
  lemma {:induction false} ProcessColumnsForeignKeys(u: Schema, t: string, ks: seq<string>)
    requires Shaped(u) && t in u.entries
    requires forall k :: k in ks ==> k in u.entries[t].columns.entries
    ensures ProcessColumns(u, t, ks).Ok? ==> ProcessColumns(u, t, ks).value.fks == RefClauses(u.entries[t], ks)
    decreases |ks|
  {
    if ks != [] {
      var init, c := ks[..|ks| - 1], ks[|ks| - 1];
      ProcessColumnsForeignKeys(u, t, init);
      if ProcessColumns(u, t, init).Ok? {
        ColumnStepForeignKey(u, ProcessColumns(u, t, init).value, t, c);
      }
    }
  }

  /** Each clause line renders its column as it stands once the table is
      done. */
  lemma {:induction false} ProcessColumnsLines(u: Schema, t: string, ks: seq<string>)
    requires Shaped(u) && t in u.entries && Distinct(ks)
    requires forall k :: k in ks ==> k in u.entries[t].columns.entries
    ensures var r := ProcessColumns(u, t, ks);
            r.Ok? ==> LinesRender(r.value, t, ks)
    decreases |ks|
  {
    if ks != [] {
      var init, c := ks[..|ks| - 1], ks[|ks| - 1];
      ProcessColumnsLines(u, t, init);
      if ProcessColumns(u, t, init).Ok? {
        var o := ProcessColumns(u, t, init).value;
        ColumnSame(u, o.uml, t, c);
        DistinctSnoc(ks);
        ColumnStepLines(o, t, init, c);
      }
    }
  }

  /** Clause `i` renders column `ks[i]` as it stands in `o.uml`. */
  ghost predicate LinesRender(o: TableOut, t: string, ks: seq<string>) {
    |o.lines| == |ks|
    && forall i :: 0 <= i < |ks| ==> HasColumn(o.uml, t, ks[i]) && o.lines[i] == ColumnLine(ks[i], Col(o.uml, t, ks[i]))
  }

  lemma ColumnStepLines(o: TableOut, t: string, done: seq<string>, c: string)
    requires Shaped(o.uml) && HasColumn(o.uml, t, c) && c !in done && LinesRender(o, t, done)
    ensures ColumnStep(o, t, c).Ok? ==> LinesRender(ColumnStep(o, t, c).value, t, done + [c])
  {
    ColumnStepFrame(o, t, c);
    var r := ColumnStep(o, t, c);
    if r.Ok? {
      var ks := done + [c];
      forall i | 0 <= i < |ks|
        ensures HasColumn(r.value.uml, t, ks[i]) && r.value.lines[i] == ColumnLine(ks[i], Col(r.value.uml, t, ks[i]))
      {
        if i < |done| {
          assert ks[i] == done[i] && ks[i] != c;
        }
      }
    }
  }

  /** After the inner loop, every column of `ks` whose reference leads to a
      column without one carries that column's type. */
  lemma {:induction false} ProcessColumnsPlainTargets(u: Schema, t: string, ks: seq<string>)
    requires Shaped(u) && t in u.entries && Distinct(ks)
    requires forall k :: k in ks ==> k in u.entries[t].columns.entries
    ensures var r := ProcessColumns(u, t, ks);
            r.Ok? ==> forall k :: k in ks ==> HasColumn(r.value.uml, t, k) && PlainTargetCopied(u, r.value.uml, t, k)
    decreases |ks|
  {
    if ks != [] {
      var init, c := ks[..|ks| - 1], ks[|ks| - 1];
      assert ks == init + [c];
      ProcessColumnsPlainTargets(u, t, init);
      if ProcessColumns(u, t, init).Ok? {
        var o := ProcessColumns(u, t, init).value;
        ColumnStepFrame(o, t, c);
        ColumnStepPlainTarget(u, o, t, c);
      }
    }
  }

  lemma ColumnStepPlainTarget(u: Schema, o: TableOut, t: string, c: string)
    requires Shaped(u) && Shaped(o.uml) && OnlyRefTypesChanged(u, o.uml) && HasColumn(u, t, c)
    ensures HasColumn(o.uml, t, c)
    ensures ColumnStep(o, t, c).Ok? ==>
              HasColumn(ColumnStep(o, t, c).value.uml, t, c)
              && PlainTargetCopied(u, ColumnStep(o, t, c).value.uml, t, c)
  {
    ColumnSame(u, o.uml, t, c);
    var col := Col(u, t, c);
    if ColumnStep(o, t, c).Ok? && col.ref.Some? {
      var ref := col.ref.value;
      ResolvesSame(u, o.uml, ref);
      if Resolves(u, ref) {
        ColumnSame(u, o.uml, ref.table, Show(ref.col));
      }
    }
  }

  /** The clauses depend on names and references only, which the generator
      never changes. */
  lemma {:induction false} RefClausesSame(u: Schema, v: Schema, t: string, ks: seq<string>)
    requires OnlyRefTypesChanged(u, v) && t in u.entries
    requires forall k :: k in ks ==> k in u.entries[t].columns.entries
    ensures forall k :: k in ks ==> k in v.entries[t].columns.entries
    ensures RefClauses(u.entries[t], ks) == RefClauses(v.entries[t], ks)
    decreases |ks|
  {
    assert SameTableButRefTypes(u.entries[t], v.entries[t]);
    if ks != [] {
      RefClausesSame(u, v, t, ks[..|ks| - 1]);
      ColumnSame(u, v, t, ks[|ks| - 1]);
    }
  }

  /** The rendering of tables `ts` reads those tables only. */
  lemma {:induction false} RenderFrame(v: Schema, w: Schema, ts: seq<string>)
    requires Shaped(v) && Shaped(w)
    requires forall t :: t in ts ==> t in v.entries && t in w.entries && v.entries[t] == w.entries[t]
    ensures Render(v, ts) == Render(w, ts)
    decreases |ts|
  {
    if ts != [] {
      RenderFrame(v, w, ts[..|ts| - 1]);
    }
  }

  /** The outer loop runs to its end exactly when every reference of its
      tables resolves. */
  lemma {:induction false} ProcessTablesOk(u: Schema, ts: seq<string>)
    requires Shaped(u) && forall t :: t in ts ==> t in u.entries
    ensures ProcessTables(u, ts).Ok? <==> forall t :: t in ts ==> TableRefsResolve(u, t)
    decreases |ts|
  {
    if ts != [] {
      var init, t := ts[..|ts| - 1], ts[|ts| - 1];
      assert ts == init + [t];
      ProcessTablesOk(u, init);
      if ProcessTables(u, init).Ok? {
        TableStepOk(u, ProcessTables(u, init).value, t);
      }
    }
  }

  lemma TableStepOk(u: Schema, p: Progress, t: string)
    requires Shaped(u) && Shaped(p.uml) && OnlyRefTypesChanged(u, p.uml) && t in u.entries
    ensures t in p.uml.entries
    ensures TableStep(p, t).Ok? <==> TableRefsResolve(u, t)
  {
    var tb, tb' := u.entries[t], p.uml.entries[t];
    assert SameTableButRefTypes(tb, tb');
    ProcessColumnsOk(p.uml, t, tb'.columns.keys);
    forall c | c in tb.columns.entries
      ensures RefResolvesIn(u, Col(u, t, c)) <==> RefResolvesIn(p.uml, Col(p.uml, t, c))
    {
      ColumnSame(u, p.uml, t, c);
      if Col(u, t, c).ref.Some? {
        ResolvesSame(u, p.uml, Col(u, t, c).ref.value);
      }
    }
  }

  /** After the outer loop, `createStatement` is the rendering of the
      tables done, read from the schema as the loop leaves it. */
  lemma {:induction false} ProcessTablesRenders(u: Schema, ts: seq<string>)
    requires Shaped(u) && Distinct(ts) && forall t :: t in ts ==> t in u.entries
    ensures var r := ProcessTables(u, ts);
            r.Ok? ==> (forall t :: t in ts ==> t in r.value.uml.entries) && r.value.ddl == Render(r.value.uml, ts)
    decreases |ts|
  {
    if ts != [] {
      var init, t := ts[..|ts| - 1], ts[|ts| - 1];
      DistinctSnoc(ts);
      ProcessTablesRenders(u, init);
      var q := ProcessTables(u, init);
      if q.Ok? {
        TableStepRenders(q.value, t, init);
      }
    }
  }

  lemma TableStepRenders(p: Progress, t: string, done: seq<string>)
    requires Shaped(p.uml) && t in p.uml.entries && t !in done
    requires forall d :: d in done ==> d in p.uml.entries
    requires p.ddl == Render(p.uml, done)
    ensures var r := TableStep(p, t);
            r.Ok? ==> (forall d :: d in done + [t] ==> d in r.value.uml.entries)
                      && r.value.ddl == Render(r.value.uml, done + [t])
  {
    var r := TableStep(p, t);
    if r.Ok? {
      var w := r.value.uml;
      TableStepBlock(p, t);
      RenderFrame(p.uml, w, done);
      assert (done + [t])[..|done|] == done;
    }
  }

  /** A table's statement renders its columns as the inner loop leaves them. */
  lemma TableStepBlock(p: Progress, t: string)
    requires Shaped(p.uml) && t in p.uml.entries
    ensures var r := TableStep(p, t);
            r.Ok? ==> && t in r.value.uml.entries
                      && OthersUnchanged(p.uml, r.value.uml, t)
                      && r.value.ddl == p.ddl + TableBlock(t, ColumnLines(r.value.uml.entries[t]), ForeignKeys(r.value.uml.entries[t]))
  {
    var ks := p.uml.entries[t].columns.keys;
    var o := ProcessColumns(p.uml, t, ks);
    if o.Ok? {
      var w := o.value.uml;
      ProcessColumnsLines(p.uml, t, ks);
      ProcessColumnsForeignKeys(p.uml, t, ks);
      RefClausesSame(p.uml, w, t, ks);
      assert SameTableButRefTypes(p.uml.entries[t], w.entries[t]);
      LinesAreColumnLines(o.value, t);
    }
  }

  lemma LinesAreColumnLines(o: TableOut, t: string)
    requires Shaped(o.uml) && t in o.uml.entries
    requires LinesRender(o, t, o.uml.entries[t].columns.keys)
    ensures o.lines == ColumnLines(o.uml.entries[t])
  {
  }

  /** After the outer loop, every column of its tables whose reference
      leads to a column without one carries that column's type. */
  lemma {:induction false} ProcessTablesPlainTargets(u: Schema, ts: seq<string>)
    requires Shaped(u) && Distinct(ts) && forall t :: t in ts ==> t in u.entries
    ensures var r := ProcessTables(u, ts);
            r.Ok? ==> forall t, c :: t in ts && HasColumn(u, t, c) ==>
                        HasColumn(r.value.uml, t, c) && PlainTargetCopied(u, r.value.uml, t, c)
    decreases |ts|
  {
    if ts != [] {
      var init, t := ts[..|ts| - 1], ts[|ts| - 1];
      assert ts == init + [t];
      ProcessTablesPlainTargets(u, init);
      if ProcessTables(u, init).Ok? {
        TableStepPlainTargets(u, ProcessTables(u, init).value, t);
      }
    }
  }

  lemma TableStepPlainTargets(u: Schema, p: Progress, t: string)
    requires Shaped(u) && Shaped(p.uml) && OnlyRefTypesChanged(u, p.uml) && t in u.entries
    ensures t in p.uml.entries
    ensures var r := TableStep(p, t);
            r.Ok? ==>
              && (forall t', c :: t' != t && HasColumn(p.uml, t', c) ==>
                    HasColumn(r.value.uml, t', c) && Col(r.value.uml, t', c) == Col(p.uml, t', c))
              && (forall c :: HasColumn(u, t, c) ==>
                    HasColumn(r.value.uml, t, c) && PlainTargetCopied(u, r.value.uml, t, c))
  {
    var tb := p.uml.entries[t];
    assert SameTableButRefTypes(u.entries[t], tb);
    var o := ProcessColumns(p.uml, t, tb.columns.keys);
    if o.Ok? {
      ProcessColumnsPlainTargets(p.uml, t, tb.columns.keys);
      forall c | HasColumn(u, t, c)
        ensures HasColumn(o.value.uml, t, c) && PlainTargetCopied(u, o.value.uml, t, c)
      {
        PlainTargetTransfer(u, p.uml, o.value.uml, t, c);
      }
    }
  }

  /** A column copied from a plain target stays so described when the
      earlier schema is the original one. */
  lemma PlainTargetTransfer(u: Schema, v: Schema, w: Schema, t: string, c: string)
    requires OnlyRefTypesChanged(u, v) && HasColumn(u, t, c) && HasColumn(w, t, c)
    requires HasColumn(v, t, c) ==> PlainTargetCopied(v, w, t, c)
    ensures PlainTargetCopied(u, w, t, c)
  {
    ColumnSame(u, v, t, c);
    var ref := Col(u, t, c).ref;
    if ref.Some? {
      ResolvesSame(u, v, ref.value);
      if Resolves(u, ref.value) {
        ColumnSame(u, v, ref.value.table, Show(ref.value.col));
      }
    }
  }

  /** The callback returns a string exactly when every reference in the
      schema leads to an existing column; otherwise it throws. */
  lemma GenerateOk(u: Schema)
    requires Shaped(u)
    ensures Generate(u).Ok? <==> AllRefsResolve(u)
    ensures Generate(u).Ok? <==> Resolve(u).Ok?
  {
    ProcessTablesOk(u, u.keys);
  }

  /** The string returned is one statement per table, in key order, each
      listing its columns as the callback leaves them. */
  lemma GenerateRenders(u: Schema)
    requires Shaped(u)
    ensures Generate(u).Ok? ==> Resolve(u).Ok? && Generate(u).value == Render(Resolve(u).value, u.keys)
    ensures u.keys == [] ==> Generate(u) == Ok("")
  {
    ProcessTablesRenders(u, u.keys);
  }

  /** The callback changes only the types of referencing columns, and a
      column whose reference leads to a column without a reference gets
      that column's type. */
  lemma ResolvedTypes(u: Schema)
    requires Shaped(u)
    ensures Resolve(u).Ok? ==> OnlyRefTypesChanged(u, Resolve(u).value)
    ensures Resolve(u).Ok? ==> forall t, c :: HasColumn(u, t, c) ==>
              HasColumn(Resolve(u).value, t, c) && PlainTargetCopied(u, Resolve(u).value, t, c)
  {
    ProcessTablesPlainTargets(u, u.keys);
  }

  /** The clause of a column splits back into its key, its type and the
      keywords of the flags it renders; the not-null flag leaves no word. */
  lemma ColumnLineWords(name: string, col: Column)
    requires ' ' !in name && ' ' !in Show(col.dataType)
    ensures Split(ColumnLine(name, col), ' ') ==
              [name, Show(col.dataType)]
              + (if col.autoIncrement then ["AUTO_INCREMENT"] else [])
              + (if col.isPk then ["PRIMARY", "KEY"] else [])
  {
    var ai: seq<string> := if col.autoIncrement then ["AUTO_INCREMENT"] else [];
    var pk: seq<string> := if col.isPk then ["PRIMARY", "KEY"] else [];
    FlagWords(col.autoIncrement, col.isPk);
    KeywordsHaveNoSpace(ai + pk);
    ColumnLineShape(name, col);
    SplitWords(name, Show(col.dataType), ai + pk);
  }

  lemma ColumnLineShape(name: string, col: Column)
    ensures ColumnLine(name, col)
            == name + " " + Show(col.dataType)
               + ((if col.autoIncrement then " AUTO_INCREMENT" else "") + (if col.isPk then " PRIMARY KEY" else ""))
  {
  }

  lemma KeywordsHaveNoSpace(words: seq<string>)
    requires forall w :: w in words ==> w == "AUTO_INCREMENT" || w == "PRIMARY" || w == "KEY"
    ensures forall w :: w in words ==> ' ' !in w
  {
    assert ' ' !in "AUTO_INCREMENT" && ' ' !in "PRIMARY" && ' ' !in "KEY";
  }

  /** Words free of spaces, joined by spaces, split back into themselves. */
  lemma SplitWords(a: string, b: string, rest: seq<string>)
    requires ' ' !in a && ' ' !in b && forall w :: w in rest ==> ' ' !in w
    ensures Split(a + " " + b + (if rest == [] then "" else " " + Join(rest, " ")), ' ') == [a, b] + rest
  {
    var words := [a, b] + rest;
    JoinWords(a, b, rest);
    assert forall i :: 0 <= i < |words| ==> ' ' !in words[i] by {
      forall i | 0 <= i < |words| ensures ' ' !in words[i] {
        if i >= 2 { assert words[i] == rest[i - 2]; }
      }
    }
    SplitJoin(words, ' ');
  }

  /** Joining `[a, b] + rest` with spaces puts a space before each word of
      `rest`. */
  lemma JoinWords(a: string, b: string, rest: seq<string>)
    ensures Join([a, b] + rest, " ") == a + " " + b + (if rest == [] then "" else " " + Join(rest, " "))
  {
    assert ([a, b] + rest)[1..] == [b] + rest;
    if rest != [] {
      assert ([b] + rest)[1..] == rest;
    }
  }

  /** The flag keywords of a clause are the flag words joined, each after a
      space. */
  lemma FlagWords(ai: bool, pk: bool)
    ensures var rest := (if ai then ["AUTO_INCREMENT"] else []) + (if pk then ["PRIMARY", "KEY"] else []);
            (if ai then " AUTO_INCREMENT" else "") + (if pk then " PRIMARY KEY" else "")
            == (if rest == [] then "" else " " + Join(rest, " "))
  {
    assert " AUTO_INCREMENT" == " " + "AUTO_INCREMENT";
    assert " PRIMARY KEY" == " " + "PRIMARY" + " " + "KEY";
    SpacedWords(ai, pk, "AUTO_INCREMENT", "PRIMARY", "KEY");
  }

  lemma SpacedWords(ai: bool, pk: bool, a: string, p: string, k: string)
    ensures var rest := (if ai then [a] else []) + (if pk then [p, k] else []);
            (if ai then " " + a else "") + (if pk then " " + p + " " + k else "")
            == (if rest == [] then "" else " " + Join(rest, " "))
  {
    if ai && pk {
      assert [a] + [p, k] == [a, p, k];
      JoinThree(a, p, k, " ");
    } else if pk {
      assert [p, k][1..] == [k];
    }
  }

  /** One step of the inner loop gives column `c` the type its target has
      at that moment, or leaves its type alone when it has no reference. */
  lemma ColumnStepType(o: TableOut, t: string, c: string)
    requires Shaped(o.uml) && HasColumn(o.uml, t, c)
    ensures var col, r := Col(o.uml, t, c), ColumnStep(o, t, c);
            && (r.Ok? <==> RefResolvesIn(o.uml, col))
            && (r.Ok? ==> HasColumn(r.value.uml, t, c))
            && (r.Ok? && col.ref.None? ==> r.value.uml == o.uml)
            && (r.Ok? && col.ref.Some? ==>
                  Col(r.value.uml, t, c).dataType == Col(o.uml, col.ref.value.table, Show(col.ref.value.col)).dataType)
  {
  }
}
