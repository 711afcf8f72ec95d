/**
 * The diagram parser: the `'line'` handler of `parseFile`, a state machine
 * that reads one text line at a time and builds the schema in place.
 */
module Parser {
  import opened Results
  import opened JsStrings
  import opened OrderedMaps
  import opened Uml

  /** Where the column object `currentColumn` points at is stored. */
  datatype ColumnPath = ColumnPath(table: string, column: string)

  /** The variables the handler closes over: the two flags, the current
      table (by its key), the current column (by its place) and the schema. */
  datatype ParserState = ParserState(
    isUml: bool,
    isTable: bool,
    currentTable: string,
    currentColumn: Option<ColumnPath>,
    uml: Schema)

  /** The TypeError thrown when a `..` line carries further tokens before
      any column has been declared. */
  datatype ParseError = NoCurrentColumn

  const Initial: ParserState := ParserState(false, false, "", None, Empty())

  /** The schema is well-formed and, inside a table block, the current
      table is registered. */
  ghost predicate Consistent(st: ParserState) {
    && Shaped(st.uml)
    && (st.isTable ==> st.currentTable in st.uml.entries)
  }

  predicate HasPkPrefix(tok: string) {
    |tok| > 0 && (tok[0] == '#' || tok[0] == '+')
  }

  /** The column name a first token declares (the `..` token declares none). */
  function ColumnName(tok: string): string {
    if HasPkPrefix(tok) || (|tok| > 0 && tok[0] == '-') then tok[1..] else tok
  }

  /** The target of a `REF(`-prefixed token: the text after `REF(` without
      its last character, split on `.`; the table part is capitalised. */
  function ParseRef(tok: string): ColRef {
    var parts := Split(SliceFourToLast(tok), '.');
    ColRef(Capitalize(parts[0]), Field(parts, 1))
  }

  /** A token after the first one, applied to the current column. */
  function ApplyAttribute(col: Column, tok: string): Column {
    if tok == "NN" then col.(notNull := true)
    else if tok == "AUTO_INCREMENT" then col.(autoIncrement := true)
    else if StartsWith(tok, "REF(") then col.(ref := Some(ParseRef(tok)))
    else col.(dataType := Some(tok))
  }

  /** A `class` line: a fresh table registered under the second token. */
  function OpenTable(st: ParserState, tableName: Option<string>): (r: ParserState)
    requires Consistent(st)
    ensures Consistent(r) && r.isTable
  {
    var key := Show(tableName);
    st.(isTable := true,
        currentTable := key,
        uml := Put(st.uml, key, Table(tableName, [], Empty())))
  }

  /** A first token that declares a column: it replaces any column of the
      same name and becomes the current column. */
  function NewColumn(st: ParserState, name: string, isPk: bool): (r: ParserState)
    requires Consistent(st) && st.isTable
    ensures Consistent(r) && r.isUml == st.isUml && r.isTable && r.currentTable == st.currentTable
  {
    var tb := st.uml.entries[st.currentTable];
    var tb' := tb.(pkList := if isPk then tb.pkList + [name] else tb.pkList,
                   columns := Put(tb.columns, name, Column(name, isPk, false, false, None, None)));
    st.(uml := Put(st.uml, st.currentTable, tb'),
        currentColumn := Some(ColumnPath(st.currentTable, name)))
  }

  /** An attribute token updates the current column where it is stored; a
      column dropped from the schema by a re-declared table is updated
      nowhere. */
  function UpdateAt(u: Schema, p: ColumnPath, tok: string): (r: Schema)
    requires Shaped(u)
    ensures Shaped(r)
  {
    if HasColumn(u, p.table, p.column)
    then SetColumn(u, p.table, p.column, ApplyAttribute(Col(u, p.table, p.column), tok))
    else u
  }

  /** One call of the `forEach` callback on token number `index` of a
      column line. */
  function ColumnToken(st: ParserState, tok: string, index: nat): (r: Result<ParserState, ParseError>)
    requires Consistent(st) && st.isTable
    ensures r.Ok? ==> Consistent(r.value) && r.value.isUml == st.isUml
    ensures r.Ok? ==> r.value.isTable && r.value.currentTable == st.currentTable
  {
    if index == 0 then
      if HasPkPrefix(tok) then Ok(NewColumn(st, tok[1..], true))
      else if tok == ".." then Ok(st)
      else Ok(NewColumn(st, if |tok| > 0 && tok[0] == '-' then tok[1..] else tok, false))
    else
      match st.currentColumn
      case None => Err(NoCurrentColumn)
      case Some(p) => Ok(st.(uml := UpdateAt(st.uml, p, tok)))
  }

  /** The state after the callback has run on the first `n` tokens. */
  function ColumnTokens(st: ParserState, tokens: seq<string>, n: nat): (r: Result<ParserState, ParseError>)
    requires Consistent(st) && st.isTable && n <= |tokens|
    ensures r.Ok? ==> Consistent(r.value) && r.value.isUml == st.isUml
    ensures r.Ok? ==> r.value.isTable && r.value.currentTable == st.currentTable
    decreases n
  {
    if n == 0 then Ok(st)
    else
      match ColumnTokens(st, tokens, n - 1)
      case Err(e) => Err(e)
      case Ok(s) => ColumnToken(s, tokens[n - 1], n - 1)
  }

  /** One call of the `'line'` handler: until `@startuml` has been seen only
      that marker matters; afterwards every line is trimmed first. */
  function Step(st: ParserState, input: string): (r: Result<ParserState, ParseError>)
    requires Consistent(st)
    ensures r.Ok? ==> Consistent(r.value)
    ensures r.Ok? && st.isUml ==> r.value.isUml
  {
    if !st.isUml then
      if StartsWith(input, "@startuml") then Ok(st.(isUml := true)) else Ok(st)
    else InsideUml(st, Trim(input))
  }

  /** A trimmed line read after `@startuml`. */
  function InsideUml(st: ParserState, line: string): (r: Result<ParserState, ParseError>)
    requires Consistent(st) && st.isUml
    ensures r.Ok? ==> Consistent(r.value) && r.value.isUml
  {
    if !st.isTable && StartsWith(line, "class") then
      Ok(OpenTable(st, Field(Split(line, ' '), 1)))
    else if st.isTable && line != "}" then
      var tokens := Split(line, ' ');
      ColumnTokens(st, tokens, |tokens|)
    else if st.isTable && line == "}" then Ok(st.(isTable := false))
    else Ok(st)
  }

  /** The state after the handler has run on every line, in order; the
      first TypeError ends the run. */
  function Run(st: ParserState, lines: seq<string>): (r: Result<ParserState, ParseError>)
    requires Consistent(st)
    ensures r.Ok? ==> Consistent(r.value)
    decreases |lines|
  {
    if lines == [] then Ok(st)
    else
      match Run(st, lines[..|lines| - 1])
      case Err(e) => Err(e)
      case Ok(s) => Step(s, lines[|lines| - 1])
  }

  /** The schema the promise resolves with once the line source closes. */
  function Parse(lines: seq<string>): Result<Schema, ParseError>
  {
    match Run(Initial, lines)
    case Ok(st) => Ok(st.uml)
    case Err(e) => Err(e)
  }

  lemma {:induction false} ColumnTokensErrStays(st: ParserState, tokens: seq<string>, n: nat, m: nat)
    requires Consistent(st) && st.isTable && n <= m <= |tokens|
    requires ColumnTokens(st, tokens, n).Err?
    ensures ColumnTokens(st, tokens, m) == ColumnTokens(st, tokens, n)
    decreases m - n
  {
    if n < m {
      ColumnTokensErrStays(st, tokens, n, m - 1);
    }
  }

  lemma {:induction false} RunErrStays(st: ParserState, lines: seq<string>, n: nat)
    requires Consistent(st) && n <= |lines|
    requires Run(st, lines[..n]).Err?
    ensures Run(st, lines) == Run(st, lines[..n])
    decreases |lines| - n
  {
    if n < |lines| {
      assert lines[..|lines| - 1][..n] == lines[..n];
      RunErrStays(st, lines[..|lines| - 1], n);
    } else {
      assert lines[..n] == lines;
    }
  }

  /** The closure state of one `parseFile` call, updated line by line. */
  class LineHandler {
    var isUml: bool
    var isTable: bool
    var currentTable: string
    var currentColumn: Option<ColumnPath>
    var uml: Schema

    function State(): ParserState
      reads this
    {
      ParserState(isUml, isTable, currentTable, currentColumn, uml)
    }

    ghost predicate Valid()
      reads this
    {
      Consistent(State())
    }

    constructor ()
      ensures Valid() && State() == Initial
    {
      isUml, isTable := false, false;
      currentTable, currentColumn := "", None;
      uml := Empty();
    }

    /** Declares a column on the current table and makes it current. */
    method AddColumn(colName: string, isPk: bool)
      requires Valid() && isTable
      modifies this
      ensures Valid()
      ensures State() == NewColumn(old(State()), colName, isPk)
    {
      var table := uml.entries[currentTable];
      if isPk {
        table := table.(pkList := table.pkList + [colName]);
      }
      currentColumn := Some(ColumnPath(currentTable, colName));
      table := table.(columns := Put(table.columns, colName, Column(colName, isPk, false, false, None, None)));
      uml := Put(uml, currentTable, table);
    }

    /** Applies an attribute token to the column `currentColumn` points at. */
    method UpdateCurrentColumn(colData: string)
      requires Valid() && currentColumn.Some?
      modifies this
      ensures Valid()
      ensures State() == old(State()).(uml := UpdateAt(old(uml), old(currentColumn.value), colData))
    {
      var p := currentColumn.value;
      if HasColumn(uml, p.table, p.column) {
        var column := uml.entries[p.table].columns.entries[p.column];
        if colData == "NN" {
          column := column.(notNull := true);
        } else if colData == "AUTO_INCREMENT" {
          column := column.(autoIncrement := true);
        } else if StartsWith(colData, "REF(") {
          column := column.(ref := Some(ParseRef(colData)));
        } else {
          column := column.(dataType := Some(colData));
        }
        uml := SetColumn(uml, p.table, p.column, column);
      }
    }

    /** One call of the `forEach` callback, on token `index` of a column
        line whose handling started in state `start`. */
    method OnToken(ghost start: ParserState, tableColData: seq<string>, index: nat)
      returns (error: Option<ParseError>)
      requires Consistent(start) && start.isTable && index < |tableColData|
      requires ColumnTokens(start, tableColData, index) == Ok(State())
      modifies this
      ensures error.None? ==> ColumnTokens(start, tableColData, index + 1) == Ok(State())
      ensures error.Some? ==> ColumnTokens(start, tableColData, |tableColData|) == Err(error.value)
    {
      var colData := tableColData[index];
      ghost var before := State();
      assert ColumnTokens(start, tableColData, index + 1) == ColumnToken(before, colData, index);
      if index == 0 {
        if HasPkPrefix(colData) {
          AddColumn(colData[1..], true);
        } else if colData == ".." {
          // only this token is skipped: later tokens still apply
        } else {
          var colName := if |colData| > 0 && colData[0] == '-' then colData[1..] else colData;
          AddColumn(colName, false);
        }
      } else {
        if currentColumn.None? {
          ColumnTokensErrStays(start, tableColData, index + 1, |tableColData|);
          return Some(NoCurrentColumn);
        }
        UpdateCurrentColumn(colData);
      }
      return None;
    }

    /** The `forEach` over the space-separated tokens of a column line. */
    method OnColumnLine(tableColData: seq<string>) returns (error: Option<ParseError>)
      requires Valid() && isTable
      modifies this
      ensures error.None? ==> Valid()
      ensures ColumnTokens(old(State()), tableColData, |tableColData|)
              == if error.None? then Ok(State()) else Err(error.value)
    {
      ghost var start := State();
      error := None;
      for index := 0 to |tableColData|
        invariant error.None?
        invariant ColumnTokens(start, tableColData, index) == Ok(State())
      {
        error := OnToken(start, tableColData, index);
        if error.Some? {
          break;
        }
      }
    }

    /** The `'line'` handler. A thrown TypeError is returned as `error`. */
    method OnLine(input: string) returns (error: Option<ParseError>)
      requires Valid()
      modifies this
      ensures error.None? ==> Valid()
      ensures Step(old(State()), input) == if error.None? then Ok(State()) else Err(error.value)
    {
      if !isUml && StartsWith(input, "@startuml") {
        isUml := true;
        return None;
      }
      if isUml {
        error := OnUmlLine(Trim(input));
        return;
      }
      return None;
    }

    /** The handler on a line read after `@startuml`, once trimmed. */
    method OnUmlLine(line: string) returns (error: Option<ParseError>)
      requires Valid() && isUml
      modifies this
      ensures error.None? ==> Valid()
      ensures InsideUml(old(State()), line) == if error.None? then Ok(State()) else Err(error.value)
    {
      if !isTable && StartsWith(line, "class") {
        OpenClass(Field(Split(line, ' '), 1));
        return None;
      }
      if isTable && line != "}" {
        error := OnColumnLine(Split(line, ' '));
        return;
      } else if isTable && line == "}" {
        isTable := false;
      }
      return None;
    }

    /** A `class` line: registers a fresh table and makes it current. */
    method OpenClass(tableName: Option<string>)
      requires Valid()
      modifies this
      ensures Valid()
      ensures State() == OpenTable(old(State()), tableName)
    {
      isTable := true;
      currentTable := Show(tableName);
      uml := Put(uml, currentTable, Table(tableName, [], Empty()));
    }
  }

  /** `parseFile` up to the promise it resolves: the handler is run on
      every line of the input in order. */
  method ParseLines(lines: seq<string>) returns (r: Result<Schema, ParseError>)
    ensures r == Parse(lines)
  {
    var handler := new LineHandler();
    assert lines[..0] == [];
    for i := 0 to |lines|
      invariant handler.Valid()
      invariant Run(Initial, lines[..i]) == Ok(handler.State())
    {
      var error := handler.OnLine(lines[i]);
      RunSnoc(Initial, lines, i);
      if error.Some? {
        RunErrStays(Initial, lines, i + 1);
        return Err(error.value);
      }
    }
    assert lines[..|lines|] == lines;
    return Ok(handler.uml);
  }

  lemma RunSnoc(st: ParserState, lines: seq<string>, i: nat)
    requires Consistent(st) && i < |lines|
    ensures Run(st, lines[..i + 1])
            == match Run(st, lines[..i])
               case Err(e) => Err(e)
               case Ok(s) => Step(s, lines[i])
  {
    assert lines[..i + 1][..i] == lines[..i];
  }
}

/** What the line handler guarantees, stated over the functions of `Parser`. */
module ParserProperties {
  import opened Results
  import opened JsStrings
  import opened OrderedMaps
  import opened Uml
  import opened Parser

  predicate IsTypeToken(tok: string) {
    tok != "NN" && tok != "AUTO_INCREMENT" && !StartsWith(tok, "REF(")
  }

  /** The last token that names a type, if any. */
  function LastType(attrs: seq<string>): Option<string>
    decreases |attrs|
  {
    if attrs == [] then None
    else if IsTypeToken(attrs[|attrs| - 1]) then Some(attrs[|attrs| - 1])
    else LastType(attrs[..|attrs| - 1])
  }

  /** The target of the last `REF(` token, if any. */
  function LastRef(attrs: seq<string>): Option<ColRef>
    decreases |attrs|
  {
    if attrs == [] then None
    else if StartsWith(attrs[|attrs| - 1], "REF(") then Some(ParseRef(attrs[|attrs| - 1]))
    else LastRef(attrs[..|attrs| - 1])
  }

  /** The column a line's tokens describe when its first token declares
      one: flags for the tokens present, the last type and the last target. */
  function Declared(tokens: seq<string>): Column
    requires |tokens| >= 1
  {
    var attrs := tokens[1..];
    Column(ColumnName(tokens[0]), HasPkPrefix(tokens[0]),
           "NN" in attrs, "AUTO_INCREMENT" in attrs, LastType(attrs), LastRef(attrs))
  }

  /** The attribute tokens applied one after another. */
  function ApplyAll(col: Column, attrs: seq<string>): Column
    decreases |attrs|
  {
    if attrs == [] then col
    else ApplyAttribute(ApplyAll(col, attrs[..|attrs| - 1]), attrs[|attrs| - 1])
  }

  function ApplyAllAt(u: Schema, p: ColumnPath, attrs: seq<string>): (r: Schema)
    requires Shaped(u)
    ensures Shaped(r)
  {
    if HasColumn(u, p.table, p.column)
    then SetColumn(u, p.table, p.column, ApplyAll(Col(u, p.table, p.column), attrs))
    else u
  }

  /** The effect of the tokens after the first one: they all go to the
      current column, and throw when there is none. */
  function AttributesAt(st: ParserState, attrs: seq<string>): Result<ParserState, ParseError>
    requires Shaped(st.uml)
  {
    if attrs == [] then Ok(st)
    else match st.currentColumn
      case None => Err(NoCurrentColumn)
      case Some(p) => Ok(st.(uml := ApplyAllAt(st.uml, p, attrs)))
  }

  lemma KeywordsAreNotReferences()
    ensures !StartsWith("NN", "REF(")
    ensures !StartsWith("AUTO_INCREMENT", "REF(")
  {
    assert "AUTO_INCREMENT"[..4][0] == 'A';
  }

  /** Whatever the attribute tokens, the name and the primary-key flag stay;
      `NN` and `AUTO_INCREMENT` only ever set their flags; the last type token
      and the last `REF(` token win. */
  lemma AttributesSummary(col: Column, attrs: seq<string>)
    ensures ApplyAll(col, attrs).name == col.name
    ensures ApplyAll(col, attrs).isPk == col.isPk
    ensures ApplyAll(col, attrs).notNull == (col.notNull || "NN" in attrs)
    ensures ApplyAll(col, attrs).autoIncrement == (col.autoIncrement || "AUTO_INCREMENT" in attrs)
    ensures ApplyAll(col, attrs).dataType == if LastType(attrs).Some? then LastType(attrs) else col.dataType
    ensures ApplyAll(col, attrs).ref == if LastRef(attrs).Some? then LastRef(attrs) else col.ref
  {
    AttributesKeepIdentity(col, attrs);
    AttributesSetFlags(col, attrs);
    AttributesLastType(col, attrs);
    AttributesLastRef(col, attrs);
  }

  lemma {:induction false} AttributesKeepIdentity(col: Column, attrs: seq<string>)
    ensures ApplyAll(col, attrs).name == col.name
    ensures ApplyAll(col, attrs).isPk == col.isPk
    decreases |attrs|
  {
    if attrs != [] {
      AttributesKeepIdentity(col, attrs[..|attrs| - 1]);
    }
  }

  lemma {:induction false} AttributesSetFlags(col: Column, attrs: seq<string>)
    ensures ApplyAll(col, attrs).notNull == (col.notNull || "NN" in attrs)
    ensures ApplyAll(col, attrs).autoIncrement == (col.autoIncrement || "AUTO_INCREMENT" in attrs)
    decreases |attrs|
  {
    if attrs != [] {
      var init, tok := attrs[..|attrs| - 1], attrs[|attrs| - 1];
      AttributesSetFlags(col, init);
      assert attrs == init + [tok];
      assert "NN" in attrs <==> "NN" in init || tok == "NN";
      assert "AUTO_INCREMENT" in attrs <==> "AUTO_INCREMENT" in init || tok == "AUTO_INCREMENT";
    }
  }

  lemma {:induction false} AttributesLastType(col: Column, attrs: seq<string>)
    ensures ApplyAll(col, attrs).dataType == if LastType(attrs).Some? then LastType(attrs) else col.dataType
    decreases |attrs|
  {
    if attrs != [] {
      AttributesLastType(col, attrs[..|attrs| - 1]);
    }
  }

  lemma {:induction false} AttributesLastRef(col: Column, attrs: seq<string>)
    ensures ApplyAll(col, attrs).ref == if LastRef(attrs).Some? then LastRef(attrs) else col.ref
    decreases |attrs|
  {
    if attrs != [] {
      var tok := attrs[|attrs| - 1];
      AttributesLastRef(col, attrs[..|attrs| - 1]);
      KeywordsAreNotReferences();
      if StartsWith(tok, "REF(") {
        assert tok != "NN" && tok != "AUTO_INCREMENT";
      }
    }
  }

  lemma SetColumnTwice(u: Schema, t: string, c: string, a: Column, b: Column)
    requires Shaped(u) && HasColumn(u, t, c)
    ensures SetColumn(SetColumn(u, t, c, a), t, c, b) == SetColumn(u, t, c, b)
  {
    var tb := u.entries[t];
    var x := tb.(columns := Put(tb.columns, c, a));
    var y := tb.(columns := Put(tb.columns, c, b));
    PutTwice(tb.columns, c, a, b);
    assert x.(columns := Put(x.columns, c, b)) == y;
    PutTwice(u, t, x, y);
  }

  /** One more attribute token extends the run of attribute tokens. */
  lemma AttributesAtSnoc(s1: ParserState, init: seq<string>, tok: string, index: nat)
    requires Consistent(s1) && s1.isTable && index >= 1
    ensures AttributesAt(s1, init + [tok])
            == if AttributesAt(s1, init).Err? then AttributesAt(s1, init)
               else ColumnToken(AttributesAt(s1, init).value, tok, index)
  {
    assert (init + [tok])[..|init|] == init;
    match s1.currentColumn
    case None =>
    case Some(p) =>
      var u := s1.uml;
      if HasColumn(u, p.table, p.column) {
        var a := ApplyAll(Col(u, p.table, p.column), init);
        SetColumnTwice(u, p.table, p.column, a, ApplyAttribute(a, tok));
        if init == [] {
          assert ApplyAllAt(u, p, []) == SetColumn(u, p.table, p.column, Col(u, p.table, p.column));
          SetColumnTwice(u, p.table, p.column, Col(u, p.table, p.column), ApplyAttribute(a, tok));
        }
      }
  }

  /** The first token is handled on its own; every later token goes to
      whatever column is current after it. */
  lemma {:induction false} ColumnTokensSplit(st: ParserState, tokens: seq<string>, n: nat)
    requires Consistent(st) && st.isTable && 1 <= n <= |tokens|
    ensures ColumnToken(st, tokens[0], 0).Ok?
    ensures ColumnTokens(st, tokens, n) == AttributesAt(ColumnToken(st, tokens[0], 0).value, tokens[1..n])
    decreases n
  {
    if n == 1 {
      ColumnTokensFirst(st, tokens);
    } else {
      var s1 := ColumnToken(st, tokens[0], 0).value;
      ColumnTokensSplit(st, tokens, n - 1);
      SliceSnoc(tokens, n);
      AttributesAtSnoc(s1, tokens[1..n - 1], tokens[n - 1], n - 1);
    }
  }

  lemma ColumnTokensFirst(st: ParserState, tokens: seq<string>)
    requires Consistent(st) && st.isTable && 1 <= |tokens|
    ensures ColumnToken(st, tokens[0], 0).Ok?
    ensures ColumnTokens(st, tokens, 1) == AttributesAt(ColumnToken(st, tokens[0], 0).value, tokens[1..1])
  {
    assert tokens[1..1] == [];
  }

  lemma SliceSnoc(tokens: seq<string>, n: nat)
    requires 2 <= n <= |tokens|
    ensures tokens[1..n] == tokens[1..n - 1] + [tokens[n - 1]]
  {
  }

  /** Slicing from 1 to the length is slicing from 1. */
  lemma SliceToEnd(tokens: seq<string>)
    requires |tokens| >= 1
    ensures tokens[1..|tokens|] == tokens[1..]
  {
  }

  /** A column line whose first token is not `..`: the named column is
      (re)declared in the current table with exactly the attributes its
      tokens carry, keeps its place if it already existed, becomes current,
      and a primary key name is appended to `pkList`. */
  lemma ColumnLineDeclares(st: ParserState, line: string)
    requires Consistent(st) && st.isUml && st.isTable
    requires Trim(line) != "}"
    requires Split(Trim(line), ' ')[0] != ".."
    ensures
      var tokens := Split(Trim(line), ' ');
      var name := ColumnName(tokens[0]);
      var tb := st.uml.entries[st.currentTable];
      var tb' := tb.(pkList := if HasPkPrefix(tokens[0]) then tb.pkList + [name] else tb.pkList,
                     columns := Put(tb.columns, name, Declared(tokens)));
      Step(st, line)
      == Ok(st.(uml := Put(st.uml, st.currentTable, tb'),
                currentColumn := Some(ColumnPath(st.currentTable, name))))
  {
    assert Step(st, line) == InsideUml(st, Trim(line));
    TrimmedColumnLine(st, Trim(line));
  }

  lemma TrimmedColumnLine(st: ParserState, line: string)
    requires Consistent(st) && st.isUml && st.isTable
    requires line != "}" && Split(line, ' ')[0] != ".."
    ensures
      var tokens := Split(line, ' ');
      var name := ColumnName(tokens[0]);
      var tb := st.uml.entries[st.currentTable];
      var tb' := tb.(pkList := if HasPkPrefix(tokens[0]) then tb.pkList + [name] else tb.pkList,
                     columns := Put(tb.columns, name, Declared(tokens)));
      InsideUml(st, line)
      == Ok(st.(uml := Put(st.uml, st.currentTable, tb'),
                currentColumn := Some(ColumnPath(st.currentTable, name))))
  {
    var tokens := Split(line, ' ');
    assert InsideUml(st, line) == ColumnTokens(st, tokens, |tokens|);
    ColumnTokensSplit(st, tokens, |tokens|);
    SliceToEnd(tokens);
    assert ColumnToken(st, tokens[0], 0) == Ok(NewColumn(st, ColumnName(tokens[0]), HasPkPrefix(tokens[0])));
    DeclaredColumn(st, tokens);
  }

  /** The attribute tokens of a declaring line all land on the column the
      first token declared. */
  lemma DeclaredColumn(st: ParserState, tokens: seq<string>)
    requires Consistent(st) && st.isTable && |tokens| >= 1
    ensures
      var name := ColumnName(tokens[0]);
      var tb := st.uml.entries[st.currentTable];
      var tb' := tb.(pkList := if HasPkPrefix(tokens[0]) then tb.pkList + [name] else tb.pkList,
                     columns := Put(tb.columns, name, Declared(tokens)));
      AttributesAt(NewColumn(st, name, HasPkPrefix(tokens[0])), tokens[1..])
      == Ok(st.(uml := Put(st.uml, st.currentTable, tb'),
                currentColumn := Some(ColumnPath(st.currentTable, name))))
  {
    var first, attrs := tokens[0], tokens[1..];
    var name, pk := ColumnName(first), HasPkPrefix(first);
    var cur := st.currentTable;
    var tb := st.uml.entries[cur];
    var tbp := tb.(pkList := if pk then tb.pkList + [name] else tb.pkList);
    var blank := Column(name, pk, false, false, None, None);
    var s1 := NewColumn(st, name, pk);
    assert s1 == st.(uml := Put(st.uml, cur, tbp.(columns := Put(tb.columns, name, blank))),
                     currentColumn := Some(ColumnPath(cur, name)));
    AttributesSummary(blank, attrs);
    assert ApplyAll(blank, attrs) == Declared(tokens);
    if attrs != [] {
      RedeclaredColumn(st.uml, cur, tbp, name, blank, Declared(tokens));
    }
  }

  /** Declaring a column and then replacing it is declaring the
      replacement. */
  lemma RedeclaredColumn(u: Schema, t: string, tb: Table, c: string, a: Column, b: Column)
    requires Shaped(u) && t in u.entries && Valid(tb.columns)
    ensures var u1 := Put(u, t, tb.(columns := Put(tb.columns, c, a)));
            Shaped(u1) && HasColumn(u1, t, c) && Col(u1, t, c) == a
            && SetColumn(u1, t, c, b) == Put(u, t, tb.(columns := Put(tb.columns, c, b)))
  {
    var x := tb.(columns := Put(tb.columns, c, a));
    var y := tb.(columns := Put(tb.columns, c, b));
    PutTwice(tb.columns, c, a, b);
    assert x.(columns := Put(x.columns, c, b)) == y;
    PutTwice(u, t, x, y);
  }

  /** A `..` first token only skips itself: every later token still updates
      the column declared before it, and throws when there is none. */
  lemma DotDotSkipsOnlyItself(st: ParserState, line: string)
    requires Consistent(st) && st.isUml && st.isTable
    requires Split(Trim(line), ' ')[0] == ".."
    ensures Step(st, line) == AttributesAt(st, Split(Trim(line), ' ')[1..])
  {
    assert Step(st, line) == InsideUml(st, Trim(line));
    TrimmedDotDotLine(st, Trim(line));
  }

  lemma TrimmedDotDotLine(st: ParserState, line: string)
    requires Consistent(st) && st.isUml && st.isTable
    requires Split(line, ' ')[0] == ".."
    ensures InsideUml(st, line) == AttributesAt(st, Split(line, ' ')[1..])
  {
    var tokens := Split(line, ' ');
    SplitSepFree("}", ' ');
    assert line != "}";
    assert InsideUml(st, line) == ColumnTokens(st, tokens, |tokens|);
    ColumnTokensSplit(st, tokens, |tokens|);
    SliceToEnd(tokens);
  }

  /** A blank line inside a table declares a column named "" with no
      attributes. */
  lemma BlankLineDeclaresEmptyColumn(st: ParserState, line: string)
    requires Consistent(st) && st.isUml && st.isTable
    requires AllSpace(line)
    ensures Step(st, line).Ok?
    ensures var u := Step(st, line).value.uml;
            HasColumn(u, st.currentTable, "")
            && Col(u, st.currentTable, "") == Column("", false, false, false, None, None)
  {
    TrimPadding(line, "", "");
    assert line + "" + "" == line;
    assert Trim(line) == "";
    assert Split("", ' ') == [""];
    ColumnLineDeclares(st, line);
    assert Declared([""]) == Column("", false, false, false, None, None);
  }

  /** Any whitespace around a line read after `@startuml` is ignored. */
  lemma PaddingIgnored(st: ParserState, w1: string, line: string, w2: string)
    requires Consistent(st) && st.isUml
    requires AllSpace(w1) && AllSpace(w2)
    ensures Step(st, w1 + line + w2) == Step(st, line)
  {
    TrimPadding(w1, line, w2);
  }

  /** A `REF(` token names the table before the first `.` with its first
      letter capitalised and the column after it; the final character is
      dropped whatever it is. */
  lemma RefTokenTarget(table: string, col: string, last: char)
    requires '.' !in table && '.' !in col
    ensures ParseRef("REF(" + table + "." + col + [last]) == ColRef(Capitalize(table), Some(col))
  {
    var tok := "REF(" + table + "." + col + [last];
    assert SliceFourToLast(tok) == table + "." + col;
    assert Join([table, col], ".") == table + "." + col;
    SplitJoin([table, col], '.');
  }

  /** Without a `.`, the referenced column is undefined. */
  lemma RefTokenWithoutColumn(table: string, last: char)
    requires '.' !in table
    ensures ParseRef("REF(" + table + [last]) == ColRef(Capitalize(table), None)
  {
    assert SliceFourToLast("REF(" + table + [last]) == table;
    SplitSepFree(table, '.');
  }

  /** Running on `a + b` is running on `a`, then on `b` from where `a` left
      the handler. */
  lemma {:induction false} RunAppend(st: ParserState, a: seq<string>, b: seq<string>)
    requires Consistent(st)
    ensures Run(st, a + b)
            == match Run(st, a)
               case Err(e) => Err(e)
               case Ok(s) => Run(s, b)
    decreases |b|
  {
    if b == [] {
      assert a + b == a;
    } else {
      var b0 := b[..|b| - 1];
      RunAppend(st, a, b0);
      assert (a + b)[..|a + b| - 1] == a + b0;
    }
  }

  /** Before `@startuml` every line that does not start with it is ignored. */
  lemma {:induction false} PreambleIgnored(st: ParserState, pre: seq<string>)
    requires Consistent(st) && !st.isUml
    requires forall i :: 0 <= i < |pre| ==> !StartsWith(pre[i], "@startuml")
    ensures Run(st, pre) == Ok(st)
    decreases |pre|
  {
    if pre != [] {
      PreambleIgnored(st, pre[..|pre| - 1]);
    }
  }

  /** The first line that starts with `@startuml` (untrimmed) switches the
      handler on and does nothing else. */
  lemma StartMarker(pre: seq<string>, marker: string, rest: seq<string>)
    requires forall i :: 0 <= i < |pre| ==> !StartsWith(pre[i], "@startuml")
    requires StartsWith(marker, "@startuml")
    ensures Run(Initial, pre + [marker] + rest) == Run(Initial.(isUml := true), rest)
  {
    PreambleIgnored(Initial, pre);
    RunAppend(Initial, pre, [marker]);
    assert [marker][..0] == [];
    RunAppend(Initial, pre + [marker], rest);
  }

  /** Once on, the handler stays on: there is no end marker. */
  lemma {:induction false} RunStaysInUml(st: ParserState, lines: seq<string>)
    requires Consistent(st) && st.isUml
    ensures Run(st, lines).Ok? ==> Run(st, lines).value.isUml
    decreases |lines|
  {
    if lines != [] {
      RunStaysInUml(st, lines[..|lines| - 1]);
    }
  }

  /** A `class` line outside a table registers an empty table under the
      second token, as its `tableName`, and makes it current; a repeated
      name replaces the earlier table in its place. */
  lemma ClassLineOpensTable(st: ParserState, name: string)
    requires Consistent(st) && st.isUml && !st.isTable
    requires ' ' !in name
    ensures Step(st, "class " + name + " {")
            == Ok(st.(isTable := true, currentTable := name,
                      uml := Put(st.uml, name, Table(Some(name), [], Empty()))))
  {
    ClassLineTrimmed(name);
    ClassLineRead(st, name);
  }

  lemma ClassLineRead(st: ParserState, name: string)
    requires Consistent(st) && st.isUml && !st.isTable
    requires ' ' !in name
    ensures InsideUml(st, "class " + name + " {")
            == Ok(st.(isTable := true, currentTable := name,
                      uml := Put(st.uml, name, Table(Some(name), [], Empty()))))
  {
    ClassLinePrefix(name);
    JoinThree("class", name, "{", " ");
    assert "class" + " " + name + " " + "{" == "class " + name + " {";
    SplitJoin(["class", name, "{"], ' ');
  }

  lemma ClassLineTrimmed(name: string)
    ensures Trim("class " + name + " {") == "class " + name + " {"
  {
    var line := "class " + name + " {";
    assert line[0] == 'c' && line[|line| - 1] == '{';
    TrimTrimmed(line);
  }

  lemma ClassLinePrefix(name: string)
    ensures StartsWith("class " + name + " {", "class")
  {
    assert ("class " + name + " {")[..5] == "class";
  }

  /** A `class` line with no second token (`classroom` counts, as only the
      prefix is checked) registers its table under the key "undefined". */
  lemma ClassLineWithoutName(st: ParserState, line: string)
    requires Consistent(st) && st.isUml && !st.isTable
    requires StartsWith(Trim(line), "class") && ' ' !in Trim(line)
    ensures Step(st, line)
            == Ok(st.(isTable := true, currentTable := "undefined",
                      uml := Put(st.uml, "undefined", Table(None, [], Empty()))))
  {
    SplitSepFree(Trim(line), ' ');
  }

  /** Outside a table, a line read after `@startuml` that does not start
      with `class` changes nothing; before it, a line that does not start
      with `@startuml` changes nothing. */
  lemma InertOutsideTables(st: ParserState, line: string)
    requires Consistent(st) && !st.isTable
    requires st.isUml ==> !StartsWith(Trim(line), "class")
    requires !st.isUml ==> !StartsWith(line, "@startuml")
    ensures Step(st, line) == Ok(st)
  {
  }

  /** Inside a table, `}` ends it and leaves the schema and the current
      column as they are. */
  lemma CloseBraceEndsTable(st: ParserState, line: string)
    requires Consistent(st) && st.isUml && st.isTable
    requires Trim(line) == "}"
    ensures Step(st, line).Ok?
    ensures var s := Step(st, line).value;
            !s.isTable && s.uml == st.uml && s.currentColumn == st.currentColumn
  {
  }

  /** Declaring a column keeps the schema well-formed. */
  lemma NewColumnWellFormed(st: ParserState, name: string, isPk: bool)
    requires Consistent(st) && st.isTable && WellFormed(st.uml)
    ensures WellFormed(NewColumn(st, name, isPk).uml)
  {
    var u := NewColumn(st, name, isPk).uml;
    var t := st.currentTable;
    assert WellFormedTable(t, u.entries[t]);
  }

  /** Attribute tokens never touch a column's name or primary-key flag. */
  lemma UpdateAtWellFormed(u: Schema, p: ColumnPath, tok: string)
    requires Shaped(u) && WellFormed(u)
    ensures WellFormed(UpdateAt(u, p, tok))
  {
    if HasColumn(u, p.table, p.column) {
      SetColumnWellFormed(u, p.table, p.column, ApplyAttribute(Col(u, p.table, p.column), tok));
    }
  }

  /** Replacing a column by one with the same name and primary-key flag
      keeps the schema well-formed. */
  lemma SetColumnWellFormed(u: Schema, t: string, c: string, col: Column)
    requires Shaped(u) && WellFormed(u) && HasColumn(u, t, c)
    requires col.name == c && col.isPk == Col(u, t, c).isPk
    ensures WellFormed(SetColumn(u, t, c, col))
  {
    var r := SetColumn(u, t, c, col);
    TableWellFormed(t, u.entries[t], c, col);
    forall t' | t' in r.entries
      ensures WellFormedTable(t', r.entries[t'])
    {
      if t' != t {
        assert r.entries[t'] == u.entries[t'];
      }
    }
  }

  lemma TableWellFormed(t: string, tb: Table, c: string, col: Column)
    requires WellFormedTable(t, tb) && c in tb.columns.entries
    requires col.name == c && col.isPk == tb.columns.entries[c].isPk
    ensures WellFormedTable(t, tb.(columns := OMap(tb.columns.keys, tb.columns.entries[c := col])))
  {
  }

  lemma {:induction false} ColumnTokensWellFormed(st: ParserState, tokens: seq<string>, n: nat)
    requires Consistent(st) && st.isTable && n <= |tokens| && WellFormed(st.uml)
    ensures ColumnTokens(st, tokens, n).Ok? ==> WellFormed(ColumnTokens(st, tokens, n).value.uml)
    decreases n
  {
    if n > 0 {
      ColumnTokensWellFormed(st, tokens, n - 1);
      if ColumnTokens(st, tokens, n - 1).Ok? {
        ColumnTokenWellFormed(ColumnTokens(st, tokens, n - 1).value, tokens[n - 1], n - 1);
      }
    }
  }

  lemma ColumnTokenWellFormed(s: ParserState, tok: string, index: nat)
    requires Consistent(s) && s.isTable && WellFormed(s.uml)
    ensures ColumnToken(s, tok, index).Ok? ==> WellFormed(ColumnToken(s, tok, index).value.uml)
  {
    if index == 0 {
      if HasPkPrefix(tok) {
        NewColumnWellFormed(s, tok[1..], true);
      } else if tok != ".." {
        NewColumnWellFormed(s, if |tok| > 0 && tok[0] == '-' then tok[1..] else tok, false);
      }
    } else if s.currentColumn.Some? {
      UpdateAtWellFormed(s.uml, s.currentColumn.value, tok);
    }
  }

  /** Every handled line keeps the schema well-formed: tables under their
      own name, columns under their own name, primary keys listed. */
  lemma StepWellFormed(st: ParserState, input: string)
    requires Consistent(st) && WellFormed(st.uml)
    ensures Step(st, input).Ok? ==> WellFormed(Step(st, input).value.uml)
  {
    if st.isUml {
      assert Step(st, input) == InsideUml(st, Trim(input));
      InsideUmlWellFormed(st, Trim(input));
    }
  }

  lemma InsideUmlWellFormed(st: ParserState, line: string)
    requires Consistent(st) && st.isUml && WellFormed(st.uml)
    ensures InsideUml(st, line).Ok? ==> WellFormed(InsideUml(st, line).value.uml)
  {
    if !st.isTable && StartsWith(line, "class") {
      OpenTableWellFormed(st, Field(Split(line, ' '), 1));
    } else if st.isTable && line != "}" {
      var tokens := Split(line, ' ');
      ColumnTokensWellFormed(st, tokens, |tokens|);
    }
  }

  /** A `class` line registers its table under its own name. */
  lemma OpenTableWellFormed(st: ParserState, tableName: Option<string>)
    requires Consistent(st) && WellFormed(st.uml)
    ensures WellFormed(OpenTable(st, tableName).uml)
  {
    var u := OpenTable(st, tableName).uml;
    assert WellFormedTable(Show(tableName), u.entries[Show(tableName)]);
  }

  lemma {:induction false} RunWellFormed(st: ParserState, lines: seq<string>)
    requires Consistent(st) && WellFormed(st.uml)
    ensures Run(st, lines).Ok? ==> WellFormed(Run(st, lines).value.uml)
    decreases |lines|
  {
    if lines != [] {
      var init := lines[..|lines| - 1];
      RunWellFormed(st, init);
      if Run(st, init).Ok? {
        StepWellFormed(Run(st, init).value, lines[|lines| - 1]);
      }
    }
  }

  /** Whatever the diagram, the schema handed to the generator is
      well-formed. */
  lemma ParsedWellFormed(lines: seq<string>)
    ensures Parse(lines).Ok? ==> WellFormed(Parse(lines).value)
  {
    RunWellFormed(Initial, lines);
  }
}
