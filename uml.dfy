/**
 * The intermediate schema the parser builds and the generator reads:
 * `IColRef`, `ITableColumn`, `ITableObject` and `IUML`.
 */
module Uml {
  import opened Results
  import opened OrderedMaps

  /** A `REF(table.col)` target. `col` is undefined when the reference
      has no `.`. */
  datatype ColRef = ColRef(table: string, col: Option<string>)

  /** One column. An optional boolean that was never set is `false`; the
      column type may be missing. */
  datatype Column = Column(
    name: string,
    isPk: bool,
    notNull: bool,
    autoIncrement: bool,
    dataType: Option<string>,
    ref: Option<ColRef>)

  /** One table. `tableName` is undefined for a `class` line with no second
      token. */
  datatype Table = Table(tableName: Option<string>, pkList: seq<string>, columns: OMap<Column>)

  /** The whole schema: table key to table. */
  type Schema = OMap<Table>

  /** How JavaScript turns a possibly undefined string into text, both as a
      property key and inside a template literal. */
  function Show(s: Option<string>): string
  {
    match s
    case Some(v) => v
    case None => "undefined"
  }

  /** Both levels of the schema are well-formed ordered maps. */
  ghost predicate Shaped(u: Schema) {
    Valid(u) && forall t :: t in u.entries ==> Valid(u.entries[t].columns)
  }

  /** What the parser guarantees of a table stored under `key`. */
  ghost predicate WellFormedTable(key: string, tb: Table) {
    && Show(tb.tableName) == key
    && Valid(tb.columns)
    && (forall c :: c in tb.columns.entries ==> tb.columns.entries[c].name == c)
    && (forall c :: c in tb.columns.entries && tb.columns.entries[c].isPk ==> c in tb.pkList)
    && (forall p :: p in tb.pkList ==> p in tb.columns.entries)
  }

  /** Every table is stored under its own name and every column under its
      own name; the primary-key list names every primary-key column, and
      only columns that exist. */
  ghost predicate WellFormed(u: Schema) {
    Valid(u) && forall t :: t in u.entries ==> WellFormedTable(t, u.entries[t])
  }

  function Col(u: Schema, t: string, c: string): Column
    requires t in u.entries && c in u.entries[t].columns.entries
  {
    u.entries[t].columns.entries[c]
  }

  predicate HasColumn(u: Schema, t: string, c: string) {
    t in u.entries && c in u.entries[t].columns.entries
  }

  /** `u[t].columns[c] = col` on an existing column: no key moves. */
  function SetColumn(u: Schema, t: string, c: string, col: Column): (r: Schema)
    requires Shaped(u) && HasColumn(u, t, c)
    ensures Shaped(r)
    ensures r.keys == u.keys && r.entries.Keys == u.entries.Keys
    ensures forall t' :: t' in u.entries && t' != t ==> r.entries[t'] == u.entries[t']
    ensures r.entries[t] == u.entries[t].(columns := OMap(u.entries[t].columns.keys, u.entries[t].columns.entries[c := col]))
  {
    var tb := u.entries[t];
    Put(u, t, tb.(columns := Put(tb.columns, c, col)))
  }
}
