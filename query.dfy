/** The select queries the pages build with the store client's query builder,
    kept as data, and what it means for a returned row to meet them. The store
    is not modelled: `Honours` is the promise it makes about its answer, and
    the model only ever uses it as a hypothesis. */
module Query {
  import opened Results
  import opened Strings

  /** One filter added to a select. */
  datatype Constraint =
    | Eq(column: string, value: string)               // `.eq(column, value)`
    | Ilike(column: string, pattern: string)          // `.ilike(column, pattern)`
    | Gte(column: string, value: string)              // `.gte(column, value)`
    | Lte(column: string, value: string)              // `.lte(column, value)`
    | Either(left: Constraint, right: Constraint)     // `.or('left, right')`

  /** `.order(column, { ascending })` */
  datatype Order = Order(column: string, ascending: bool)

  /** `.from(table).select('*')` with its filters, order and `.limit(n)`. */
  datatype Select = Select(table: string, constraints: seq<Constraint>, order: Option<Order>, limit: Option<nat>)

  /** A returned row, as its present columns. */
  type Row = map<string, string>

  /** Adds a column to a row when the value is present. */
  function WithColumn(row: Row, column: string, o: Option<string>): Row {
    if o.Some? then row[column := o.value] else row
  }

  /** The rows the store holds for a list of records, given how one record
      maps to its columns: one row per record, in the list's order. */
  function Rows<T>(s: seq<T>, columns: T -> Row): (rows: seq<Row>)
    ensures |rows| == |s|
    ensures forall i :: 0 <= i < |s| ==> rows[i] == columns(s[i])
  {
    seq(|s|, i requires 0 <= i < |s| => columns(s[i]))
  }

  /** The pattern `%${x}%`. */
  function Wildcards(x: string): string {
    "%" + x + "%"
  }

  /** Case-insensitive match of `value` against a pattern: a pattern wrapped in
      `%` matches any value containing what it wraps, any other pattern only
      an equal value. */
  predicate IlikeMatches(value: string, pattern: string) {
    if |pattern| >= 2 && pattern[0] == '%' && pattern[|pattern| - 1] == '%'
    then Contains(Lower(value), Lower(pattern[1..|pattern| - 1]))
    else Lower(value) == Lower(pattern)
  }

  /** The row meets the constraint; a missing column meets none. */
  predicate Satisfies(row: Row, c: Constraint) {
    match c
    case Eq(col, v) => col in row && row[col] == v
    case Ilike(col, p) => col in row && IlikeMatches(row[col], p)
    case Gte(col, v) => col in row && StrLe(v, row[col])
    case Lte(col, v) => col in row && StrLe(row[col], v)
    case Either(a, b) => Satisfies(row, a) || Satisfies(row, b)
  }

  /** The row meets every constraint of the list. */
  predicate SatisfiesAll(row: Row, cs: seq<Constraint>) {
    forall c :: c in cs ==> Satisfies(row, c)
  }

  /** A list of constraints meets the row when both its halves do. */
  lemma SatisfiesAllConcat(row: Row, a: seq<Constraint>, b: seq<Constraint>)
    ensures SatisfiesAll(row, a + b) <==> SatisfiesAll(row, a) && SatisfiesAll(row, b)
  {
  }

  /** A single constraint, as a list. */
  lemma SatisfiesAllSingle(row: Row, c: Constraint)
    ensures SatisfiesAll(row, [c]) <==> Satisfies(row, c)
  {
  }

  /** The store answered `q` as it promises: every row meets every constraint,
      and there are no more rows than the limit. */
  predicate Honours(q: Select, rows: seq<Row>) {
    && (forall i :: 0 <= i < |rows| ==> SatisfiesAll(rows[i], q.constraints))
    && (q.limit.Some? ==> |rows| <= q.limit.value)
  }

  /** `ilike(column, '%x%')` is a case-insensitive "contains x". */
  lemma WildcardsMatch(value: string, x: string)
    ensures IlikeMatches(value, Wildcards(x)) <==> Contains(Lower(value), Lower(x))
  {
  }
}
