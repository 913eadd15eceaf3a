/**
  The values the three output sinks exchange with their collaborators: the row
  structs of a result page, the flattened schema (`Flat`), the page position
  (`EdgeInfo`), the job and table metadata, and the formatter strategy.

  The collaborators whose code is not part of this model (the formatters,
  `createFlat`/`toRows`, `toSerializableEdgeInfo`) appear here only as function
  values, so every property of the sinks is proved for all of them.
*/
module Types {

  datatype Option<+T> = None | Some(value: T)

  /** One value of a row struct, as the query engine returns it. */
  datatype Value =
    | Null
    | Bool(b: bool)
    | Number(n: int)
    | Str(s: string)
    | Record(fields: map<string, Value>)
    | List(items: seq<Value>)

  /** A row of a result page: field name to value. The sinks never look inside. */
  type Struct = map<string, Value>

  /** A display column of the flattened schema; the sinks read only its id. */
  datatype Head = Head(id: string)

  /** One cell of a rendered row. */
  datatype Cell = Cell(id: string, value: Value)

  /** What `toRows` produces per struct: its row number, already in decimal, and its cell rows. */
  datatype NumberedRows = NumberedRows(rowNumber: string, rows: seq<seq<Cell>>)

  /** The flattened schema: the ordered heads and the materializer of rows from a start row number. */
  datatype Flat = Flat(heads: seq<Head>, toRows: (seq<Struct>, int) -> seq<NumberedRows>)

  /** The position of a page in the whole result; row numbers are unbounded integers. */
  datatype EdgeInfo = EdgeInfo(hasPrev: bool, hasNext: bool, rowNumberStart: int, rowNumberEnd: int)

  /** The same position with the row numbers as strings, for the viewer's transport. */
  datatype SerializableEdgeInfo =
    SerializableEdgeInfo(hasPrev: bool, hasNext: bool, rowNumberStart: string, rowNumberEnd: string)

  /** The conversion `toSerializableEdgeInfo`, supplied from outside this model. */
  type EdgeSerializer = EdgeInfo -> SerializableEdgeInfo

  /** Job and table metadata: passed through, never interpreted. */
  datatype JobInfo = JobInfo(fields: map<string, Value>)
  datatype TableInfo = TableInfo(fields: map<string, Value>)

  /** A formatter strategy: header text for a flat, rows text from a start row number, footer text. */
  datatype Formatter = Formatter(
    header: Flat -> string,
    rows: (seq<Struct>, int, Flat) -> string,
    footer: () -> string)

  /** The argument record of `writeRows`. */
  datatype RowsArgs = RowsArgs(
    structs: seq<Struct>,
    flat: Flat,
    jobInfo: JobInfo,
    tableInfo: TableInfo,
    edgeInfo: EdgeInfo)

  /** One call of the `Output` interface, with its arguments. */
  datatype Op =
    | Open
    | WriteHeads(flat: Flat)
    | WriteRows(args: RowsArgs)
    | Close
    | Dispose

  /**
    Two calls a formatter cannot tell apart: the same call, or two `writeRows`
    calls with the same structs and flat that differ only in the job, table or
    page information.
  */
  ghost predicate SameForFormatter(a: Op, b: Op) {
    if a.WriteRows? then
      b.WriteRows? && a.args.structs == b.args.structs && a.args.flat == b.args.flat
    else
      a == b
  }
}
