/** The parsed HTML document, reduced to what the scraper queries: its tables,
    in document order, each flat (no table nested inside another). */
module Document {

  /** A `th` (header) or a `td` (data) cell. */
  datatype Tag = Th | Td

  /** A cell of a row: its tag and its text content. */
  datatype Cell = Cell(tag: Tag, text: string)

  /** A `tr` element: its `th` and `td` cells in document order. */
  type Row = seq<Cell>

  /** One `table` element.
      - headCells: the text of each `thead th` cell, in document order;
      - rows:      every `tr` of the table, in document order (header rows included);
      - bodyRows:  the `tr` elements inside `tbody`, in document order. */
  datatype Table = Table(headCells: seq<string>, rows: seq<Row>, bodyRows: seq<Row>)
}
