/** The leaderboard scraper `getDriverPoints` of server/datasearch.js, from the
    parsed document on: the two-pass table locator, the column mapper, the row
    extractor and the score normaliser. */
module Scraper {
  import opened Wrappers
  import opened Text
  import opened Numbers
  import opened Document

  const DriverKey: string := "driver"
  const PointsKey: string := "points"

  // ---- Header labels ----

  /** A header cell's label: `text().trim().toLowerCase()`. */
  function Label(text: string): (r: string)
    ensures |r| <= |text| && NoEdgeSpace(r)
    ensures forall i :: 0 <= i < |r| ==> !('A' <= r[i] <= 'Z')
  {
    ToLower(Trim(text))
  }

  /** A header cell's text in any letter case and padded with any white space
      gives the bare word in lower case. */
  lemma LabelOfPadded(w1: string, p: string, w2: string)
    requires AllSpace(w1) && AllSpace(w2)
    requires NoEdgeSpace(p)
    ensures Label(w1 + p + w2) == ToLower(p)
  {
    TrimOfPadded(w1, p, w2);
  }

  function Labels(texts: seq<string>): (r: seq<string>)
    ensures |r| == |texts|
    ensures forall i :: 0 <= i < |r| ==> r[i] == Label(texts[i])
  {
    seq(|texts|, i requires 0 <= i < |texts| => Label(texts[i]))
  }

  /** The texts of all cells of a row (`find('th,td')`). */
  function CellTexts(row: Row): (r: seq<string>)
    ensures |r| == |row|
    ensures forall i :: 0 <= i < |r| ==> r[i] == row[i].text
  {
    seq(|row|, i requires 0 <= i < |row| => row[i].text)
  }

  /** Labels of the `thead th` cells. */
  function HeadLabels(t: Table): seq<string> {
    Labels(t.headCells)
  }

  /** Labels of the `th,td` cells of the table's first `tr`; none without rows. */
  function FirstRowLabels(t: Table): seq<string> {
    if t.rows == [] then [] else Labels(CellTexts(t.rows[0]))
  }

  /** Both field tokens occur as whole labels. */
  predicate HasDriverAndPoints(labels: seq<string>) {
    DriverKey in labels && PointsKey in labels
  }

  // ---- Table locator ----

  /** Pass 1 looks at the `thead th` labels, pass 2 at the first row's labels. */
  datatype Pass = HeadPass | FirstRowPass

  /** The labels a pass reads from one table. */
  function PassLabels(t: Table, pass: Pass): seq<string> {
    if pass == HeadPass then HeadLabels(t) else FirstRowLabels(t)
  }

  predicate Qualifies(t: Table, pass: Pass) {
    HasDriverAndPoints(PassLabels(t, pass))
  }

  /** The labels a pass reads from every table, in document order. */
  function PassLabelsOf(doc: seq<Table>, pass: Pass): (ls: seq<seq<string>>)
    ensures |ls| == |doc|
    ensures forall j :: 0 <= j < |doc| ==> ls[j] == PassLabels(doc[j], pass)
  {
    seq(|doc|, j requires 0 <= j < |doc| => PassLabels(doc[j], pass))
  }

  /** The position of the first label list holding both field tokens. */
  function FirstMatch(ls: seq<seq<string>>): (r: Option<nat>)
    ensures r.Some? ==> r.value < |ls| && HasDriverAndPoints(ls[r.value])
    ensures r.Some? ==> forall j :: 0 <= j < r.value ==> !HasDriverAndPoints(ls[j])
    ensures r.None? <==> forall j :: 0 <= j < |ls| ==> !HasDriverAndPoints(ls[j])
  {
    if ls == [] then None
    else
      var init := ls[..|ls| - 1];
      assert forall j :: 0 <= j < |init| ==> init[j] == ls[j];
      var earlier := FirstMatch(init);
      if earlier.Some? then earlier
      else if HasDriverAndPoints(ls[|ls| - 1]) then Some(|ls| - 1)
      else None
  }

  /** The characterisation of `FirstMatch` determines it. */
  lemma FirstMatchIs(ls: seq<seq<string>>, r: Option<nat>)
    requires r.Some? ==> r.value < |ls| && HasDriverAndPoints(ls[r.value])
    requires r.Some? ==> forall j :: 0 <= j < r.value ==> !HasDriverAndPoints(ls[j])
    requires r.None? ==> forall j :: 0 <= j < |ls| ==> !HasDriverAndPoints(ls[j])
    ensures FirstMatch(ls) == r
  {
    if r.Some? {
      FirstMatchAt(ls, r.value);
    } else {
      FirstMatchNone(ls);
    }
  }

  /** A qualifying position with none before it is the first match. */
  lemma FirstMatchAt(ls: seq<seq<string>>, k: nat)
    requires k < |ls| && HasDriverAndPoints(ls[k])
    requires forall j :: 0 <= j < k ==> !HasDriverAndPoints(ls[j])
    ensures FirstMatch(ls) == Some(k)
  {
    var m := FirstMatch(ls);
    assert m.Some?;
    assert !(m.value < k);
  }

  /** No qualifying position means no match. */
  lemma FirstMatchNone(ls: seq<seq<string>>)
    requires forall j :: 0 <= j < |ls| ==> !HasDriverAndPoints(ls[j])
    ensures FirstMatch(ls) == None
  {
  }

  /** The index of the first table, in document order, that qualifies in `pass`. */
  function FirstQualifying(doc: seq<Table>, pass: Pass): Option<nat> {
    FirstMatch(PassLabelsOf(doc, pass))
  }

  /** The table `getDriverPoints` works on: the first pass-1 match if there is
      one anywhere, else the first pass-2 match. */
  function Selected(doc: seq<Table>): (r: Option<nat>)
    ensures r.Some? ==> r.value < |doc|
    ensures r.None? <==>
      forall j :: 0 <= j < |doc| ==> !Qualifies(doc[j], HeadPass) && !Qualifies(doc[j], FirstRowPass)
  {
    var first := FirstQualifying(doc, HeadPass);
    if first.Some? then first else FirstQualifying(doc, FirstRowPass)
  }

  /** One `$('table').each` scan over the tables' label lists: every table is
      visited, and the `!table` guard keeps the first one whose labels hold
      both field tokens. */
  method ScanTables(labelsPerTable: seq<seq<string>>) returns (table: Option<nat>)
    ensures table == FirstMatch(labelsPerTable)
  {
    table := None;
    for i := 0 to |labelsPerTable|
      invariant table.Some? ==> table.value < i && HasDriverAndPoints(labelsPerTable[table.value])
      invariant table.Some? ==> forall j :: 0 <= j < table.value ==> !HasDriverAndPoints(labelsPerTable[j])
      invariant table.None? ==> forall j :: 0 <= j < i ==> !HasDriverAndPoints(labelsPerTable[j])
    {
      var labels := labelsPerTable[i];
      if DriverKey in labels && PointsKey in labels && table.None? {
        table := Some(i);
      }
    }
    FirstMatchIs(labelsPerTable, table);
  }

  /** The table locator: pass 1 over the `thead th` labels, and pass 2 over
      the first rows only when pass 1 found nothing. */
  method LocateTable(doc: seq<Table>) returns (table: Option<nat>)
    ensures table == Selected(doc)
    ensures table.Some? ==> table.value < |doc|
    // pass 1: the first table whose thead labels qualify, wherever the others are
    ensures (exists j :: 0 <= j < |doc| && Qualifies(doc[j], HeadPass)) ==>
      table.Some? && Qualifies(doc[table.value], HeadPass) &&
      forall j :: 0 <= j < table.value ==> !Qualifies(doc[j], HeadPass)
    // pass 2 only when no thead qualifies anywhere
    ensures (forall j :: 0 <= j < |doc| ==> !Qualifies(doc[j], HeadPass)) && table.Some? ==>
      Qualifies(doc[table.value], FirstRowPass) &&
      forall j :: 0 <= j < table.value ==> !Qualifies(doc[j], FirstRowPass)
    // nothing found only when no table qualifies in either pass
    ensures table.None? <==>
      forall j :: 0 <= j < |doc| ==> !Qualifies(doc[j], HeadPass) && !Qualifies(doc[j], FirstRowPass)
  {
    table := ScanTables(PassLabelsOf(doc, HeadPass));
    if table.None? {
      table := ScanTables(PassLabelsOf(doc, FirstRowPass));
    }
  }

  // ---- Column mapper ----

  /** Header labels used for the column indices: `thead th` when there are
      any, otherwise the first row's `th,td`. */
  function HeaderLabels(t: Table): (r: seq<string>)
    ensures |t.headCells| > 0 ==>
      |r| == |t.headCells| && forall i :: 0 <= i < |r| ==> r[i] == Label(t.headCells[i])
    ensures |t.headCells| == 0 && t.rows != [] ==>
      |r| == |t.rows[0]| && forall i :: 0 <= i < |r| ==> r[i] == Label(t.rows[0][i].text)
    ensures |t.headCells| == 0 && t.rows == [] ==> r == []
  {
    if |t.headCells| > 0 then HeadLabels(t) else FirstRowLabels(t)
  }

  /** JavaScript's `labels.indexOf(key)`: the first position of `key`, or -1. */
  function IndexOf(labels: seq<string>, key: string): (i: int)
    ensures -1 <= i < |labels|
    ensures i == -1 <==> key !in labels
    ensures 0 <= i ==> labels[i] == key && forall j :: 0 <= j < i ==> labels[j] != key
  {
    if labels == [] then -1
    else if labels[0] == key then 0
    else
      var k := IndexOf(labels[1..], key);
      if k == -1 then -1 else k + 1
  }

  /** Positions of the driver and points columns (-1 when absent). */
  datatype Columns = Columns(driver: int, points: int)

  function MapColumns(t: Table): (c: Columns)
    ensures var labels := HeaderLabels(t);
      && (c.driver == -1 <==> DriverKey !in labels)
      && (c.points == -1 <==> PointsKey !in labels)
      && (0 <= c.driver ==> c.driver < |labels| && labels[c.driver] == DriverKey)
      && (0 <= c.points ==> c.points < |labels| && labels[c.points] == PointsKey)
      // `indexOf` picks the first column holding the token
      && (0 <= c.driver ==> forall j :: 0 <= j < c.driver ==> labels[j] != DriverKey)
      && (0 <= c.points ==> forall j :: 0 <= j < c.points ==> labels[j] != PointsKey)
  {
    var labels := HeaderLabels(t);
    Columns(IndexOf(labels, DriverKey), IndexOf(labels, PointsKey))
  }

  /** Both columns resolve when the table qualified through the same labels the
      mapper reads: a pass-1 table, or a pass-2 table without `thead th` cells. */
  lemma ColumnsResolved(t: Table)
    requires Qualifies(t, HeadPass) || (|t.headCells| == 0 && Qualifies(t, FirstRowPass))
    ensures var c := MapColumns(t);
      0 <= c.driver && 0 <= c.points &&
      HeaderLabels(t)[c.driver] == DriverKey && HeaderLabels(t)[c.points] == PointsKey
  {
    if Qualifies(t, HeadPass) {
      assert |HeadLabels(t)| > 0;
    }
  }

  // ---- Row extractor ----

  /** The data rows: the `tbody tr` rows if there are any, otherwise every
      row but the first. */
  function DataRows(t: Table): (rows: seq<Row>)
    ensures |t.bodyRows| > 0 ==> rows == t.bodyRows
    ensures |t.bodyRows| == 0 && t.rows != [] ==> rows == t.rows[1..]
    ensures |t.bodyRows| == 0 && t.rows == [] ==> rows == []
  {
    if |t.bodyRows| > 0 then t.bodyRows else if t.rows == [] then [] else t.rows[1..]
  }

  /** The texts of the row's `td` cells (`$(tr).find('td')`), `th` cells skipped. */
  function TdTexts(row: Row): (r: seq<string>)
    ensures |r| <= |row|
    ensures r == [] <==> forall i :: 0 <= i < |row| ==> row[i].tag == Th
  {
    if row == [] then []
    else (if row[0].tag == Td then [row[0].text] else []) + TdTexts(row[1..])
  }

  /** `td` cells are read piece by piece, in row order. */
  lemma {:induction false} TdTextsAppend(a: Row, b: Row)
    ensures TdTexts(a + b) == TdTexts(a) + TdTexts(b)
    decreases |a|
  {
    if a == [] {
      assert a + b == b;
    } else {
      TdTextsCons(a, b);
      TdTextsAppend(a[1..], b);
      Regroup3(TdTexts([a[0]]), TdTexts(a[1..]), TdTexts(b));
      TdTextsCons(a, []);
      assert a + [] == a && a[1..] + [] == a[1..];
    }
  }

  /** The first cell of a row, followed by more cells. */
  lemma TdTextsCons(a: Row, b: Row)
    requires a != []
    ensures TdTexts(a + b) == TdTexts([a[0]]) + TdTexts(a[1..] + b)
  {
    assert (a + b)[0] == a[0] && (a + b)[1..] == a[1..] + b;
    assert [a[0]][1..] == [];
  }

  /** One cell contributes its text exactly when it is a `td`. */
  lemma TdTextsOfCell(c: Cell)
    ensures TdTexts([c]) == if c.tag == Td then [c.text] else []
  {
    assert [c][1..] == [];
  }

  /** `$(tds[i]).text()`: a missing cell (index -1 or past the end) reads as "". */
  function CellAt(tds: seq<string>, i: int): (r: string)
    ensures 0 <= i < |tds| ==> r == tds[i]
    ensures !(0 <= i < |tds|) ==> r == ""
  {
    if 0 <= i < |tds| then tds[i] else ""
  }

  /** The points text: cleaned, then all white space removed and commas made periods. */
  function PointsText(cell: string): (r: string)
    ensures forall i :: 0 <= i < |r| ==> !IsSpace(r[i]) && r[i] != ','
  {
    CommasToPeriods(RemoveSpaces(Clean(cell)))
  }

  /** Cleaning first does not change the points text. */
  lemma PointsTextIgnoresClean(cell: string)
    ensures PointsText(cell) == CommasToPeriods(RemoveSpaces(cell))
  {
    CleanKeepsContent(cell);
  }

  /** One output record of `getDriverPoints`. */
  datatype Entry = Entry(driver: string, points: Option<Decimal>)

  /** A well-formed output record: a non-empty, cleaned driver name and a
      score that is either null or a non-zero number. */
  predicate WellFormed(e: Entry) {
    e.driver != [] && IsClean(e.driver) && (e.points.Some? ==> e.points.value.mantissa != 0)
  }

  /** What one data row contributes: nothing when it has no `td` or its driver
      text is empty after cleaning, otherwise one entry. */
  function RowEntries(row: Row, cols: Columns): (r: seq<Entry>)
    ensures |r| <= 1
  {
    var tds := TdTexts(row);
    if tds == [] then []
    else
      var driver := Clean(CellAt(tds, cols.driver));
      if driver == [] then []
      else [Entry(driver, Score(PointsText(CellAt(tds, cols.points))))]
  }

  /** A row gives no entry exactly when it has no `td` or its cleaned driver
      cell is empty; otherwise its one entry is well formed, named by that
      cleaned cell and scored from the points cell. */
  lemma RowEntriesShape(row: Row, cols: Columns)
    ensures var tds := TdTexts(row);
      && (RowEntries(row, cols) == [] <==> tds == [] || Clean(CellAt(tds, cols.driver)) == [])
      && (RowEntries(row, cols) != [] ==>
            && WellFormed(RowEntries(row, cols)[0])
            && RowEntries(row, cols)[0].driver == Clean(CellAt(tds, cols.driver))
            && RowEntries(row, cols)[0].points == Score(PointsText(CellAt(tds, cols.points))))
  {
  }

  /** A row's entry, when it has one, is well formed. */
  lemma RowEntryWellFormed(row: Row, cols: Columns)
    ensures RowEntries(row, cols) != [] ==> WellFormed(RowEntries(row, cols)[0])
  {
  }

  /** The concatenation of `f(x)` for every `x` of `xs`, in order. */
  function FlatMap<X, Y>(xs: seq<X>, f: X -> seq<Y>): seq<Y> {
    if xs == [] then [] else FlatMap(xs[..|xs| - 1], f) + f(xs[|xs| - 1])
  }

  lemma {:induction false} FlatMapAppend<X, Y>(a: seq<X>, b: seq<X>, f: X -> seq<Y>)
    ensures FlatMap(a + b, f) == FlatMap(a, f) + FlatMap(b, f)
    decreases |b|
  {
    if b == [] {
      assert a + b == a;
    } else {
      var ab := a + b;
      assert ab[..|ab| - 1] == a + b[..|b| - 1] && ab[|ab| - 1] == b[|b| - 1];
      FlatMapAppend(a, b[..|b| - 1], f);
    }
  }

  /** The entries of the data rows, in row order: at most one per row. */
  function Entries(rows: seq<Row>, cols: Columns): (out: seq<Entry>)
    ensures |out| <= |rows|
  {
    if rows == [] then []
    else Entries(rows[..|rows| - 1], cols) + RowEntries(rows[|rows| - 1], cols)
  }

  /** Extending the rows by one extends the entries by that row's contribution. */
  lemma EntriesSnoc(rows: seq<Row>, i: nat, cols: Columns)
    requires i < |rows|
    ensures Entries(rows[..i + 1], cols) == Entries(rows[..i], cols) + RowEntries(rows[i], cols)
  {
    assert rows[..i + 1][..i] == rows[..i];
  }

  /** `Entries` is the in-order concatenation of what each row contributes. */
  lemma {:induction false} EntriesFlatMap(rows: seq<Row>, cols: Columns)
    ensures Entries(rows, cols) == FlatMap(rows, row => RowEntries(row, cols))
  {
    if rows != [] {
      EntriesFlatMap(rows[..|rows| - 1], cols);
    }
  }

  /** Extraction follows row order: the entries of two consecutive runs of
      rows are those of the first run followed by those of the second. */
  lemma EntriesAppend(a: seq<Row>, b: seq<Row>, cols: Columns)
    ensures Entries(a + b, cols) == Entries(a, cols) + Entries(b, cols)
  {
    EntriesFlatMap(a + b, cols);
    EntriesFlatMap(a, cols);
    EntriesFlatMap(b, cols);
    FlatMapAppend(a, b, row => RowEntries(row, cols));
  }

  /** When every element yields at most one result, each result of the
      concatenation is the one result of some element. */
  lemma {:induction false} FlatMapOrigin<X, Y>(xs: seq<X>, f: X -> seq<Y>, k: nat)
    requires forall x :: |f(x)| <= 1
    requires k < |FlatMap(xs, f)|
    ensures exists j :: 0 <= j < |xs| && f(xs[j]) == [FlatMap(xs, f)[k]]
  {
    var init := xs[..|xs| - 1];
    var before := FlatMap(init, f);
    var last := f(xs[|xs| - 1]);
    if k < |before| {
      FlatMapOrigin(init, f, k);
      var j :| 0 <= j < |init| && f(init[j]) == [before[k]];
      assert xs[j] == init[j];
    } else {
      assert |last| == 1 && FlatMap(xs, f)[k] == last[0];
    }
  }

  /** When every result of every element satisfies `p`, so does every result
      of the concatenation. */
  lemma {:induction false} FlatMapAll<X, Y>(xs: seq<X>, f: X -> seq<Y>, p: Y -> bool)
    requires forall x, i :: 0 <= i < |f(x)| ==> p(f(x)[i])
    ensures forall k :: 0 <= k < |FlatMap(xs, f)| ==> p(FlatMap(xs, f)[k])
  {
    if xs != [] {
      FlatMapAll(xs[..|xs| - 1], f, p);
    }
  }

  /** Every emitted entry is well formed: a non-empty, clean driver name and a
      null or non-zero score. */
  lemma EntriesWellFormed(rows: seq<Row>, cols: Columns)
    ensures forall k :: 0 <= k < |Entries(rows, cols)| ==> WellFormed(Entries(rows, cols)[k])
  {
    forall row: Row, i | 0 <= i < |RowEntries(row, cols)|
      ensures WellFormed(RowEntries(row, cols)[i])
    {
      RowEntryWellFormed(row, cols);
    }
    EntriesFlatMap(rows, cols);
    FlatMapAll(rows, row => RowEntries(row, cols), WellFormed);
  }

  /** Every entry is the one entry of some data row. */
  lemma EntriesFromRows(rows: seq<Row>, cols: Columns, k: nat)
    requires k < |Entries(rows, cols)|
    ensures exists j :: 0 <= j < |rows| && RowEntries(rows[j], cols) == [Entries(rows, cols)[k]]
  {
    EntriesFlatMap(rows, cols);
    FlatMapOrigin(rows, row => RowEntries(row, cols), k);
  }

  /** The `rows.each` loop that pushes onto `out`. */
  method ExtractEntries(rows: seq<Row>, cols: Columns) returns (out: seq<Entry>)
    ensures out == Entries(rows, cols)
  {
    out := [];
    for i := 0 to |rows|
      invariant out == Entries(rows[..i], cols)
    {
      EntriesSnoc(rows, i, cols);
      var tds := TdTexts(rows[i]);
      if |tds| == 0 {
        continue;
      }
      var driver := Clean(CellAt(tds, cols.driver));
      var pointsText := CommasToPeriods(RemoveSpaces(Clean(CellAt(tds, cols.points))));
      if driver != [] {
        out := out + [Entry(driver, Score(pointsText))];
      }
    }
    assert rows[..|rows|] == rows;
  }

  // ---- The whole scraper ----

  /** The scraper's one failure: no table qualifies in either pass. */
  datatype ScrapeError = TableNotFound

  /** `getDriverPoints` after fetching and parsing. */
  function DriverPoints(doc: seq<Table>): (r: Result<seq<Entry>, ScrapeError>)
    ensures r.Failure? <==>
      forall j :: 0 <= j < |doc| ==> !Qualifies(doc[j], HeadPass) && !Qualifies(doc[j], FirstRowPass)
    ensures r.Success? ==> Selected(doc).Some? && |r.value| <= |DataRows(doc[Selected(doc).value])|
  {
    match Selected(doc)
    case None => Failure(TableNotFound)
    case Some(i) => Success(Entries(DataRows(doc[i]), MapColumns(doc[i])))
  }

  method GetDriverPoints(doc: seq<Table>) returns (r: Result<seq<Entry>, ScrapeError>)
    ensures r == DriverPoints(doc)
    // the only failure: no table qualifies in either pass; never an empty list instead
    ensures r.Failure? <==>
      forall j :: 0 <= j < |doc| ==> !Qualifies(doc[j], HeadPass) && !Qualifies(doc[j], FirstRowPass)
    // on success: at most one well-formed entry per data row of the selected table
    ensures r.Success? ==>
      && Selected(doc).Some?
      && |r.value| <= |DataRows(doc[Selected(doc).value])|
      && forall k :: 0 <= k < |r.value| ==> WellFormed(r.value[k])
  {
    var table := LocateTable(doc);
    if table.None? {
      return Failure(TableNotFound);
    }
    var t := doc[table.value];
    var headers := HeaderLabels(t);
    var cols := Columns(IndexOf(headers, DriverKey), IndexOf(headers, PointsKey));
    var rows := DataRows(t);
    var out := ExtractEntries(rows, cols);
    EntriesWellFormed(rows, cols);
    return Success(out);
  }

  // ---- Unresolved columns ----

  /** With no driver column (`indexOf` gave -1) every driver cell reads as
      empty text, so every row is dropped. */
  lemma {:induction false} NoDriverColumnNoEntries(rows: seq<Row>, cols: Columns)
    requires cols.driver < 0
    ensures Entries(rows, cols) == []
  {
    if rows != [] {
      NoDriverColumnNoEntries(rows[..|rows| - 1], cols);
    }
  }

  /** The points text of an empty cell scores null. */
  lemma EmptyCellScoresNull()
    ensures Score(PointsText("")) == None
  {
    assert ParseNumber("") == Some(Decimal(0, 0));
  }

  /** The entry's score is null. */
  predicate Unscored(e: Entry) {
    e.points.None?
  }

  lemma NoPointsColumnRow(row: Row, cols: Columns, i: nat)
    requires cols.points < 0
    requires i < |RowEntries(row, cols)|
    ensures Unscored(RowEntries(row, cols)[i])
  {
    EmptyCellScoresNull();
  }

  /** With no points column every points cell reads as empty text, so every
      entry has a null score. */
  lemma NoPointsColumnNullScores(rows: seq<Row>, cols: Columns)
    requires cols.points < 0
    ensures forall k :: 0 <= k < |Entries(rows, cols)| ==> Unscored(Entries(rows, cols)[k])
  {
    var f := row => RowEntries(row, cols);
    forall row: Row, i | 0 <= i < |f(row)|
      ensures Unscored(f(row)[i])
    {
      NoPointsColumnRow(row, cols, i);
    }
    EntriesFlatMap(rows, cols);
    FlatMapAll(rows, f, Unscored);
  }

  /** A table chosen by the first-row pass that has `thead th` cells of its own
      takes its columns from those cells, which lack a token: the scrape then
      succeeds with no entries, or with every score null. */
  lemma SecondPassUnderHeadCells(doc: seq<Table>)
    requires Selected(doc).Some?
    requires var t := doc[Selected(doc).value]; |t.headCells| > 0 && !Qualifies(t, HeadPass)
    ensures DriverPoints(doc).Success?
    ensures var t := doc[Selected(doc).value]; var out := DriverPoints(doc).value;
      && (DriverKey !in HeadLabels(t) ==> out == [])
      && (DriverKey in HeadLabels(t) ==> PointsKey !in HeadLabels(t) && forall k :: 0 <= k < |out| ==> out[k].points.None?)
  {
    var t := doc[Selected(doc).value];
    var cols := MapColumns(t);
    assert HeaderLabels(t) == HeadLabels(t);
    if cols.driver < 0 {
      NoDriverColumnNoEntries(DataRows(t), cols);
    } else {
      NoPointsColumnNullScores(DataRows(t), cols);
    }
  }
}
