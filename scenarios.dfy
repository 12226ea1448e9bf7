/** Worked cases of the scraper on small documents and score texts. */
module Scenarios {
  import opened Wrappers
  import opened Text
  import opened Numbers
  import opened Document
  import opened Scraper

  // ---- Scores ----

  lemma CleanTextPoints(s: string)
    requires IsClean(s) && RemoveSpaces(s) == s
    ensures PointsText(s) == CommasToPeriods(s)
  {
    CleanFixpoint(s);
  }

  lemma Points25()
    ensures PointsText("25") == "25"
  {
    assert IsClean("25") && RemoveSpaces("25") == "25" && CommasToPeriods("25") == "25";
    CleanTextPoints("25");
  }

  lemma Points18c5()
    ensures PointsText("18,5") == "18.5"
  {
    assert IsClean("18,5") && RemoveSpaces("18,5") == "18,5" && CommasToPeriods("18,5") == "18.5";
    CleanTextPoints("18,5");
  }

  lemma Points12c5()
    ensures PointsText("12,5") == "12.5"
  {
    assert IsClean("12,5") && RemoveSpaces("12,5") == "12,5" && CommasToPeriods("12,5") == "12.5";
    CleanTextPoints("12,5");
  }

  lemma Clean1234c5()
    ensures IsClean("1 234,5")
  {
  }

  lemma Spaces234c5()
    ensures RemoveSpaces("234,5") == "234,5"
  {
  }

  lemma Spaces1234c5()
    ensures RemoveSpaces("1 234,5") == "1234,5"
  {
    Spaces234c5();
    var s := "1 234,5";
    assert s[1..] == " 234,5" && s[1..][1..] == "234,5";
    assert RemoveSpaces(s[1..]) == "234,5";
  }

  lemma Periods1234c5()
    ensures CommasToPeriods("1234,5") == "1234.5"
  {
  }

  lemma Points1234c5()
    ensures PointsText("1 234,5") == "1234.5"
  {
    Clean1234c5();
    CleanFixpoint("1 234,5");
    Spaces1234c5();
    Periods1234c5();
  }

  lemma PointsZero()
    ensures PointsText("0") == "0"
  {
    assert IsClean("0") && RemoveSpaces("0") == "0" && CommasToPeriods("0") == "0";
    CleanTextPoints("0");
  }

  lemma PointsDnf()
    ensures PointsText("DNF") == "DNF"
  {
    assert IsClean("DNF") && RemoveSpaces("DNF") == "DNF" && CommasToPeriods("DNF") == "DNF";
    CleanTextPoints("DNF");
  }

  lemma ParseZero()
    ensures Score("0") == None
  {
    assert DigitRun("0") == 1 && "0"[..1] == "0";
    assert DigitsValue("0") == 0 by { assert "0"[..0] == ""; }
  }

  lemma ParseDnf()
    ensures Score("DNF") == None
  {
    assert DigitRun("DNF") == 0;
  }

  lemma Parse25()
    ensures Score("25") == Some(Decimal(25, 0))
  {
    assert DigitRun("25") == 2 && "25"[..2] == "25";
    assert DigitsValue("25") == 25 by { assert "25"[..1] == "2"; }
  }

  /** Leading zeros and a `+` sign do not change a whole number. */
  lemma ScoreLeadingZeros()
    ensures Score("007") == Some(Decimal(7, 0)) && Score("+7") == Some(Decimal(7, 0))
  {
    ParseNumberWhole("007");
    ParseNumberWhole("7");
    assert ['+'] + "7" == "+7";
    assert DigitsValue("007") == 7 by { assert "007"[..2] == "00" && "00"[..1] == "0"; }
  }

  /** A period with no digit in front of it, signed or not. */
  lemma ScoreLeadingPoint()
    ensures Score(".5") == Some(Decimal(5, 1)) && Score("-.5") == Some(Decimal(-5, 1))
  {
    var x := ".5";
    ParsePointed([], "5");
    assert [] + ['.'] + "5" == x && [] + "5" == "5";
    ParseUnsignedSound(x);
    ParseNumberSigned(x);
    assert ['-'] + x == "-.5";
  }

  /** A period with no digit after it. */
  lemma ScoreTrailingPoint()
    ensures Score("5.") == Some(Decimal(5, 0))
  {
    ParseNumberPointed("5", []);
    assert "5" + ['.'] + [] == "5." && "5" + [] == "5";
  }

  lemma Parse18p5()
    ensures Score("18.5") == Some(Decimal(185, 1))
  {
    var s := "18.5";
    assert DigitRun(s) == 2;
    assert s[..2] == "18" && s[2..] == ".5" && s[2..][1..] == "5" && "18" + "5" == "185";
    assert DigitsValue("185") == 185 by { assert "185"[..2] == "18"; assert "18"[..1] == "1"; }
  }

  lemma Parse12p5()
    ensures Score("12.5") == Some(Decimal(125, 1))
  {
    var s := "12.5";
    assert DigitRun(s) == 2;
    assert s[..2] == "12" && s[2..] == ".5" && s[2..][1..] == "5" && "12" + "5" == "125";
    assert DigitsValue("125") == 125 by { assert "125"[..2] == "12"; assert "12"[..1] == "1"; }
  }

  lemma Parse1234p5()
    ensures Score("1234.5") == Some(Decimal(12345, 1))
  {
    var s := "1234.5";
    assert DigitRun(s) == 4;
    assert s[..4] == "1234" && s[4..] == ".5" && s[4..][1..] == "5" && "1234" + "5" == "12345";
    assert DigitsValue("12345") == 12345 by {
      assert "12345"[..4] == "1234";
      assert "1234"[..3] == "123";
      assert "123"[..2] == "12";
      assert "12"[..1] == "1";
    }
  }

  lemma TwelveAndAHalf()
    ensures Value(Decimal(125, 1)) == 12.5
  {
    assert Pow10(1) == 10;
  }

  lemma TwelveThirtyFourAndAHalf()
    ensures Value(Decimal(12345, 1)) == 1234.5
  {
    assert Pow10(1) == 10;
  }

  /** Composes a points-text step with a score step. */
  lemma ScoreOfPoints(cell: string, text: string, score: Option<Decimal>)
    requires PointsText(cell) == text && Score(text) == score
    ensures Score(PointsText(cell)) == score
  {
  }

  /** A comma is the decimal point: "12,5" scores 12.5. */
  lemma ScoreDecimalComma()
    ensures Score(PointsText("12,5")) == Some(Decimal(125, 1))
    ensures Value(Decimal(125, 1)) == 12.5
  {
    Points12c5();
    Parse12p5();
    TwelveAndAHalf();
    ScoreOfPoints("12,5", "12.5", Some(Decimal(125, 1)));
  }

  /** White space inside the number is a thousands separator: "1 234,5" scores 1234.5. */
  lemma ScoreThousandsSeparator()
    ensures Score(PointsText("1 234,5")) == Some(Decimal(12345, 1))
    ensures Value(Decimal(12345, 1)) == 1234.5
  {
    Points1234c5();
    Parse1234p5();
    TwelveThirtyFourAndAHalf();
    ScoreOfPoints("1 234,5", "1234.5", Some(Decimal(12345, 1)));
  }

  /** An empty points cell scores null. */
  lemma ScoreEmptyIsNull()
    ensures Score(PointsText("")) == None
  {
    assert IsClean("");
    CleanTextPoints("");
  }

  /** A zero score is null too: `Number("0") || null`. */
  lemma ScoreZeroIsNull()
    ensures Score(PointsText("0")) == None
  {
    PointsZero();
    ParseZero();
    ScoreOfPoints("0", "0", None);
  }

  /** Text that is not a number scores null. */
  lemma ScoreDnfIsNull()
    ensures Score(PointsText("DNF")) == None
  {
    PointsDnf();
    ParseDnf();
    ScoreOfPoints("DNF", "DNF", None);
  }

  // ---- A whole leaderboard table ----

  lemma TdTextsOfThree(pos: string, name: string, pts: string)
    ensures TdTexts([Cell(Td, pos), Cell(Td, name), Cell(Td, pts)]) == [pos, name, pts]
  {
    var row := [Cell(Td, pos), Cell(Td, name), Cell(Td, pts)];
    assert row[1..][1..][1..] == [];
    assert TdTexts(row[1..][1..]) == [pts];
    assert TdTexts(row[1..]) == [name, pts];
  }

  /** A row whose `td` texts put a clean, non-empty name in the driver column
      gives exactly one entry, scored from its points column. */
  lemma RowOfCells(row: Row, cols: Columns, name: string, pts: string)
    requires TdTexts(row) != []
    requires CellAt(TdTexts(row), cols.driver) == name && CellAt(TdTexts(row), cols.points) == pts
    requires name != [] && Clean(name) == name
    ensures RowEntries(row, cols) == [Entry(name, Score(PointsText(pts)))]
  {
  }

  /** A data row of three `td` cells read with the driver in column 1 and the
      points in column 2 gives the cleaned name and the score of its points. */
  lemma DataRowEntry(pos: string, name: string, pts: string)
    requires name != [] && IsClean(name)
    ensures RowEntries([Cell(Td, pos), Cell(Td, name), Cell(Td, pts)], Columns(1, 2))
      == [Entry(name, Score(PointsText(pts)))]
  {
    var row := [Cell(Td, pos), Cell(Td, name), Cell(Td, pts)];
    TdTextsOfThree(pos, name, pts);
    var tds := TdTexts(row);
    assert CellAt(tds, 1) == name && CellAt(tds, 2) == pts;
    CleanFixpoint(name);
    RowOfCells(row, Columns(1, 2), name, pts);
  }

  lemma LabelPos()
    ensures Label("Pos") == "pos"
  {
    assert NoEdgeSpace("Pos");
    TrimNoEdge("Pos");
  }

  lemma LabelDriver()
    ensures Label("Driver") == "driver"
  {
    assert NoEdgeSpace("Driver");
    TrimNoEdge("Driver");
  }

  lemma LabelPoints()
    ensures Label("Points") == "points"
  {
    assert NoEdgeSpace("Points");
    TrimNoEdge("Points");
  }

  lemma LabelsOfThree(a: string, b: string, c: string)
    ensures Labels([a, b, c]) == [Label(a), Label(b), Label(c)]
  {
    var ts := [a, b, c];
    ThreeOf(Labels(ts), Label(a), Label(b), Label(c));
  }

  lemma ThreeOf<T>(r: seq<T>, x: T, y: T, z: T)
    requires |r| == 3 && r[0] == x && r[1] == y && r[2] == z
    ensures r == [x, y, z]
  {
  }

  lemma HeadOfStandings()
    ensures Labels(["Pos", "Driver", "Points"]) == ["pos", "driver", "points"]
  {
    LabelsOfThree("Pos", "Driver", "Points");
    LabelPos();
    LabelDriver();
    LabelPoints();
  }

  lemma NameA()
    ensures IsClean("A. Driver")
  {
  }

  lemma NameB()
    ensures IsClean("B. Driver")
  {
  }

  lemma NameC()
    ensures IsClean("C. Driver")
  {
  }

  function StandingsRows(): seq<Row> {
    [ [Cell(Td, "1"), Cell(Td, "A. Driver"), Cell(Td, "25")],
      [Cell(Td, "2"), Cell(Td, "B. Driver"), Cell(Td, "18,5")],
      [Cell(Td, "3"), Cell(Td, "C. Driver"), Cell(Td, "")] ]
  }

  /** A table with a `thead` of Pos / Driver / Points and three body rows. */
  function Standings(): Table {
    Table(["Pos", "Driver", "Points"],
          [[Cell(Th, "Pos"), Cell(Th, "Driver"), Cell(Th, "Points")]] + StandingsRows(),
          StandingsRows())
  }

  lemma StandingsLabels()
    ensures HeadLabels(Standings()) == ["pos", "driver", "points"]
  {
    HeadOfStandings();
  }

  lemma StandingsColumns()
    ensures MapColumns(Standings()) == Columns(1, 2)
  {
    StandingsLabels();
    var labels: seq<string> := ["pos", "driver", "points"];
    assert HeaderLabels(Standings()) == labels;
    assert IndexOf(labels, DriverKey) == 1;
    assert IndexOf(labels, PointsKey) == 2;
  }

  lemma StandingsSelected()
    ensures Selected([Standings()]) == Some(0)
    ensures MapColumns(Standings()) == Columns(1, 2)
  {
    StandingsLabels();
    var labels: seq<string> := ["pos", "driver", "points"];
    assert labels[1] == DriverKey && labels[2] == PointsKey;
    OnlyOfOne(PassLabelsOf([Standings()], HeadPass));
    StandingsColumns();
  }

  lemma FlatMapOfThree<X, Y>(x0: X, x1: X, x2: X, f: X -> seq<Y>)
    ensures FlatMap([x0, x1, x2], f) == f(x0) + f(x1) + f(x2)
  {
    var xs := [x0, x1, x2];
    assert xs[..2] == [x0, x1] && [x0, x1][..1] == [x0] && [x0][..0] == [];
    assert FlatMap([x0], f) == f(x0);
    assert FlatMap([x0, x1], f) == f(x0) + f(x1);
  }

  lemma RowA()
    ensures RowEntries(StandingsRows()[0], Columns(1, 2)) == [Entry("A. Driver", Some(Decimal(25, 0)))]
  {
    NameA();
    DataRowEntry("1", "A. Driver", "25");
    Points25();
    Parse25();
  }

  lemma RowB()
    ensures RowEntries(StandingsRows()[1], Columns(1, 2)) == [Entry("B. Driver", Some(Decimal(185, 1)))]
  {
    NameB();
    DataRowEntry("2", "B. Driver", "18,5");
    Points18c5();
    Parse18p5();
  }

  lemma RowC()
    ensures RowEntries(StandingsRows()[2], Columns(1, 2)) == [Entry("C. Driver", None)]
  {
    NameC();
    DataRowEntry("3", "C. Driver", "");
    ScoreEmptyIsNull();
  }

  lemma FlatMapOfSingles<X, Y>(x0: X, x1: X, x2: X, f: X -> seq<Y>, y0: Y, y1: Y, y2: Y)
    requires f(x0) == [y0] && f(x1) == [y1] && f(x2) == [y2]
    ensures FlatMap([x0, x1, x2], f) == [y0, y1, y2]
  {
    FlatMapOfThree(x0, x1, x2, f);
  }

  lemma StandingsEntries()
    ensures Entries(StandingsRows(), Columns(1, 2)) ==
      [ Entry("A. Driver", Some(Decimal(25, 0))),
        Entry("B. Driver", Some(Decimal(185, 1))),
        Entry("C. Driver", None) ]
  {
    var rows := StandingsRows();
    var cols := Columns(1, 2);
    RowA();
    RowB();
    RowC();
    assert rows == [rows[0], rows[1], rows[2]];
    EntriesFlatMap(rows, cols);
    FlatMapOfSingles(rows[0], rows[1], rows[2], row => RowEntries(row, cols),
      Entry("A. Driver", Some(Decimal(25, 0))),
      Entry("B. Driver", Some(Decimal(185, 1))),
      Entry("C. Driver", None));
  }

  /** The worked example: A. Driver 25, B. Driver 18.5, and C. Driver with an
      empty points cell scored null. */
  lemma StandingsScraped()
    ensures DriverPoints([Standings()]) == Success(
      [ Entry("A. Driver", Some(Decimal(25, 0))),
        Entry("B. Driver", Some(Decimal(185, 1))),
        Entry("C. Driver", None) ])
  {
    StandingsSelected();
    StandingsEntries();
    assert DataRows(Standings()) == StandingsRows();
  }

  // ---- Choosing between tables ----

  lemma OnlyOfOne(ls: seq<seq<string>>)
    requires |ls| == 1 && HasDriverAndPoints(ls[0])
    ensures FirstMatch(ls) == Some(0)
  {
    FirstMatchIs(ls, Some(0));
  }

  lemma NoneOfTwo(ls: seq<seq<string>>)
    requires |ls| == 2 && !HasDriverAndPoints(ls[0]) && !HasDriverAndPoints(ls[1])
    ensures FirstMatch(ls) == None
  {
    FirstMatchIs(ls, None);
  }

  lemma SecondOfTwo(ls: seq<seq<string>>)
    requires |ls| == 2 && !HasDriverAndPoints(ls[0]) && HasDriverAndPoints(ls[1])
    ensures FirstMatch(ls) == Some(1)
  {
    FirstMatchIs(ls, Some(1));
  }

  lemma NoHeadMatchOfTwo(t0: Table, t1: Table)
    requires !Qualifies(t0, HeadPass) && !Qualifies(t1, HeadPass)
    ensures FirstQualifying([t0, t1], HeadPass) == None
  {
    NoneOfTwo(PassLabelsOf([t0, t1], HeadPass));
  }

  lemma SecondMatchOfTwo(t0: Table, t1: Table, pass: Pass)
    requires !Qualifies(t0, pass) && Qualifies(t1, pass)
    ensures FirstQualifying([t0, t1], pass) == Some(1)
  {
    SecondOfTwo(PassLabelsOf([t0, t1], pass));
  }

  lemma SecondTableSelected(t0: Table, t1: Table)
    requires !Qualifies(t0, HeadPass) && !Qualifies(t0, FirstRowPass)
    requires Qualifies(t1, HeadPass) || Qualifies(t1, FirstRowPass)
    ensures Selected([t0, t1]) == Some(1)
  {
    if Qualifies(t1, HeadPass) {
      SecondMatchOfTwo(t0, t1, HeadPass);
    } else {
      NoHeadMatchOfTwo(t0, t1);
      SecondMatchOfTwo(t0, t1, FirstRowPass);
    }
  }

  /** Two tables where only the second has the header tokens: the first is
      ignored and the entries come from the second. */
  lemma SecondTableOnly(t0: Table, t1: Table)
    requires !Qualifies(t0, HeadPass) && !Qualifies(t0, FirstRowPass)
    requires Qualifies(t1, HeadPass) || Qualifies(t1, FirstRowPass)
    ensures DriverPoints([t0, t1]) == Success(Entries(DataRows(t1), MapColumns(t1)))
  {
    SecondTableSelected(t0, t1);
    assert [t0, t1][1] == t1;
  }

  /** A `thead` match in a later table beats a first-row match in an earlier one. */
  lemma HeadMatchBeatsEarlierFirstRow(t0: Table, t1: Table)
    requires Qualifies(t0, FirstRowPass) && !Qualifies(t0, HeadPass)
    requires Qualifies(t1, HeadPass)
    ensures Selected([t0, t1]) == Some(1)
  {
    SecondMatchOfTwo(t0, t1, HeadPass);
  }

  /** No table carries both tokens: the scrape fails rather than returning an
      empty list. */
  lemma NoTableFails(doc: seq<Table>)
    requires forall j :: 0 <= j < |doc| ==> !Qualifies(doc[j], HeadPass) && !Qualifies(doc[j], FirstRowPass)
    ensures DriverPoints(doc) == Failure(TableNotFound)
  {
    FirstMatchIs(PassLabelsOf(doc, HeadPass), None);
    FirstMatchIs(PassLabelsOf(doc, FirstRowPass), None);
  }
}
