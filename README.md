# Leaderboard scraper and admin guards, modelled in Dafny

The server of this repository keeps race leaderboards. Its scraper,
`getDriverPoints` in `server/datasearch.js`, takes a results page and finds the
table with a `Driver` and a `Points` column. It then turns each data row into a
`{ driver, points }` record. The Express server in `server/index.js` wraps the
scraper in routes. Those routes hold a few pure decisions:

- the `requireAdmin` guard, which checks the Authorization header and the role;
- the sanitiser for uploaded entries;
- the rename of scraped `driver` fields to `name`;
- the type check on a source url.

This project models all of these, from the parsed document onwards, and proves
what they promise.

- `wrappers.dfy` (`Wrappers`) holds `Option` (for `undefined`/`null`) and `Result` (for thrown errors and rejected requests).
- `text.dfy` (`Text`) holds the string operations the scraper chains:
  - JavaScript white space (`\s`, `trim()`), as the exact finite set of code points in the ECMAScript definition;
  - `trim()`;
  - `toLowerCase()` on ASCII letters;
  - the `clean` helper, which collapses white-space runs and trims;
  - removing all white space;
  - turning commas into periods.
- `numbers.dfy` (`Numbers`) models the score `Number(text) || null`:
  - it covers decimal strings with an optional sign and fraction;
  - a value is an exact `Decimal` (mantissa and scale);
  - a renderer `Show` is the parser's inverse.
- `document.dfy` (`Document`) is the parsed page as the scraper sees it: a sequence of flat tables. Each table has:
  - its `thead th` texts;
  - all of its `tr` rows, as `th`/`td` cells;
  - its `tbody tr` rows.
- `scraper.dfy` (`Scraper`) holds the scraper itself:
  - the two-pass table locator (`ScanTables`, `LocateTable`);
  - the column mapper;
  - the row extractor (`ExtractEntries`);
  - the whole operation (`GetDriverPoints`).

  The loops are methods. Each is proved equal to a specification function (`FirstMatch`, `Selected`, `Entries`, `DriverPoints`), and the properties are proved about those functions.
- `scenarios.dfy` (`Scenarios`) holds worked cases:
  - the scores of `"12,5"`, `"1 234,5"`, `""`, `"0"` and `"DNF"`;
  - a three-row standings table;
  - the choice between two tables;
  - the failure when no table qualifies.
- `server.dfy` (`Server`) holds the decisions in the route handlers, over a JSON value type. `jwt.verify` is a function parameter.

### Two consequences of the code worth knowing

- **Column indices.** The column mapper, at `server/datasearch.js:30-32`, reads the `thead th` cells whenever the table has any, even for a table chosen by the first-row pass. Such a table's `thead th` cells lack one of the tokens, so one index is -1 and that column reads as empty text. The scrape then succeeds with no entries (no driver column) or with every score null (no points column), and no error is raised. `Scraper.SecondPassUnderHeadCells` proves this. `Scraper.ColumnsResolved` proves that both indices resolve in every other case.
- **Zero scores.** The score is `Number(pointsText) || null`, so `|| null` also turns a score of zero into null, not only text that is not a number. `Scenarios.ScoreZeroIsNull` and `Numbers.ScoreShow` state this.

## Model

| member | source | states |
|---|---|---|
| Text.AsciiSpaces | server/datasearch.js:19 | among ASCII characters, the white space that `\s` matches and `trim()` removes is exactly blank, tab, line feed, vertical tab, form feed and carriage return |
| Text.Trim | server/datasearch.js:19 | `trim()` leaves no white space at either end and never lengthens the text |
| Text.TrimStartIsSuffix | server/datasearch.js:19 | dropping leading white space leaves a suffix of the text |
| Text.TrimEndIsPrefix | server/datasearch.js:19 | dropping trailing white space leaves a prefix of the text |
| Text.TrimKeepsContent | server/datasearch.js:19 | `trim()` removes white space only: with all white space removed, the trimmed and the raw text agree |
| Text.TrimNoEdge | server/datasearch.js:19 | text with no white space at either end is its own trim |
| Text.TrimOfPadded | server/datasearch.js:19 | `trim()` removes white space at the two ends only: text with no white space at its ends, padded with any white space on either side, comes back exactly as it was (`" a b"` gives `"a b"`) |
| Text.ToLower | server/datasearch.js:19 | lower-casing keeps the length, maps each of `A`-`Z` to the letter 32 code points above it, leaves every other character unchanged, and leaves no upper-case ASCII letter |
| Text.Collapse | server/datasearch.js:39 | `replace(/\s+/g, ' ')` never lengthens the text, starts with white space exactly when the input does, and is empty exactly when the input is |
| Text.CollapseShape | server/datasearch.js:39 | after `replace(/\s+/g, ' ')` no two white-space characters are adjacent and every one left is a blank |
| Text.CollapseRun | server/datasearch.js:39 | a maximal run of white space becomes exactly one blank, between the collapsed text before it and the collapsed text after it |
| Text.CollapseFixpoint | server/datasearch.js:39 | text with single blanks only is unchanged by collapsing |
| Text.TrimKeepsShape | server/datasearch.js:39 | trimming collapsed text keeps it free of double white space and of white space other than blanks |
| Text.Clean | server/datasearch.js:39 | `clean` leaves no leading or trailing white space, no run of two white-space characters, only blanks, and never lengthens the text |
| Text.CleanFixpoint | server/datasearch.js:39 | a text that is already clean is unchanged by `clean` |
| Text.CleanRun | server/datasearch.js:39 | between two pieces of text that do not touch it with white space, a white-space run comes out of `clean` as exactly one blank between the two pieces cleaned on their own (so `"A.  Driver"` gives `"A. Driver"`) |
| Text.CleanOfPadded | server/datasearch.js:39 | white space padded at either end of any text does not change what `clean` gives; with the run and fixpoint laws this fixes `clean` on every text (`"\n  A. Driver"` gives `"A. Driver"`) |
| Text.CleanIdempotent | server/datasearch.js:39 | applying `clean` twice equals applying it once |
| Text.RemoveSpaces | server/datasearch.js:46 | `replace(/\s/g, '')` leaves no white space and never lengthens the text |
| Text.RemoveSpacesOfText | server/datasearch.js:46 | text without white space is left unchanged; with the distribution law this fixes the result on every text |
| Text.RemoveSpacesAppend | server/datasearch.js:46 | removing white space works piece by piece: it distributes over concatenation |
| Text.CleanKeepsContent | server/datasearch.js:39-46 | `clean` changes white space only: with all white space removed, the cleaned and the raw text agree |
| Text.CommasToPeriods | server/datasearch.js:46 | `replace(/,/g, '.')` keeps the length, turns every comma into a period, and changes no other character |
| Numbers.ParseUnsigned | server/datasearch.js:47 | an unsigned decimal parses to a non-negative mantissa |
| Numbers.ParseWhole | server/datasearch.js:47 | a non-empty run of digits parses to its value with scale 0 |
| Numbers.ParsePointed | server/datasearch.js:47 | digits, a period and digits, with at least one digit, parse to all the digits scaled by the count after the period (`"5."` is 5, `".5"` is 5/10) |
| Numbers.ParseUnsignedAccepts | server/datasearch.js:47 | the unsigned parser accepts exactly the digit runs and the digit runs around one period with at least one digit |
| Numbers.ParseNumber | server/datasearch.js:47 | `Number` of the empty text is 0, and only a leading minus sign gives a negative value |
| Numbers.ParseNumberAccepts | server/datasearch.js:47 | `Number` is a number exactly for the empty text and for an unsigned literal with or without a leading `+` or `-`; every other text is NaN |
| Numbers.ParseNumberSigned | server/datasearch.js:47 | for an unsigned literal, `Number` gives the literal's value with or without a leading `+`, and its negation after a leading `-` |
| Numbers.ParseNumberWhole | server/datasearch.js:47 | a run of digits with or without a `+` is the whole number it spells, leading zeros included (`"007"` and `"+7"` are 7) |
| Numbers.ParseNumberPointed | server/datasearch.js:47 | digits, a period and digits, with or without a `+`, are the exact decimal (`"5."` is 5, `".5"` and `"+.5"` are 5/10) |
| Numbers.Score | server/datasearch.js:47 | the score, `Number` of the text or else null, is a number exactly when the text parses to a non-zero value, and then it is that value; NaN and zero both give null |
| Numbers.ParseShow | server/datasearch.js:47 | the number parser reads back every decimal written out by `Show`, sign and scale included |
| Numbers.ScoreShow | server/datasearch.js:47 | the score of a written-out decimal is that decimal, and null for zero |
| Scraper.Label | server/datasearch.js:19 | a label is never longer than its cell text, has no white space at either end and no upper-case ASCII letter |
| Scraper.LabelOfPadded | server/datasearch.js:19 | a header cell's text in any letter case with any white space around it labels as the bare word in lower case (`" Driver\n"` labels as `driver`) |
| Scraper.Labels | server/datasearch.js:19 | each header label is the trimmed, lower-cased cell text, position by position |
| Scraper.PassLabelsOf | server/datasearch.js:18-19 | each pass reads one label list per table, in document order |
| Scraper.FirstMatch | server/datasearch.js:17-21 | the chosen position holds both `driver` and `points` as whole labels and no earlier one does; there is none exactly when no list holds both |
| Scraper.FirstMatchIs | server/datasearch.js:20 | the first-match characterisation determines the choice uniquely |
| Scraper.ScanTables | server/datasearch.js:18-21 | the `each` loop with its `!table` guard keeps the first qualifying table, and a later match never replaces it |
| Scraper.LocateTable | server/datasearch.js:17-28 | pass 1 picks the first table whose `thead th` labels qualify, wherever the others are; pass 2 runs only when no `thead` qualifies and picks the first table whose first-row labels qualify; nothing is found exactly when no table qualifies in either pass |
| Scraper.Selected | server/datasearch.js:17-28 | the selected table is a table of the document, and there is none exactly when no table qualifies in either pass |
| Scraper.HeaderLabels | server/datasearch.js:30-34 | the column labels are those of the `thead th` cells whenever there are any, whichever pass chose the table; otherwise those of the first row's cells; none for a table without rows |
| Scraper.IndexOf | server/datasearch.js:35-36 | `indexOf` is -1 exactly when the label is absent, otherwise the position of its first occurrence |
| Scraper.MapColumns | server/datasearch.js:34-36 | each index is -1 exactly when its token is not among the column labels, and otherwise points at the first column holding that token, as `indexOf` does |
| Scraper.ColumnsResolved | server/datasearch.js:30-36 | for a pass-1 table, or a pass-2 table without `thead th` cells, both indices resolve to the `driver` and `points` labels |
| Scraper.DataRows | server/datasearch.js:38 | the data rows are the `tbody tr` rows when there are any, else every row but the first |
| Scraper.TdTexts | server/datasearch.js:43-44 | a row has no `td` text exactly when all its cells are `th` |
| Scraper.TdTextsAppend | server/datasearch.js:43 | the `td` texts of a row are read piece by piece, in row order |
| Scraper.TdTextsOfCell | server/datasearch.js:43 | one cell contributes its text exactly when it is a `td`; with the previous law, the result is the texts of the `td` cells in order |
| Scraper.CellAt | server/datasearch.js:45-46 | a cell index that is -1 or past the row's end reads as empty text instead of failing |
| Scraper.PointsText | server/datasearch.js:46 | the points text holds no white space and no comma |
| Scraper.PointsTextIgnoresClean | server/datasearch.js:46 | cleaning before removing white space does not change the points text |
| Scraper.RowEntries | server/datasearch.js:43-47 | a row gives at most one entry |
| Scraper.RowEntriesShape | server/datasearch.js:43-47 | a row gives no entry exactly when it has no `td` or its cleaned driver cell is empty; otherwise the entry's driver is that cleaned cell and its score is the score of the points cell's text, and the entry is well formed (driver non-empty and clean, score null or non-zero) |
| Scraper.FlatMapAppend | server/datasearch.js:42-48 | concatenating per-element results distributes over concatenation of the inputs |
| Scraper.Entries | server/datasearch.js:41-48 | at most one entry per data row |
| Scraper.EntriesSnoc | server/datasearch.js:41-48 | one more row appends exactly that row's entry, if any, to the entries so far |
| Scraper.EntriesWellFormed | server/datasearch.js:41-48 | every extracted entry is well formed |
| Scraper.EntriesFlatMap | server/datasearch.js:41-48 | the entries are the in-order concatenation of what each row contributes |
| Scraper.EntriesAppend | server/datasearch.js:41-48 | extraction keeps row order: two runs of rows give the first run's entries followed by the second's |
| Scraper.EntriesFromRows | server/datasearch.js:41-48 | every entry is the one entry of some data row |
| Scraper.ExtractEntries | server/datasearch.js:41-48 | the `rows.each` loop that pushes onto `out` computes exactly the entries of the data rows |
| Scraper.DriverPoints | server/datasearch.js:17-50 | the scrape fails exactly when no table qualifies in either pass, and otherwise gives at most one entry per data row of the selected table |
| Scraper.GetDriverPoints | server/datasearch.js:17-50 | the scrape fails (never returns an empty list instead) exactly when no table qualifies; on success it returns at most one well-formed entry per data row of the selected table |
| Scraper.NoDriverColumnNoEntries | server/datasearch.js:45-47 | with no driver column every row is dropped |
| Scraper.EmptyCellScoresNull | server/datasearch.js:46-47 | an empty points cell scores null |
| Scraper.NoPointsColumnNullScores | server/datasearch.js:46-47 | with no points column every entry's score is null |
| Scraper.SecondPassUnderHeadCells | server/datasearch.js:22-36 | a pass-2 table that has non-qualifying `thead th` cells scrapes without error: to no entries when those cells lack `driver`, and otherwise (they then lack `points`) to entries that all score null |
| Scenarios.ScoreDecimalComma | server/datasearch.js:46-47 | `"12,5"` scores 12.5 |
| Scenarios.ScoreThousandsSeparator | server/datasearch.js:46-47 | `"1 234,5"` scores 1234.5 |
| Scenarios.ScoreEmptyIsNull | server/datasearch.js:46-47 | `""` scores null |
| Scenarios.ScoreZeroIsNull | server/datasearch.js:47 | `"0"` scores null |
| Scenarios.ScoreDnfIsNull | server/datasearch.js:47 | `"DNF"` scores null |
| Scenarios.ScoreLeadingZeros | server/datasearch.js:47 | `"007"` and `"+7"` score 7 |
| Scenarios.ScoreLeadingPoint | server/datasearch.js:47 | `".5"` scores 0.5 and `"-.5"` scores -0.5 |
| Scenarios.ScoreTrailingPoint | server/datasearch.js:47 | `"5."` scores 5 |
| Scenarios.DataRowEntry | server/datasearch.js:43-47 | a three-`td` row with the driver in column 1 and the points in column 2 gives the clean name and the score of the points cell |
| Scenarios.StandingsScraped | server/datasearch.js:17-50 | a `thead` of Pos/Driver/Points over rows (1, A. Driver, 25), (2, B. Driver, 18,5), (3, C. Driver, empty) scrapes to A. Driver 25, B. Driver 18.5, C. Driver null |
| Scenarios.SecondTableOnly | server/datasearch.js:17-28 | of two tables, when only the second has both header tokens, the entries come from the second |
| Scenarios.HeadMatchBeatsEarlierFirstRow | server/datasearch.js:17-27 | a `thead` match in a later table wins over a first-row match in an earlier one |
| Scenarios.NoTableFails | server/datasearch.js:28 | with no qualifying table the scrape fails with table-not-found |
| Server.Truthy | server/index.js:107 | a JSON value is falsy exactly when it is null, false, 0 or the empty string; arrays and objects, empty ones included, are truthy |
| Server.BodyOrEmpty | server/index.js:104 | the body, or `{}` in its place, is the body when it is truthy, else the empty object, and is always truthy |
| Server.BearerToken | server/index.js:46-50 | a token exists exactly when the header is present and its first seven characters lower-case to `bearer `; the token is the rest of the header |
| Server.BearerTokenOf | server/index.js:47-50 | any letter case of `bearer ` followed by a token gives back that token |
| Server.RequireAdmin | server/index.js:45-60 | a missing or malformed header gives 401 `token puuttuu`; a token that fails verification gives 401 `virheellinen token`; a verified payload passes exactly when it is truthy with role `admin`, otherwise 403 `ei oikeuksia` |
| Server.ProceedOnlyForAdmin | server/index.js:45-60 | a request that passes carries `bearer ` and a token that verifies to an admin payload |
| Server.DecisionDependsOnTokenOnly | server/index.js:50-52 | the verifier is consulted on the sliced token only |
| Server.Keeps | server/index.js:107 | an entry passes the filter exactly when it is an object with a truthy `name` and a numeric `points` |
| Server.Project | server/index.js:108 | a stored entry carries exactly the kept entry's `name` and numeric `points` |
| Server.Sanitize | server/index.js:106-108 | the sanitised list is never longer than the input |
| Server.SanitizeAppend | server/index.js:106-108 | the sanitiser keeps input order: it distributes over concatenation |
| Server.SanitizeComplete | server/index.js:106-108 | every present entry with a truthy `name` and a numeric `points` is stored |
| Server.SanitizeSound | server/index.js:106-108 | every stored entry is the projection of such an input entry |
| Server.SanitizeAllKept | server/index.js:106-108 | a list whose entries all pass the filter is stored entry for entry |
| Server.SanitizeIdempotent | server/index.js:106-108 | a sanitised list sent back is stored unchanged |
| Server.PutEntries | server/index.js:104-108 | a body whose `entries` is not an array gives 400 `entries pitää olla taulukko`, and an array gives exactly its sanitised form |
| Server.Remap | server/index.js:89 | the remap keeps length and order, renames `driver` to `name` and keeps `points` |
| Server.RemapRoundTrip | server/index.js:89 | renaming the field back gives the scraped list |
| Server.SourceUrl | server/index.js:119-123 | the url is accepted exactly when it is a string, and is then the body's `url`; otherwise 400 `URL puuttuu tai on virheellinen` |
| Server.SourceUrlOf | server/index.js:119-123 | every string, the empty one included, is accepted as the url |

## Left out

- The HTTP fetch with its TLS agent, headers, timeout and status check (`server/datasearch.js:6-12`): network I/O.
- The cheerio parse (`server/datasearch.js:14`): a foreign library. Its result is the abstract `Document.Table` sequence. Each cell's `text()` is taken as given. Nested tables are left out: `find('tr')` would also collect rows of an inner table.
- The command-line block (`server/datasearch.js:53-63`): process arguments and console I/O.
- Numbers.Score: it reads only `[sign] digits [. digits]` (digits may be absent on one side of the period) and the empty text. The rest of JavaScript's `Number()` grammar is not modelled: exponents, `Infinity`, and the `0x`/`0o`/`0b` forms, which the model scores null. Values are exact decimals, not doubles rounded to 53 bits. So a literal too small for a double, such as `0.` followed by 400 zeros and a `1`, is null in the source (it rounds to 0, and `0 || null` is null) but a non-zero number in the model; a literal too large for a double is `Infinity` in the source.
- Text.ToLower: only the ASCII letters are lowered. The labels compared are `driver`, `points` and `bearer `, which are ASCII.
- Scraper.ScanTables: the labels of every table are computed before the scan, not inside the `each` callback. Both are pure, so the table chosen is the same.
- Express, CORS, dotenv, the Mongoose schemas and queries, the upserts and `app.listen` (`server/index.js:1-43`, `109-114`, `125-152`): persistence and server plumbing.
- The login and content routes (`server/index.js:62-78`, `137-147`): persistence and token signing.
- The GET leaderboard route around the remap (`server/index.js:81-100`): the database lookup, and the catch that turns a scrape error into an empty list with an error flag.
- Server.RequireAdmin: `jwt.verify` is a parameter. Its signature check and expiry live inside that function. Calling `next()` is the `Proceed` decision.
- Server.Project: the stored `name` is the JSON value as sent. Mongoose's cast of it to a string on saving is not modelled.
