/**
 * The alerts page of src/pages/Alerts.tsx: a search box and a severity
 * selector narrow the alert list, three cards count the alerts of each
 * severity, and the export button builds a CSV text of the filtered alerts.
 */
module AlertsPage {
  import opened Wrappers
  import opened Text
  import opened Seqs
  import opened MockData

  /** The severity selector: `all`, or one severity literal. */
  datatype SeverityFilter = AllSeverities | OnlySeverity(severity: Severity)

  /** The device name or the attack type contains the search, ignoring case. */
  predicate MatchesSearch(a: Alert, term: string)
  {
    Contains(Lower(a.deviceName), Lower(term)) || Contains(Lower(a.attackType), Lower(term))
  }

  predicate MatchesSeverity(a: Alert, f: SeverityFilter)
  {
    f.AllSeverities? || a.severity == f.severity
  }

  function Shown(term: string, f: SeverityFilter): Alert -> bool
  {
    (a: Alert) => MatchesSearch(a, term) && MatchesSeverity(a, f)
  }

  /** `filteredAlerts`: the alerts matching both the search and the severity filter. */
  function FilteredAlerts(alerts: seq<Alert>, term: string, f: SeverityFilter): (r: seq<Alert>)
    ensures |r| <= |alerts|
    ensures forall a :: a in r <==> a in alerts && MatchesSearch(a, term) && MatchesSeverity(a, f)
  {
    Filter(alerts, Shown(term, f))
  }

  /** Filtering keeps the order of the alert list, so a newest-first list stays newest first. */
  lemma FilteredAlertsInOrder(alerts: seq<Alert>, term: string, f: SeverityFilter)
    ensures IsSubsequence(FilteredAlerts(alerts, term, f), alerts)
    ensures NewestFirst(alerts) ==> NewestFirst(FilteredAlerts(alerts, term, f))
  {
    var r := FilteredAlerts(alerts, term, f);
    FilterIsSubsequence(alerts, Shown(term, f));
    if NewestFirst(alerts) {
      forall i, j | 0 <= i < j < |r| ensures r[i].timestamp >= r[j].timestamp {
        SubsequenceOrder(r, alerts, i, j);
      }
    }
  }

  /** The search ignores case: an upper-cased search term shows the same alerts. */
  lemma SearchIgnoresCase(alerts: seq<Alert>, term: string, f: SeverityFilter)
    ensures FilteredAlerts(alerts, Upper(term), f) == FilteredAlerts(alerts, term, f)
  {
    assert Lower(Upper(term)) == Lower(term);
    FilterCongruent(alerts, Shown(Upper(term), f), Shown(term, f));
  }

  /** An empty search with the `all` filter shows every alert. */
  lemma EmptySearchShowsAll(alerts: seq<Alert>)
    ensures FilteredAlerts(alerts, "", AllSeverities) == alerts
  {
    forall k | 0 <= k < |alerts| ensures Shown("", AllSeverities)(alerts[k]) {
      ContainsEmpty(Lower(alerts[k].deviceName));
    }
    FilterKeepsAll(alerts, Shown("", AllSeverities));
  }

  /** `mockAlerts.filter(a => a.severity === s).length`. */
  function SeverityCount(alerts: seq<Alert>, s: Severity): (n: nat)
    ensures n <= |alerts|
  {
    |Filter(alerts, (a: Alert) => a.severity == s)|
  }

  /** The three severity cards add up to the number of alerts. */
  lemma {:induction false} SeverityCountsSum(alerts: seq<Alert>)
    ensures SeverityCount(alerts, High) + SeverityCount(alerts, Medium) + SeverityCount(alerts, Low) == |alerts|
    decreases |alerts|
  {
    if alerts != [] {
      SeverityCountsSum(alerts[1..]);
    }
  }

  // ------------------------------------------------------------------- CSV

  const Headers: seq<string> := ["Timestamp", "Device", "Severity", "Attack Type", "Anomaly Score", "Description"]

  /** The header line the export starts with. */
  const HeaderLine: string :=
    "Timestamp" + "," + "Device" + "," + "Severity" + "," + "Attack Type" + "," + "Anomaly Score" + "," + "Description"

  /**
   * The six cells of an alert's row; `format` stands for date-fns
   * `format(timestamp, 'yyyy-MM-dd HH:mm:ss')`.
   */
  function RowCells(a: Alert, format: int -> string): (cells: seq<string>)
    ensures |cells| == |Headers|
    ensures cells[1] == a.deviceName && cells[3] == a.attackType && cells[5] == a.description
  {
    [format(a.timestamp), a.deviceName, SeverityName(a.severity), a.attackType,
     NumberString(a.anomalyScore), a.description]
  }

  /** A cell in template-literal quotes; inner quotes are left as they are. */
  function Quote(cell: string): (q: string)
    ensures |q| == |cell| + 2 && q[0] == '"' && q[|q| - 1] == '"' && q[1..|q| - 1] == cell
  {
    ['"'] + cell + ['"']
  }

  function QuoteAll(cells: seq<string>): (qs: seq<string>)
    ensures |qs| == |cells| && forall k :: 0 <= k < |cells| ==> qs[k] == Quote(cells[k])
  {
    seq(|cells|, k requires 0 <= k < |cells| => Quote(cells[k]))
  }

  /** `row.map(cell => `"${cell}"`).join(',')`. */
  function CsvRow(cells: seq<string>): string
  {
    Join(QuoteAll(cells), ',')
  }

  /** The header line followed by one row per alert. */
  function CsvLines(alerts: seq<Alert>, format: int -> string): (lines: seq<string>)
    ensures |lines| == 1 + |alerts| && lines[0] == Join(Headers, ',')
    ensures forall k :: 0 <= k < |alerts| ==> lines[k + 1] == CsvRow(RowCells(alerts[k], format))
  {
    [Join(Headers, ',')] + DataRows(alerts, format)
  }

  /** `rows.map(...)`: one quoted row per alert. */
  function DataRows(alerts: seq<Alert>, format: int -> string): (rows: seq<string>)
    ensures |rows| == |alerts|
    ensures forall k :: 0 <= k < |alerts| ==> rows[k] == CsvRow(RowCells(alerts[k], format))
  {
    seq(|alerts|, k requires 0 <= k < |alerts| => CsvRow(RowCells(alerts[k], format)))
  }

  /** `csvContent`: the lines joined by newlines. */
  function ExportCsv(alerts: seq<Alert>, format: int -> string): string
  {
    Join(CsvLines(alerts, format), '\n')
  }

  // --------------------------------------------------- reading a row back

  /** Reads a cell up to its closing quote; returns the cell and what follows the quote. */
  function ReadQuoted(s: string): (r: Option<(string, string)>)
    ensures r.Some? ==> |r.value.1| < |s|
  {
    if s == [] then None
    else if s[0] == '"' then Some(([], s[1..]))
    else match ReadQuoted(s[1..])
      case None => None
      case Some(p) => Some(([s[0]] + p.0, p.1))
  }

  /** Reads a row of quoted cells separated by commas, the way a CSV reader does. */
  function ParseRow(s: string): Option<seq<string>>
    decreases |s|
  {
    if s == [] || s[0] != '"' then None
    else match ReadQuoted(s[1..])
      case None => None
      case Some(p) =>
        if p.1 == [] then Some([p.0])
        else if p.1[0] != ',' then None
        else match ParseRow(p.1[1..])
          case None => None
          case Some(rest) => Some([p.0] + rest)
  }

  lemma {:induction false} ReadQuotedCell(cell: string, rest: string)
    requires '"' !in cell
    ensures ReadQuoted(cell + ['"'] + rest) == Some((cell, rest))
    decreases |cell|
  {
    if cell == [] {
      assert cell + ['"'] + rest == ['"'] + rest;
    } else {
      assert (cell + ['"'] + rest)[1..] == cell[1..] + ['"'] + rest;
      ReadQuotedCell(cell[1..], rest);
      assert [cell[0]] + cell[1..] == cell;
    }
  }

  /**
   * A row reads back into its cells, commas inside cells included, as long
   * as no cell holds a double quote.
   */
  lemma {:induction false} RowRoundTrip(cells: seq<string>)
    requires |cells| >= 1
    requires forall k :: 0 <= k < |cells| ==> '"' !in cells[k]
    ensures ParseRow(CsvRow(cells)) == Some(cells)
    decreases |cells|
  {
    var qs := QuoteAll(cells);
    if |cells| == 1 {
      assert cells == [cells[0]];
      assert CsvRow(cells) == Quote(cells[0]);
      assert CsvRow(cells)[1..] == cells[0] + ['"'] + [];
      ReadQuotedCell(cells[0], []);
    } else {
      RowRoundTrip(cells[1..]);
      assert qs[1..] == QuoteAll(cells[1..]);
      var tail := [','] + CsvRow(cells[1..]);
      assert CsvRow(cells) == ['"'] + (cells[0] + ['"'] + tail);
      ReadQuotedCell(cells[0], tail);
      assert tail[1..] == CsvRow(cells[1..]);
      assert [cells[0]] + cells[1..] == cells;
    }
  }

  /**
   * Inner quotes are not doubled (section 2 of RFC 4180 requires it), so a
   * cell holding `","` reads back as two cells: the row of the single cell
   * `a","b` is the row of the two cells `a` and `b`.
   */
  lemma QuoteInCellIsAmbiguous()
    ensures CsvRow(["a\",\"b"]) == CsvRow(["a", "b"])
    ensures ParseRow(CsvRow(["a\",\"b"])) == Some(["a", "b"])
  {
    RowRoundTrip(["a", "b"]);
  }

  // ------------------------------------------------------- the whole text

  /** A text cell that neither breaks a line nor closes a quote. */
  predicate CsvSafe(s: string)
  {
    '\n' !in s && '"' !in s
  }

  /** The free-text cells of an alert's row are CSV-safe. */
  predicate SafeAlert(a: Alert, format: int -> string)
  {
    CsvSafe(format(a.timestamp)) && CsvSafe(a.deviceName) && CsvSafe(a.attackType) && CsvSafe(a.description)
  }

  lemma NumberStringSafe(n: int)
    ensures CsvSafe(NumberString(n))
  {
    var d := DecimalString(if n >= 0 then n else -n);
    assert forall k :: 0 <= k < |d| ==> IsDigit(d[k]);
    assert '\n' !in d && '"' !in d;
  }

  lemma RowCellsSafe(a: Alert, format: int -> string)
    requires SafeAlert(a, format)
    ensures forall c :: 0 <= c < |RowCells(a, format)| ==> CsvSafe(RowCells(a, format)[c])
  {
    NumberStringSafe(a.anomalyScore);
  }

  lemma RowHasNoNewline(a: Alert, format: int -> string)
    requires SafeAlert(a, format)
    ensures '\n' !in CsvRow(RowCells(a, format))
  {
    var cells := RowCells(a, format);
    RowCellsSafe(a, format);
    var qs := QuoteAll(cells);
    forall k | 0 <= k < |qs| ensures '\n' !in qs[k] {
      assert qs[k] == ['"'] + cells[k] + ['"'];
    }
    JoinAvoids(qs, ',', '\n');
  }

  /** The header line is the six headers joined by commas. */
  lemma HeaderLineSpec()
    ensures Join(Headers, ',') == HeaderLine
    ensures '\n' !in HeaderLine
  {
    var d := "Description";
    var s4 := "Anomaly Score" + [','] + d;
    var s3 := "Attack Type" + [','] + s4;
    var s2 := "Severity" + [','] + s3;
    var s1 := "Device" + [','] + s2;
    assert Join(Headers[5..], ',') == d;
    assert Join(Headers[4..], ',') == s4;
    assert Join(Headers[3..], ',') == s3;
    assert Join(Headers[2..], ',') == s2;
    assert Join(Headers[1..], ',') == s1;
    assert Join(Headers, ',') == "Timestamp" + [','] + s1;
  }

  /** For safe alerts, splitting the export at newlines gives back its lines. */
  lemma ExportSplitsIntoLines(alerts: seq<Alert>, format: int -> string)
    requires forall k :: 0 <= k < |alerts| ==> SafeAlert(alerts[k], format)
    ensures Split(ExportCsv(alerts, format), '\n') == CsvLines(alerts, format)
  {
    var lines := CsvLines(alerts, format);
    HeaderLineSpec();
    forall k | 0 <= k < |lines| ensures '\n' !in lines[k] {
      if k > 0 {
        RowHasNoNewline(alerts[k - 1], format);
      }
    }
    SplitJoin(lines, '\n');
  }

  /** Each data line of safe alerts reads back into that alert's six cells. */
  lemma DataRowsReadBack(alerts: seq<Alert>, format: int -> string)
    requires forall k :: 0 <= k < |alerts| ==> SafeAlert(alerts[k], format)
    ensures forall k :: 0 <= k < |alerts| ==>
      ParseRow(DataRows(alerts, format)[k]) == Some(RowCells(alerts[k], format))
  {
    forall k | 0 <= k < |alerts|
      ensures ParseRow(DataRows(alerts, format)[k]) == Some(RowCells(alerts[k], format))
    {
      RowCellsSafe(alerts[k], format);
      RowRoundTrip(RowCells(alerts[k], format));
    }
  }

  /**
   * The export of safe alerts: splitting it at newlines gives the header
   * line followed by exactly one line per filtered alert (so there is no
   * trailing newline), and each line reads back into that alert's six cells.
   */
  lemma ExportCsvSpec(alerts: seq<Alert>, format: int -> string)
    requires forall k :: 0 <= k < |alerts| ==> SafeAlert(alerts[k], format)
    ensures var lines := Split(ExportCsv(alerts, format), '\n');
      && |lines| == 1 + |alerts|
      && lines[0] == HeaderLine
      && forall k :: 0 <= k < |alerts| ==> ParseRow(lines[k + 1]) == Some(RowCells(alerts[k], format))
  {
    ExportSplitsIntoLines(alerts, format);
    DataRowsReadBack(alerts, format);
    HeaderLineSpec();
  }

  /** Whatever the cells hold, the first line of the export is the header line. */
  lemma ExportStartsWithHeader(alerts: seq<Alert>, format: int -> string)
    ensures Split(ExportCsv(alerts, format), '\n')[0] == HeaderLine
  {
    HeaderLineSpec();
    JoinFirstPart(CsvLines(alerts, format), '\n');
  }
}
