/**
 * The report exporter: the reports CSV, the activity-timeline CSV, the delta
 * export, the two-file package and the summary counts. Writing a file is a
 * loop appending one line per row; whether the platform write succeeds is a
 * parameter (`writeOk`), as are the clock reading that names the file and
 * the locale-dependent renderings of dates and doubles.
 */
module ReportExport {
  import opened Wrappers
  import opened Text
  import opened Seqs
  import opened Csv
  import opened FieldReports

  /** `SimpleDateFormat("yyyy-MM-dd HH:mm:ss")` of a millisecond instant and
      `Double.toString`, supplied by the platform. */
  datatype Formats = Formats(dateTime: int -> string, decimal: real -> string)

  /** A written file: its name and its whole content. */
  datatype CsvFile = CsvFile(name: string, content: string)

  function ReportColumns(): seq<Cell> {
    [Raw("ID"), Raw("Timestamp"), Raw("DateTime"), Raw("Longitude"), Raw("Latitude"),
     Raw("Category"), Raw("Severity"), Raw("Status"), Raw("Title"), Raw("Description"),
     Raw("PhotoCount"), Raw("LastUpdated"), Raw("Synced"), Raw("WKT")]
  }

  function TimelineColumns(): seq<Cell> {
    [Raw("ReportID"), Raw("ReportTitle"), Raw("UpdateID"), Raw("UpdateType"), Raw("Timestamp"),
     Raw("DateTime"), Raw("Status"), Raw("UpdateText"), Raw("PhotoCount"), Raw("Longitude"),
     Raw("Latitude"), Raw("Category"), Raw("Severity")]
  }

  /** The header line of the reports file. */
  function ReportHeader(): string {
    Line(ReportColumns())
  }

  /** The header line of the timeline file. */
  function TimelineHeader(): string {
    Line(TimelineColumns())
  }

  /** Column names are made of letters only. */
  predicate IsColumnName(v: string) {
    forall i :: 0 <= i < |v| ==> 'A' <= v[i] <= 'Z' || 'a' <= v[i] <= 'z'
  }

  lemma ColumnNamePlain(c: Cell)
    requires c.Raw? && IsColumnName(c.raw)
    ensures c.WellFormed()
  {
    forall i | 0 <= i < |c.raw| ensures c.raw[i] != ',' && c.raw[i] != '"' && c.raw[i] != '\n' { }
  }

  /** No column name needs quoting, so each header reads back as its names. */
  lemma ReportColumnsWellFormed()
    ensures |ReportColumns()| == 14 && forall j :: 0 <= j < 14 ==> ReportColumns()[j].WellFormed()
  {
    assert forall j :: 0 <= j < 14 ==> ReportColumns()[j].Raw? && IsColumnName(ReportColumns()[j].raw);
    forall j | 0 <= j < 14 ensures ReportColumns()[j].WellFormed() {
      ColumnNamePlain(ReportColumns()[j]);
    }
  }

  lemma TimelineColumnsWellFormed()
    ensures |TimelineColumns()| == 13 && forall j :: 0 <= j < 13 ==> TimelineColumns()[j].WellFormed()
  {
    assert forall j :: 0 <= j < 13 ==> TimelineColumns()[j].Raw? && IsColumnName(TimelineColumns()[j].raw);
    forall j | 0 <= j < 13 ensures TimelineColumns()[j].WellFormed() {
      ColumnNamePlain(TimelineColumns()[j]);
    }
  }

  function ReportsFileName(now: int): string {
    "field_reports_" + IntToString(now) + ".csv"
  }

  function TimelineFileName(now: int): string {
    "activity_timeline_" + IntToString(now) + ".csv"
  }

  function YesNo(b: bool): string {
    if b then "Yes" else "No"
  }

  /** The WKT point geometry, longitude first. */
  function Wkt(r: FieldReport, fmt: Formats): string {
    "POINT(" + fmt.decimal(r.longitude) + " " + fmt.decimal(r.latitude) + ")"
  }

  /** The point reads longitude first: after "POINT(" comes the longitude,
      one space, the latitude and the closing parenthesis. */
  lemma WktShape(r: FieldReport, fmt: Formats)
    ensures var w, lon, lat := Wkt(r, fmt), fmt.decimal(r.longitude), fmt.decimal(r.latitude);
      |w| == 8 + |lon| + |lat| && w[..6] == "POINT(" && w[6..6 + |lon|] == lon
      && w[6 + |lon|] == ' ' && w[7 + |lon|..|w| - 1] == lat && w[|w| - 1] == ')'
  {
  }

  /** The 14 cells of one report's row. */
  function ReportCells(r: FieldReport, fmt: Formats): (cells: seq<Cell>)
    ensures |cells| == |ReportColumns()|
  {
    [Text(r.localId), Raw(IntToString(r.timestamp)), Text(fmt.dateTime(r.timestamp)),
     Raw(fmt.decimal(r.longitude)), Raw(fmt.decimal(r.latitude)),
     Text(r.category.DisplayName()), Text(r.severity.DisplayName()), Text(r.status.DisplayName()),
     Text(r.title), Text(r.description), Raw(NatToString(|r.photoUris|)),
     Text(fmt.dateTime(r.lastUpdated)), Raw(YesNo(r.isSynced)), Text(Wkt(r, fmt))]
  }

  function ReportRows(reports: seq<FieldReport>, fmt: Formats): (rows: seq<seq<Cell>>)
    ensures |rows| == |reports|
    ensures forall i :: 0 <= i < |reports| ==> rows[i] == ReportCells(reports[i], fmt)
  {
    if reports == [] then [] else [ReportCells(reports[0], fmt)] + ReportRows(reports[1..], fmt)
  }

  /** The whole reports file. */
  function ReportsCsv(reports: seq<FieldReport>, fmt: Formats): string {
    ReportHeader() + Render(ReportRows(reports, fmt))
  }

  function ReportsFile(reports: seq<FieldReport>, fmt: Formats, now: int): CsvFile {
    CsvFile(ReportsFileName(now), ReportsCsv(reports, fmt))
  }

  lemma ReportRowsSnoc(reports: seq<FieldReport>, i: int, fmt: Formats)
    requires 0 <= i < |reports|
    ensures ReportRows(reports[..i + 1], fmt) == ReportRows(reports[..i], fmt) + [ReportCells(reports[i], fmt)]
  {
    var a, b := ReportRows(reports[..i + 1], fmt), ReportRows(reports[..i], fmt) + [ReportCells(reports[i], fmt)];
    assert |a| == |b|;
    forall k | 0 <= k < |a| ensures a[k] == b[k] {
      assert reports[..i + 1][k] == reports[k];
    }
  }

  /** `exportToCSV`: the header, then one line per report in list order. */
  method ExportToCsv(reports: seq<FieldReport>, fmt: Formats, now: int, writeOk: bool)
    returns (file: Option<CsvFile>)
    ensures writeOk ==> file == Some(ReportsFile(reports, fmt, now))
    ensures !writeOk ==> file == None
  {
    var written := "";
    var i := 0;
    while i < |reports|
      invariant 0 <= i <= |reports|
      invariant written == Render(ReportRows(reports[..i], fmt))
    {
      var row := ReportCells(reports[i], fmt);
      RenderAppend(ReportRows(reports[..i], fmt), row);
      ReportRowsSnoc(reports, i, fmt);
      written := written + Line(row);
      i := i + 1;
    }
    assert reports[..i] == reports;
    if writeOk {
      file := Some(CsvFile(ReportsFileName(now), ReportHeader() + written));
    } else {
      file := None;
    }
  }

  /** An integer rendered by a string template needs no quoting. */
  lemma IntIsPlain(i: int)
    ensures !NeedsQuoting(IntToString(i))
  {
    IntToStringRoundTrip(i);
    var s := IntToString(i);
    forall k | 0 <= k < |s| ensures s[k] != ',' && s[k] != '"' && s[k] != '\n' {
      if k > 0 {
        assert IsDigit(s[k]);
      }
    }
  }

  ghost predicate DecimalsPlain(fmt: Formats) {
    forall x :: !NeedsQuoting(fmt.decimal(x))
  }

  lemma ReportCellsWellFormed(r: FieldReport, fmt: Formats)
    requires DecimalsPlain(fmt)
    ensures forall j :: 0 <= j < |ReportCells(r, fmt)| ==> ReportCells(r, fmt)[j].WellFormed()
  {
    IntIsPlain(r.timestamp);
    IntIsPlain(|r.photoUris|);
  }

  /** Reading a row back recovers each column: the id, the timestamp and
      photo count as integers, the coordinates, the display names and the
      sync flag. */
  lemma ReportRowReadsBack(r: FieldReport, fmt: Formats)
    ensures var vs := Values(ReportCells(r, fmt));
      |vs| == 14 && vs[0] == r.localId &&
      |vs[1]| >= 1 && (vs[1][0] == '-' || IsDigit(vs[1][0])) &&
      (forall k :: 1 <= k < |vs[1]| ==> IsDigit(vs[1][k])) && ParseInt(vs[1]) == r.timestamp &&
      vs[2] == fmt.dateTime(r.timestamp) &&
      vs[3] == fmt.decimal(r.longitude) && vs[4] == fmt.decimal(r.latitude) &&
      vs[5] == r.category.DisplayName() && vs[6] == r.severity.DisplayName() &&
      vs[7] == r.status.DisplayName() && vs[8] == r.title && vs[9] == r.description &&
      (forall k :: 0 <= k < |vs[10]| ==> IsDigit(vs[10][k])) && ParseDigits(vs[10]) == |r.photoUris| &&
      vs[11] == fmt.dateTime(r.lastUpdated) &&
      (vs[12] == "Yes" <==> r.isSynced) &&
      vs[13] == "POINT(" + fmt.decimal(r.longitude) + " " + fmt.decimal(r.latitude) + ")"
  {
    var cells := ReportCells(r, fmt);
    var vs := Values(cells);
    assert vs[1] == cells[1].Value() == IntToString(r.timestamp);
    assert vs[10] == cells[10].Value() == NatToString(|r.photoUris|);
    assert vs[12] == YesNo(r.isSynced);
    IntToStringRoundTrip(r.timestamp);
    NatToStringRoundTrip(|r.photoUris|);
  }

  lemma ReportFileWellFormed(reports: seq<FieldReport>, fmt: Formats)
    requires DecimalsPlain(fmt)
    ensures RowsWellFormed([ReportColumns()] + ReportRows(reports, fmt))
  {
    var rows: seq<seq<Cell>> := [ReportColumns()] + ReportRows(reports, fmt);
    ReportColumnsWellFormed();
    forall i | 0 <= i < |rows|
      ensures |rows[i]| >= 1 && forall j :: 0 <= j < |rows[i]| ==> rows[i][j].WellFormed()
    {
      if i > 0 {
        assert rows[i] == ReportCells(reports[i - 1], fmt);
        ReportCellsWellFormed(reports[i - 1], fmt);
      }
    }
  }

  /** The reports file reads back as the 14 column names followed by one
      14-field record per report, in list order. */
  lemma ReportsCsvReadsBack(reports: seq<FieldReport>, fmt: Formats)
    requires DecimalsPlain(fmt)
    ensures ParseRows(ReportsCsv(reports, fmt))
            == Some([Values(ReportColumns())] + RowValues(ReportRows(reports, fmt)))
    ensures forall i :: 0 <= i < |reports| ==> |RowValues(ReportRows(reports, fmt))[i]| == 14
  {
    var rows: seq<seq<Cell>> := [ReportColumns()] + ReportRows(reports, fmt);
    ReportFileWellFormed(reports, fmt);
    ParseRowsRender(rows);
    assert rows[1..] == ReportRows(reports, fmt);
    assert Render(rows) == ReportsCsv(reports, fmt);
    assert RowValues(rows) == [Values(ReportColumns())] + RowValues(ReportRows(reports, fmt));
  }

  // ---- Delta export ----

  /** Updated strictly after `since`. */
  function ModifiedSince(since: int): (f: FieldReport -> bool)
    ensures forall r :: f(r) <==> r.lastUpdated > since
  {
    (r: FieldReport) => r.lastUpdated > since
  }

  /** `exportDeltaToCSV`: the reports changed after `since`, or nothing when none were. */
  method ExportDeltaToCsv(reports: seq<FieldReport>, since: int, fmt: Formats, now: int, writeOk: bool)
    returns (file: Option<CsvFile>)
    ensures Filter(ModifiedSince(since), reports) == [] ==> file == None
    ensures Filter(ModifiedSince(since), reports) != [] && writeOk ==>
              file == Some(ReportsFile(Filter(ModifiedSince(since), reports), fmt, now))
    ensures !writeOk ==> file == None
  {
    var modified := Filter(ModifiedSince(since), reports);
    if modified != [] {
      file := ExportToCsv(modified, fmt, now, writeOk);
    } else {
      file := None;
    }
  }

  /** The delta holds exactly the reports updated after `since`; it is empty
      iff no report was. */
  lemma DeltaSelection(reports: seq<FieldReport>, since: int)
    ensures forall r :: r in Filter(ModifiedSince(since), reports) <==> r in reports && r.lastUpdated > since
    ensures Filter(ModifiedSince(since), reports) == [] <==>
              forall i :: 0 <= i < |reports| ==> reports[i].lastUpdated <= since
  {
    forall r ensures r in Filter(ModifiedSince(since), reports) <==> r in reports && r.lastUpdated > since {
      FilterMembership(ModifiedSince(since), reports, r);
    }
    if Filter(ModifiedSince(since), reports) == [] {
      forall i | 0 <= i < |reports| ensures reports[i].lastUpdated <= since {
        assert reports[i] in reports;
      }
    } else {
      var f := Filter(ModifiedSince(since), reports);
      assert f[0] in f;
    }
  }

  // ---- Activity timeline ----

  /** `updates[report.localId] ?: emptyList()`. */
  function UpdatesOf(r: FieldReport, updates: map<string, seq<ReportUpdate>>): (us: seq<ReportUpdate>)
    ensures r.localId in updates ==> us == updates[r.localId]
    ensures us != [] ==> r.localId in updates
  {
    if r.localId in updates then updates[r.localId] else []
  }

  function PairWith(r: FieldReport, us: seq<ReportUpdate>): (ps: seq<(FieldReport, ReportUpdate)>)
    ensures |ps| == |us|
    ensures forall j :: 0 <= j < |us| ==> ps[j] == (r, us[j])
  {
    if us == [] then [] else PairWith(r, us[..|us| - 1]) + [(r, us[|us| - 1])]
  }

  /** The join behind the timeline: each report with each of its updates,
      in report order and then update order. */
  function Timeline(reports: seq<FieldReport>, updates: map<string, seq<ReportUpdate>>)
    : (t: seq<(FieldReport, ReportUpdate)>)
    ensures forall k :: 0 <= k < |t| ==> t[k].0 in reports && t[k].1 in UpdatesOf(t[k].0, updates)
  {
    if reports == [] then []
    else Timeline(reports[..|reports| - 1], updates)
         + PairWith(reports[|reports| - 1], UpdatesOf(reports[|reports| - 1], updates))
  }

  /** A pair is in the timeline iff its report is listed and its update is
      filed under that report's id; updates filed under an id no listed
      report has appear nowhere. */
  lemma {:induction false} TimelineMembership(reports: seq<FieldReport>,
                                              updates: map<string, seq<ReportUpdate>>,
                                              r: FieldReport, u: ReportUpdate)
    ensures (r, u) in Timeline(reports, updates) <==> r in reports && u in UpdatesOf(r, updates)
  {
    if reports != [] {
      var init := reports[..|reports| - 1];
      var last := reports[|reports| - 1];
      assert reports == init + [last];
      TimelineMembership(init, updates, r, u);
      var tail := PairWith(last, UpdatesOf(last, updates));
      if (r, u) in tail {
        var j :| 0 <= j < |tail| && tail[j] == (r, u);
        assert UpdatesOf(last, updates)[j] == u;
      }
      if r == last && u in UpdatesOf(r, updates) {
        var j :| 0 <= j < |UpdatesOf(r, updates)| && UpdatesOf(r, updates)[j] == u;
        assert tail[j] == (r, u);
      }
    }
  }

  /** With the updates grouped by report id, every timeline row pairs an
      update with the listed report it belongs to. */
  lemma TimelineJoinsOnId(reports: seq<FieldReport>, updates: map<string, seq<ReportUpdate>>)
    requires forall k, u :: k in updates && u in updates[k] ==> u.reportId == k
    ensures forall p :: p in Timeline(reports, updates) ==> p.0 in reports && p.1.reportId == p.0.localId
  {
    forall p | p in Timeline(reports, updates) ensures p.0 in reports && p.1.reportId == p.0.localId {
      TimelineMembership(reports, updates, p.0, p.1);
    }
  }

  /** The Status column: the status the update set, if any, otherwise the
      report's current status. */
  function TimelineStatus(r: FieldReport, u: ReportUpdate): (s: ReportStatus)
    ensures u.newStatus.Some? ==> s == u.newStatus.value
    ensures u.newStatus.None? ==> s == r.status
  {
    u.newStatus.GetOr(r.status)
  }

  /** The 13 cells of one timeline row. */
  function TimelineCells(r: FieldReport, u: ReportUpdate, fmt: Formats): (cells: seq<Cell>)
    ensures |cells| == |TimelineColumns()|
  {
    [Text(r.localId), Text(r.title), Text(u.id), Text(u.updateType.DisplayName()),
     Raw(IntToString(u.timestamp)), Text(fmt.dateTime(u.timestamp)),
     Text(TimelineStatus(r, u).DisplayName()), Text(u.text), Raw(NatToString(|u.photoUris|)),
     Raw(fmt.decimal(r.longitude)), Raw(fmt.decimal(r.latitude)),
     Text(r.category.DisplayName()), Text(r.severity.DisplayName())]
  }

  function TimelineRows(pairs: seq<(FieldReport, ReportUpdate)>, fmt: Formats): (rows: seq<seq<Cell>>)
    ensures |rows| == |pairs|
    ensures forall i :: 0 <= i < |pairs| ==> rows[i] == TimelineCells(pairs[i].0, pairs[i].1, fmt)
  {
    if pairs == [] then [] else [TimelineCells(pairs[0].0, pairs[0].1, fmt)] + TimelineRows(pairs[1..], fmt)
  }

  function TimelineCsv(reports: seq<FieldReport>, updates: map<string, seq<ReportUpdate>>, fmt: Formats): string {
    TimelineHeader() + Render(TimelineRows(Timeline(reports, updates), fmt))
  }

  lemma TimelineCellsWellFormed(r: FieldReport, u: ReportUpdate, fmt: Formats)
    requires DecimalsPlain(fmt)
    ensures forall j :: 0 <= j < |TimelineCells(r, u, fmt)| ==> TimelineCells(r, u, fmt)[j].WellFormed()
  {
    IntIsPlain(u.timestamp);
    IntIsPlain(|u.photoUris|);
  }

  /** Reading a timeline row back recovers the report and update ids, the
      update's timestamp and photo count as integers, the status it shows
      and the report's coordinates and names. */
  lemma TimelineRowReadsBack(r: FieldReport, u: ReportUpdate, fmt: Formats)
    ensures var vs := Values(TimelineCells(r, u, fmt));
      |vs| == 13 && vs[0] == r.localId && vs[1] == r.title && vs[2] == u.id &&
      vs[3] == u.updateType.DisplayName() &&
      |vs[4]| >= 1 && (forall k :: 1 <= k < |vs[4]| ==> IsDigit(vs[4][k])) &&
      ParseInt(vs[4]) == u.timestamp && vs[5] == fmt.dateTime(u.timestamp) &&
      vs[6] == TimelineStatus(r, u).DisplayName() && vs[7] == u.text &&
      (forall k :: 0 <= k < |vs[8]| ==> IsDigit(vs[8][k])) && ParseDigits(vs[8]) == |u.photoUris| &&
      vs[9] == fmt.decimal(r.longitude) && vs[10] == fmt.decimal(r.latitude) &&
      vs[11] == r.category.DisplayName() && vs[12] == r.severity.DisplayName()
  {
    var cells := TimelineCells(r, u, fmt);
    var vs := Values(cells);
    assert vs[4] == cells[4].Value() == IntToString(u.timestamp);
    assert vs[8] == cells[8].Value() == NatToString(|u.photoUris|);
    IntToStringRoundTrip(u.timestamp);
    NatToStringRoundTrip(|u.photoUris|);
  }

  lemma TimelineFileWellFormed(pairs: seq<(FieldReport, ReportUpdate)>, fmt: Formats)
    requires DecimalsPlain(fmt)
    ensures RowsWellFormed([TimelineColumns()] + TimelineRows(pairs, fmt))
  {
    var rows: seq<seq<Cell>> := [TimelineColumns()] + TimelineRows(pairs, fmt);
    TimelineColumnsWellFormed();
    forall i | 0 <= i < |rows|
      ensures |rows[i]| >= 1 && forall j :: 0 <= j < |rows[i]| ==> rows[i][j].WellFormed()
    {
      if i > 0 {
        assert rows[i] == TimelineCells(pairs[i - 1].0, pairs[i - 1].1, fmt);
        TimelineCellsWellFormed(pairs[i - 1].0, pairs[i - 1].1, fmt);
      }
    }
  }

  /** The timeline file reads back as the 13 column names followed by one
      13-field record per (report, update) pair of the timeline, in order. */
  lemma TimelineCsvReadsBack(reports: seq<FieldReport>, updates: map<string, seq<ReportUpdate>>, fmt: Formats)
    requires DecimalsPlain(fmt)
    ensures ParseRows(TimelineCsv(reports, updates, fmt))
            == Some([Values(TimelineColumns())] + RowValues(TimelineRows(Timeline(reports, updates), fmt)))
    ensures forall i :: 0 <= i < |Timeline(reports, updates)| ==>
              |RowValues(TimelineRows(Timeline(reports, updates), fmt))[i]| == 13
  {
    var pairs := Timeline(reports, updates);
    var rows: seq<seq<Cell>> := [TimelineColumns()] + TimelineRows(pairs, fmt);
    TimelineFileWellFormed(pairs, fmt);
    ParseRowsRender(rows);
    assert rows[1..] == TimelineRows(pairs, fmt);
    assert Render(rows) == TimelineCsv(reports, updates, fmt);
    assert RowValues(rows) == [Values(TimelineColumns())] + RowValues(TimelineRows(pairs, fmt));
  }

  lemma TimelineRowsSnoc(pairs: seq<(FieldReport, ReportUpdate)>, p: (FieldReport, ReportUpdate), fmt: Formats)
    ensures TimelineRows(pairs + [p], fmt) == TimelineRows(pairs, fmt) + [TimelineCells(p.0, p.1, fmt)]
  {
  }

  lemma PairWithStep(done: seq<(FieldReport, ReportUpdate)>, r: FieldReport, us: seq<ReportUpdate>, j: int)
    requires 0 <= j < |us|
    ensures done + PairWith(r, us[..j + 1]) == (done + PairWith(r, us[..j])) + [(r, us[j])]
  {
    assert us[..j + 1][..j] == us[..j];
  }

  lemma TimelineStep(reports: seq<FieldReport>, updates: map<string, seq<ReportUpdate>>, i: int)
    requires 0 <= i < |reports|
    ensures Timeline(reports[..i + 1], updates)
            == Timeline(reports[..i], updates) + PairWith(reports[i], UpdatesOf(reports[i], updates))
  {
    assert reports[..i + 1][..i] == reports[..i];
  }

  function TimelineFile(reports: seq<FieldReport>, updates: map<string, seq<ReportUpdate>>,
                        fmt: Formats, now: int): CsvFile {
    CsvFile(TimelineFileName(now), TimelineCsv(reports, updates, fmt))
  }

  /** The inner loop of the timeline export: one line per update of `report`,
      appended to what was already written for the earlier pairs `done`. */
  method WriteUpdateRows(written: string, done: seq<(FieldReport, ReportUpdate)>, report: FieldReport,
                         reportUpdates: seq<ReportUpdate>, fmt: Formats)
    returns (out: string)
    requires written == Render(TimelineRows(done, fmt))
    ensures out == Render(TimelineRows(done + PairWith(report, reportUpdates), fmt))
  {
    out := written;
    var j := 0;
    assert done + PairWith(report, reportUpdates[..0]) == done;
    while j < |reportUpdates|
      invariant 0 <= j <= |reportUpdates|
      invariant out == Render(TimelineRows(done + PairWith(report, reportUpdates[..j]), fmt))
    {
      var before := done + PairWith(report, reportUpdates[..j]);
      var row := TimelineCells(report, reportUpdates[j], fmt);
      PairWithStep(done, report, reportUpdates, j);
      TimelineRowsSnoc(before, (report, reportUpdates[j]), fmt);
      RenderAppend(TimelineRows(before, fmt), row);
      out := out + Line(row);
      j := j + 1;
    }
    assert reportUpdates[..j] == reportUpdates;
  }

  /** `exportActivityTimelineToCSV`: for each report, one line per update filed under its id. */
  method ExportActivityTimeline(reports: seq<FieldReport>, updates: map<string, seq<ReportUpdate>>,
                                fmt: Formats, now: int, writeOk: bool)
    returns (file: Option<CsvFile>)
    ensures writeOk ==> file == Some(TimelineFile(reports, updates, fmt, now))
    ensures !writeOk ==> file == None
  {
    var written := "";
    var i := 0;
    while i < |reports|
      invariant 0 <= i <= |reports|
      invariant written == Render(TimelineRows(Timeline(reports[..i], updates), fmt))
    {
      TimelineStep(reports, updates, i);
      written := WriteUpdateRows(written, Timeline(reports[..i], updates), reports[i],
                                 UpdatesOf(reports[i], updates), fmt);
      i := i + 1;
    }
    assert reports[..i] == reports;
    if writeOk {
      file := Some(CsvFile(TimelineFileName(now), TimelineHeader() + written));
    } else {
      file := None;
    }
  }

  // ---- Package ----

  /** `exportCompletePackage`: the reports file, then the timeline file, each
      present iff its export succeeded. The two exports read the clock separately. */
  method ExportCompletePackage(reports: seq<FieldReport>, updates: map<string, seq<ReportUpdate>>,
                               fmt: Formats, reportsNow: int, timelineNow: int,
                               reportsOk: bool, timelineOk: bool)
    returns (files: seq<CsvFile>)
    ensures |files| == (if reportsOk then 1 else 0) + (if timelineOk then 1 else 0)
    ensures reportsOk ==> files[0] == ReportsFile(reports, fmt, reportsNow)
    ensures timelineOk ==> files[|files| - 1] == TimelineFile(reports, updates, fmt, timelineNow)
  {
    files := [];
    var a := ExportToCsv(reports, fmt, reportsNow, reportsOk);
    if a.Some? {
      files := files + [a.value];
    }
    var b := ExportActivityTimeline(reports, updates, fmt, timelineNow, timelineOk);
    if b.Some? {
      files := files + [b.value];
    }
  }

  // ---- Summary ----

  function Severities(reports: seq<FieldReport>): (s: seq<ReportSeverity>)
    ensures |s| == |reports|
    ensures forall i :: 0 <= i < |reports| ==> s[i] == reports[i].severity
  {
    if reports == [] then [] else Severities(reports[..|reports| - 1]) + [reports[|reports| - 1].severity]
  }

  function Categories(reports: seq<FieldReport>): (s: seq<ReportCategory>)
    ensures |s| == |reports|
    ensures forall i :: 0 <= i < |reports| ==> s[i] == reports[i].category
  {
    if reports == [] then [] else Categories(reports[..|reports| - 1]) + [reports[|reports| - 1].category]
  }

  /** The figures `getReportSummary` prints; the groupings keep first-appearance order. */
  datatype Summary = Summary(total: nat, unsynced: nat,
                             bySeverity: seq<(ReportSeverity, nat)>,
                             byCategory: seq<(ReportCategory, nat)>)

  /** Total is the list size, unsynced counts the unsynced reports, and each
      grouping lists every severity (category) present once, in order of
      first appearance, with its number of reports, the counts summing to the total. */
  function ReportSummary(reports: seq<FieldReport>): (s: Summary)
    ensures s.total == |reports|
    ensures s.unsynced == |Filter(IsUnsynced(), reports)|
    ensures IsTallyOf(s.bySeverity, Severities(reports)) && Sum(Counts(s.bySeverity)) == s.total
    ensures IsTallyOf(s.byCategory, Categories(reports)) && Sum(Counts(s.byCategory)) == s.total
  {
    CountIsFilterSize(IsUnsynced(), reports);
    TallyCorrect(Severities(reports));
    TallyCorrect(Categories(reports));
    Summary(|reports|, Count(IsUnsynced(), reports), Tally(Severities(reports)), Tally(Categories(reports)))
  }

  const Rule: string := "\U{2501}\U{2501}\U{2501}\U{2501}\U{2501}\U{2501}\U{2501}\U{2501}\U{2501}\U{2501}\U{2501}\U{2501}\U{2501}\U{2501}\U{2501}\U{2501}\U{2501}\U{2501}\U{2501}\U{2501}"

  /** One line of the per-severity block. */
  function SeverityLine(e: (ReportSeverity, nat)): string {
    "  " + e.0.DisplayName() + ": " + NatToString(e.1)
  }

  /** One line of the per-category block. */
  function CategoryLine(e: (ReportCategory, nat)): string {
    "  " + e.0.Icon() + " " + e.0.DisplayName() + ": " + NatToString(e.1)
  }

  function SeverityLines(t: seq<(ReportSeverity, nat)>): (ls: seq<string>)
    ensures |ls| == |t|
    ensures forall i :: 0 <= i < |t| ==> ls[i] == SeverityLine(t[i])
  {
    if t == [] then [] else [SeverityLine(t[0])] + SeverityLines(t[1..])
  }

  function CategoryLines(t: seq<(ReportCategory, nat)>): (ls: seq<string>)
    ensures |ls| == |t|
    ensures forall i :: 0 <= i < |t| ==> ls[i] == CategoryLine(t[i])
  {
    if t == [] then [] else [CategoryLine(t[0])] + CategoryLines(t[1..])
  }

  /** The first lines of the summary, up to the per-severity block. */
  function SummaryHead(s: Summary): seq<string> {
    ["FIELD REPORTS SUMMARY", Rule, "", "Total Reports: " + NatToString(s.total),
     "Unsynced: " + NatToString(s.unsynced), "", "By Severity:"]
  }

  /** The lines `getReportSummary` appends, in order. */
  function SummaryLines(s: Summary): seq<string> {
    SummaryHead(s) + SeverityLines(s.bySeverity) + ["", "By Category:"] + CategoryLines(s.byCategory)
  }

  /** `getReportSummary`: the summary as the text block shown to the user;
      after the title and the rule comes the total, in decimal. */
  function ReportSummaryText(reports: seq<FieldReport>): (text: string)
    ensures var head := "FIELD REPORTS SUMMARY\n" + Rule + "\n\nTotal Reports: ";
      var k := |NatToString(|reports|)|;
      |text| > |head| + k && text[..|head|] == head
      && (forall i :: |head| <= i < |head| + k ==> IsDigit(text[i]))
      && ParseDigits(text[|head|..|head| + k]) == |reports|
      && text[|head| + k] == '\n'
  {
    var s := ReportSummary(reports);
    var ls := SummaryLines(s);
    var rest := "\n" + Unlines(ls[4..]);
    SummaryTextStart(s);
    NumberAfter("FIELD REPORTS SUMMARY\n" + Rule + "\n\nTotal Reports: ", s.total, rest);
    Unlines(ls)
  }

  /** A number written between a prefix and a line break reads back. */
  lemma NumberAfter(head: string, n: nat, rest: string)
    requires rest != [] && rest[0] == '\n'
    ensures var text := head + NatToString(n) + rest;
      var k := |NatToString(n)|;
      |text| > |head| + k && text[..|head|] == head
      && (forall i :: |head| <= i < |head| + k ==> IsDigit(text[i]))
      && ParseDigits(text[|head|..|head| + k]) == n
      && text[|head| + k] == '\n'
  {
    var d := NatToString(n);
    var text := head + d + rest;
    assert text[..|head|] == head;
    assert text[|head|..|head| + |d|] == d;
    assert forall i :: |head| <= i < |head| + |d| ==> text[i] == d[i - |head|];
    NatToStringRoundTrip(n);
  }

  lemma UnlinesFirstFour(ls: seq<string>)
    requires |ls| >= 4
    ensures Unlines(ls) == ls[0] + "\n" + (ls[1] + "\n" + (ls[2] + "\n" + (ls[3] + "\n" + Unlines(ls[4..]))))
  {
    assert ls[1..][1..] == ls[2..] && ls[2..][1..] == ls[3..] && ls[3..][1..] == ls[4..];
    assert Unlines(ls[3..]) == ls[3] + "\n" + Unlines(ls[4..]);
    assert Unlines(ls[2..]) == ls[2] + "\n" + Unlines(ls[3..]);
    assert Unlines(ls[1..]) == ls[1] + "\n" + Unlines(ls[2..]);
  }

  lemma SummaryTextStart(s: Summary)
    ensures Unlines(SummaryLines(s))
         == "FIELD REPORTS SUMMARY\n" + Rule + "\n\nTotal Reports: " + NatToString(s.total)
            + ("\n" + Unlines(SummaryLines(s)[4..]))
  {
    var ls := SummaryLines(s);
    var title, total, n := "FIELD REPORTS SUMMARY", "Total Reports: ", NatToString(s.total);
    var u := Unlines(ls[4..]);
    assert ls[0] == title && ls[1] == Rule && ls[2] == "" && ls[3] == total + n by {
      assert ls[..7] == SummaryHead(s);
    }
    UnlinesFirstFour(ls);
    assert "FIELD REPORTS SUMMARY\n" == title + "\n";
    assert "\n\nTotal Reports: " == "\n" + "" + "\n" + total;
  }

  lemma DisplayNamesNoBreak(v: ReportSeverity, c: ReportCategory)
    ensures NoBreak(v.DisplayName()) && NoBreak(c.DisplayName()) && NoBreak(c.Icon())
  {
  }

  lemma SummaryHeadNoBreak(s: Summary)
    ensures forall k :: 0 <= k < |SummaryHead(s)| ==> NoBreak(SummaryHead(s)[k])
  {
    CountLineOf("Total Reports: ", s.total);
    CountLineOf("Unsynced: ", s.unsynced);
  }

  lemma SeverityLineNoBreak(e: (ReportSeverity, nat))
    ensures CountLine(SeverityLine(e), "  " + e.0.DisplayName() + ": ", e.1)
    ensures NoBreak(SeverityLine(e))
  {
    DisplayNamesNoBreak(e.0, Other);
    NoBreakJoin("  ", e.0.DisplayName());
    NoBreakJoin("  " + e.0.DisplayName(), ": ");
    CountLineOf("  " + e.0.DisplayName() + ": ", e.1);
  }

  lemma CategoryLineNoBreak(e: (ReportCategory, nat))
    ensures CountLine(CategoryLine(e), "  " + e.0.Icon() + " " + e.0.DisplayName() + ": ", e.1)
    ensures NoBreak(CategoryLine(e))
  {
    DisplayNamesNoBreak(Info, e.0);
    NoBreakJoin("  ", e.0.Icon());
    NoBreakJoin("  " + e.0.Icon(), " ");
    NoBreakJoin("  " + e.0.Icon() + " ", e.0.DisplayName());
    NoBreakJoin("  " + e.0.Icon() + " " + e.0.DisplayName(), ": ");
    CountLineOf("  " + e.0.Icon() + " " + e.0.DisplayName() + ": ", e.1);
  }

  /** No summary line holds a line break, so the text reads back line by line. */
  lemma SummaryLinesNoBreak(s: Summary)
    ensures forall k :: 0 <= k < |SummaryLines(s)| ==> NoBreak(SummaryLines(s)[k])
  {
    var ls := SummaryLines(s);
    var h := SummaryHead(s);
    var nv := |s.bySeverity|;
    SummaryHeadNoBreak(s);
    forall k | 0 <= k < |ls| ensures NoBreak(ls[k]) {
      if k < 7 {
        assert ls[k] == h[k];
      } else if k < 7 + nv {
        SeverityLineNoBreak(s.bySeverity[k - 7]);
      } else if 9 + nv <= k {
        CategoryLineNoBreak(s.byCategory[k - 9 - nv]);
      }
    }
  }

  /** Read line by line, the summary text is the title, the rule, the total
      and the unsynced count, then one line per severity and one per
      category, in order of first appearance, each with its number of
      reports. */
  lemma SummaryTextLines(reports: seq<FieldReport>)
    ensures var ls := Lines(ReportSummaryText(reports));
      var s := ReportSummary(reports);
      var nv := |s.bySeverity|;
      && |ls| == 9 + nv + |s.byCategory|
      && ls[0] == "FIELD REPORTS SUMMARY" && ls[1] == Rule && ls[2] == ""
      && CountLine(ls[3], "Total Reports: ", |reports|)
      && CountLine(ls[4], "Unsynced: ", |Filter(IsUnsynced(), reports)|)
      && ls[5] == "" && ls[6] == "By Severity:"
      && Keys(s.bySeverity) == FirstAppearances(Severities(reports))
      && (forall i :: 0 <= i < nv ==>
            CountLine(ls[7 + i], "  " + s.bySeverity[i].0.DisplayName() + ": ",
                      Occurrences(Severities(reports), s.bySeverity[i].0)))
      && ls[7 + nv] == "" && ls[8 + nv] == "By Category:"
      && Keys(s.byCategory) == FirstAppearances(Categories(reports))
      && (forall i :: 0 <= i < |s.byCategory| ==>
            CountLine(ls[9 + nv + i], "  " + s.byCategory[i].0.Icon() + " " + s.byCategory[i].0.DisplayName() + ": ",
                      Occurrences(Categories(reports), s.byCategory[i].0)))
  {
    var s := ReportSummary(reports);
    var ls := Lines(ReportSummaryText(reports));
    SummaryReadsBack(s);
    assert ls == SummaryLines(s);
    SummaryLinesRead(s);
    var nv := |s.bySeverity|;
    forall i | 0 <= i < nv
      ensures CountLine(ls[7 + i], "  " + s.bySeverity[i].0.DisplayName() + ": ",
                        Occurrences(Severities(reports), s.bySeverity[i].0))
    {
      assert s.bySeverity[i].1 == Occurrences(Severities(reports), s.bySeverity[i].0);
    }
    forall i | 0 <= i < |s.byCategory|
      ensures CountLine(ls[9 + nv + i], "  " + s.byCategory[i].0.Icon() + " " + s.byCategory[i].0.DisplayName() + ": ",
                        Occurrences(Categories(reports), s.byCategory[i].0))
    {
      assert s.byCategory[i].1 == Occurrences(Categories(reports), s.byCategory[i].0);
    }
  }

  /** The summary text splits back into the lines it was joined from. */
  lemma SummaryReadsBack(s: Summary)
    ensures Lines(Unlines(SummaryLines(s))) == SummaryLines(s)
  {
    var ls := SummaryLines(s);
    SummaryLinesNoBreak(s);
    LinesOfUnlines(ls, "");
    assert Unlines(ls) + "" == Unlines(ls);
  }

  /** The line-level reading of a summary, before the counts are tied to the reports. */
  lemma SummaryLinesRead(s: Summary)
    ensures var ls := SummaryLines(s);
      var nv := |s.bySeverity|;
      && |ls| == 9 + nv + |s.byCategory|
      && ls[0] == "FIELD REPORTS SUMMARY" && ls[1] == Rule && ls[2] == ""
      && CountLine(ls[3], "Total Reports: ", s.total)
      && CountLine(ls[4], "Unsynced: ", s.unsynced)
      && ls[5] == "" && ls[6] == "By Severity:"
      && (forall i :: 0 <= i < nv ==>
            CountLine(ls[7 + i], "  " + s.bySeverity[i].0.DisplayName() + ": ", s.bySeverity[i].1))
      && ls[7 + nv] == "" && ls[8 + nv] == "By Category:"
      && (forall i :: 0 <= i < |s.byCategory| ==>
            CountLine(ls[9 + nv + i], "  " + s.byCategory[i].0.Icon() + " " + s.byCategory[i].0.DisplayName() + ": ",
                      s.byCategory[i].1))
  {
    var nv := |s.bySeverity|;
    CountLineOf("Total Reports: ", s.total);
    CountLineOf("Unsynced: ", s.unsynced);
    forall i | 0 <= i < nv {
      SeverityLineNoBreak(s.bySeverity[i]);
    }
    forall i | 0 <= i < |s.byCategory| {
      CategoryLineNoBreak(s.byCategory[i]);
    }
  }
}
