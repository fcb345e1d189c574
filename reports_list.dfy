/**
 * The report list screen's header and export menu. The time of the last
 * export, kept in the platform's preferences, is the `lastExport` parameter.
 */
module ReportsList {
  import opened Text
  import opened Seqs
  import opened FieldReports
  import opened ReportExport

  /** `reports.any { it.lastUpdated > lastExportTimestamp }`. */
  function HasModifiedReports(reports: seq<FieldReport>, lastExport: int): (b: bool)
    ensures b <==> exists i :: 0 <= i < |reports| && reports[i].lastUpdated > lastExport
  {
    CountPositive(ModifiedSince(lastExport), reports);
    Count(ModifiedSince(lastExport), reports) > 0
  }

  /** The count shown on the "Export Changes Only" entry. */
  function ModifiedCount(reports: seq<FieldReport>, lastExport: int): (n: nat)
    ensures n == |Filter(ModifiedSince(lastExport), reports)|
    ensures n <= |reports|
  {
    CountIsFilterSize(ModifiedSince(lastExport), reports);
    Count(ModifiedSince(lastExport), reports)
  }

  /** The export menu exists only when there is at least one report. */
  function ShowExportMenu(reports: seq<FieldReport>): (b: bool)
    ensures b <==> |reports| > 0
  {
    reports != []
  }

  /** The delta entry shows exactly when there was an earlier export and a
      report was modified after it. */
  function ShowDeltaEntry(reports: seq<FieldReport>, lastExport: int): (b: bool)
    ensures b <==> lastExport > 0 && ModifiedCount(reports, lastExport) > 0
    ensures b ==> ShowExportMenu(reports)
  {
    HasModifiedReports(reports, lastExport) && lastExport > 0
  }

  /** When the delta entry shows, the delta export has something to write,
      and the entry's count is the number of rows it writes. */
  lemma DeltaEntryMatchesExport(reports: seq<FieldReport>, lastExport: int)
    requires ShowDeltaEntry(reports, lastExport)
    ensures Filter(ModifiedSince(lastExport), reports) != []
    ensures |Filter(ModifiedSince(lastExport), reports)| == ModifiedCount(reports, lastExport)
  {
  }

  /** Before any export (time 0) the entry never shows, even with reports. */
  lemma NoDeltaBeforeFirstExport(reports: seq<FieldReport>)
    ensures !ShowDeltaEntry(reports, 0)
  {
  }

  /** The entry's label, which carries the modified count in parentheses. */
  function DeltaEntryLabel(reports: seq<FieldReport>, lastExport: int): (s: string)
    ensures |s| >= 23 && s[..21] == "Export Changes Only (" && s[|s| - 1] == ')'
    ensures (forall i :: 21 <= i < |s| - 1 ==> IsDigit(s[i]))
            && ParseDigits(s[21..|s| - 1]) == ModifiedCount(reports, lastExport)
  {
    var n := ModifiedCount(reports, lastExport);
    NatToStringRoundTrip(n);
    var s := "Export Changes Only (" + NatToString(n) + ")";
    assert s[21..|s| - 1] == NatToString(n);
    s
  }

  /** The header's "<n> report(s)" line. */
  function ReportCountLabel(n: nat): (s: string)
    ensures var k := |NatToString(n)|;
      |s| >= k + 7 && s[..k] == NatToString(n) && s[k..k + 7] == " report"
      && ParseDigits(s[..k]) == n
      && (s[|s| - 1] == 's' <==> n != 1)
  {
    NatToStringRoundTrip(n);
    var s := NatToString(n) + " report" + PluralS(n != 1);
    assert s[..|NatToString(n)|] == NatToString(n);
    s
  }
}
