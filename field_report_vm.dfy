/**
 * The field-report view model. The two Room tables are in-memory maps keyed
 * by primary key: `reports` by `localId`, `updates` by `id`. Every operation
 * is the body of its `viewModelScope.launch` block, run as one step. The
 * clock, the random UUIDs and the outcome of saving each picked photo
 * (a path, or None when compression threw) are parameters.
 */
module FieldReportStore {
  import opened Wrappers
  import opened Seqs
  import opened FieldReports

  /** Room `@Update`: overwrites the row with the same primary key and does
      nothing when there is no such row. */
  function UpdateRow(table: map<string, FieldReport>, r: FieldReport): (t: map<string, FieldReport>)
    ensures r.localId in table ==> t == table[r.localId := r]
    ensures r.localId !in table ==> t == table
  {
    if r.localId in table then table[r.localId := r] else table
  }

  /** `DELETE FROM report_updates WHERE reportId = :reportId`. */
  function DeleteUpdatesFor(table: map<string, ReportUpdate>, reportId: string): (t: map<string, ReportUpdate>)
    ensures forall id :: id in t <==> id in table && table[id].reportId != reportId
    ensures forall id :: id in t ==> t[id] == table[id]
  {
    map id | id in table && table[id].reportId != reportId :: table[id]
  }

  /** The activity-log text of a status change. */
  function StatusChangeText(s: ReportStatus): string {
    "Status changed to " + s.DisplayName()
  }

  function IsNot(path: string): string -> bool {
    p => p != path
  }

  function ForReport(reportId: string): ReportUpdate -> bool {
    (u: ReportUpdate) => u.reportId == reportId
  }

  /** `photoUris.map { savePhotoToInternalStorage(...) }.filterNotNull()`,
      where `outcomes[i]` is what saving the i-th picked photo returned. */
  method SavedPhotoPaths(outcomes: seq<Option<string>>) returns (paths: seq<string>)
    ensures paths == Present(outcomes)
  {
    paths := [];
    var i := 0;
    while i < |outcomes|
      invariant 0 <= i <= |outcomes|
      invariant paths == Present(outcomes[..i])
    {
      PresentAppend(outcomes[..i], [outcomes[i]]);
      assert outcomes[..i + 1] == outcomes[..i] + [outcomes[i]];
      if outcomes[i].Some? {
        paths := paths + [outcomes[i].value];
      }
      i := i + 1;
    }
    assert outcomes[..i] == outcomes;
  }

  /** Removing a photo path drops every copy of it and keeps every other path. */
  lemma RemovedPhotoGone(photos: seq<string>, path: string)
    ensures path !in Filter(IsNot(path), photos)
    ensures forall p :: p in photos && p != path ==> p in Filter(IsNot(path), photos)
    ensures forall p :: p in Filter(IsNot(path), photos) ==> p in photos
  {
    FilterMembership(IsNot(path), photos, path);
    forall p ensures p in Filter(IsNot(path), photos) <==> p in photos && p != path {
      FilterMembership(IsNot(path), photos, p);
    }
  }

  /** `allUpdates.groupBy { it.reportId }`, built by appending each update to
      the list of its key. */
  function GroupByReport(us: seq<ReportUpdate>): map<string, seq<ReportUpdate>> {
    if us == [] then map[]
    else
      var g := GroupByReport(us[..|us| - 1]);
      var u := us[|us| - 1];
      g[u.reportId := (if u.reportId in g then g[u.reportId] else []) + [u]]
  }

  /** The keys are exactly the report ids that occur, and each key holds
      exactly the updates with that report id, in their original order. */
  lemma {:induction false} GroupByReportCorrect(us: seq<ReportUpdate>)
    ensures forall k :: k in GroupByReport(us) <==> exists i :: 0 <= i < |us| && us[i].reportId == k
    ensures forall k :: k in GroupByReport(us) ==> GroupByReport(us)[k] == Filter(ForReport(k), us)
  {
    if us != [] {
      var init := us[..|us| - 1];
      var u := us[|us| - 1];
      assert us == init + [u];
      GroupByReportCorrect(init);
      var g := GroupByReport(init);
      var g' := GroupByReport(us);
      forall k ensures k in g' <==> exists i :: 0 <= i < |us| && us[i].reportId == k {
        if k in g && k != u.reportId {
          var i :| 0 <= i < |init| && init[i].reportId == k;
          assert us[i].reportId == k;
        }
        if k != u.reportId && exists i :: 0 <= i < |us| && us[i].reportId == k {
          var i :| 0 <= i < |us| && us[i].reportId == k;
          assert i < |init| && init[i].reportId == k;
        }
      }
      forall k | k in g' ensures g'[k] == Filter(ForReport(k), us) {
        FilterAppend(ForReport(k), init, [u]);
        if k == u.reportId {
          if k !in g {
            var f := Filter(ForReport(k), init);
            if f != [] {
              FilterMembership(ForReport(k), init, f[0]);
              assert false;
            }
          }
        }
      }
    }
  }

  /** The view model: the two tables and the last list the reports flow emitted. */
  class FieldReportViewModel {
    var reports: map<string, FieldReport>
    var updates: map<string, ReportUpdate>
    var reportList: seq<FieldReport>

    /** Every row is stored under its own primary key. */
    ghost predicate Valid()
      reads this
    {
      (forall id :: id in reports ==> reports[id].localId == id) &&
      (forall id :: id in updates ==> updates[id].id == id)
    }

    constructor()
      ensures Valid()
      ensures reports == map[] && updates == map[] && reportList == []
    {
      reports := map[];
      updates := map[];
      reportList := [];
    }

    /** The `init` collector: each emission of `getAllReports()` becomes `_reports.value`. */
    method ReceiveReports(list: seq<FieldReport>)
      requires Valid()
      modifies this
      ensures Valid()
      ensures reportList == list
      ensures reports == old(reports) && updates == old(updates)
    {
      reportList := list;
    }

    method CreateReport(latitude: real, longitude: real, category: ReportCategory,
                        severity: ReportSeverity, title: string, description: string,
                        photoOutcomes: seq<Option<string>>, localId: string, now: int)
      requires Valid()
      modifies this
      ensures Valid()
      ensures reports == old(reports)[localId := NewFieldReport(localId, latitude, longitude,
                category, severity, title, description, Present(photoOutcomes), now)]
      ensures reports[localId].status == New && reports[localId].lastUpdated == now
      ensures !reports[localId].isSynced
      ensures updates == old(updates) && reportList == old(reportList)
    {
      var saved := SavedPhotoPaths(photoOutcomes);
      var report := NewFieldReport(localId, latitude, longitude, category, severity,
                                   title, description, saved, now);
      reports := reports[localId := report];
    }

    method ChangeReportStatus(report: FieldReport, newStatus: ReportStatus, updateId: string, now: int)
      requires Valid()
      modifies this
      ensures Valid()
      ensures reports == UpdateRow(old(reports), report.(status := newStatus, lastUpdated := now, isSynced := false))
      ensures updates == old(updates)[updateId := NewReportUpdate(updateId, report.localId, StatusChange,
                StatusChangeText(newStatus), Some(newStatus), [], now)]
      ensures report.localId in old(reports) ==>
                reports[report.localId].status == newStatus && !reports[report.localId].isSynced
      ensures reportList == old(reportList)
    {
      var updated := report.(status := newStatus, lastUpdated := now, isSynced := false);
      reports := UpdateRow(reports, updated);
      var statusUpdate := NewReportUpdate(updateId, report.localId, StatusChange,
                                          StatusChangeText(newStatus), Some(newStatus), [], now);
      updates := updates[updateId := statusUpdate];
    }

    method AddUpdateToReport(report: FieldReport, updateType: UpdateType, text: string,
                             photoOutcomes: seq<Option<string>>, updateId: string, now: int)
      requires Valid()
      modifies this
      ensures Valid()
      ensures updates == old(updates)[updateId := NewReportUpdate(updateId, report.localId, updateType,
                text, None, Present(photoOutcomes), now)]
      ensures reports == UpdateRow(old(reports), report.(lastUpdated := now, isSynced := false))
      ensures reportList == old(reportList)
    {
      var newPaths := SavedPhotoPaths(photoOutcomes);
      var update := NewReportUpdate(updateId, report.localId, updateType, text, None, newPaths, now);
      updates := updates[updateId := update];
      reports := UpdateRow(reports, report.(lastUpdated := now, isSynced := false));
    }

    /** Editing keeps `lastUpdated` as it was. */
    method UpdateReport(report: FieldReport, newTitle: string, newDescription: string,
                        newSeverity: ReportSeverity, newCategory: ReportCategory,
                        photoOutcomes: seq<Option<string>>, updateId: string, now: int)
      requires Valid()
      modifies this
      ensures Valid()
      ensures reports == UpdateRow(old(reports), report.(title := newTitle, description := newDescription,
                severity := newSeverity, category := newCategory,
                photoUris := report.photoUris + Present(photoOutcomes), isSynced := false))
      ensures report.localId in old(reports) ==>
                reports[report.localId].lastUpdated == report.lastUpdated &&
                reports[report.localId].photoUris[..|report.photoUris|] == report.photoUris
      ensures updates == old(updates)[updateId := NewReportUpdate(updateId, report.localId, Edit,
                "Report details updated", None, [], now)]
      ensures reportList == old(reportList)
    {
      var newPaths := SavedPhotoPaths(photoOutcomes);
      var allPaths := report.photoUris + newPaths;
      var updated := report.(title := newTitle, description := newDescription,
                             severity := newSeverity, category := newCategory,
                             photoUris := allPaths, isSynced := false);
      reports := UpdateRow(reports, updated);
      var editUpdate := NewReportUpdate(updateId, report.localId, Edit, "Report details updated", None, [], now);
      updates := updates[updateId := editUpdate];
    }

    /** Deleting the photo files is I/O and is not modelled; the rows are. */
    method DeleteReport(report: FieldReport)
      requires Valid()
      modifies this
      ensures Valid()
      ensures updates == DeleteUpdatesFor(old(updates), report.localId)
      ensures reports == old(reports) - {report.localId}
      ensures forall id :: id in updates ==> updates[id].reportId != report.localId
      ensures forall id :: id in reports ==> reports[id].localId != report.localId
      ensures reportList == old(reportList)
    {
      updates := DeleteUpdatesFor(updates, report.localId);
      reports := reports - {report.localId};
    }

    method DeletePhotoFromReport(report: FieldReport, photoPath: string, now: int)
      requires Valid()
      modifies this
      ensures Valid()
      ensures reports == UpdateRow(old(reports), report.(photoUris := Filter(IsNot(photoPath), report.photoUris),
                lastUpdated := now, isSynced := false))
      ensures report.localId in old(reports) ==> photoPath !in reports[report.localId].photoUris
      ensures updates == old(updates) && reportList == old(reportList)
    {
      var updatedPhotos := Filter(IsNot(photoPath), report.photoUris);
      RemovedPhotoGone(report.photoUris, photoPath);
      reports := UpdateRow(reports, report.(photoUris := updatedPhotos, lastUpdated := now, isSynced := false));
    }

    /** `_reports.value.count { !it.isSynced }`. */
    function UnsyncedReportsCount(): (n: nat)
      reads this
      ensures n == |Filter(IsUnsynced(), reportList)|
      ensures n > 0 <==> exists i :: 0 <= i < |reportList| && !reportList[i].isSynced
    {
      CountIsFilterSize(IsUnsynced(), reportList);
      CountPositive(IsUnsynced(), reportList);
      Count(IsUnsynced(), reportList)
    }
  }
}
