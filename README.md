# AidStack Field — a verified model of the app's logic

AidStack Field is an Android app for humanitarian field teams. It shows GDACS
disaster alerts on a map, downloads offline map tiles for predefined regions,
lets a team member file and follow up field reports (with photos, notes and
status changes), and exports those reports as CSV files. This project models
the logic behind those features in Dafny and proves what the app promises
about it:

- `offline_maps.dfy` (`OfflineMaps`): the offline-map manager. It holds the
  download state, the region catalogue, the zoom clamp, the download callbacks,
  the cache-directory size and availability, the size estimate and the unit
  choice of the size text.
- `csv.dfy` (`Csv`): CSV field escaping and row joining, together with a
  reference reader that follows rules 5-7 of section 2 of RFC 4180. The reader
  is used to prove that the reports file, the delta file and the activity
  timeline file read back to the values written.
- `report_exporter.dfy` (`ReportExport`): the report CSV, the delta export,
  the activity timeline, the complete export package and the summary counts.
- `field_report.dfy` (`FieldReports`): the field-report and report-update
  records, their enums and the enum name converters.
- `field_report_vm.dfy` (`FieldReportStore`): the field-report view model. It
  is a class over two tables: reports keyed by local id, updates keyed by
  update id.
- `gdacs.dfy` (`Gdacs`): GDACS event-code decoding, the report URL and the
  feature-to-disaster mapping.
- `disaster_vm.dfy` (`DisasterStore`): the disaster view model's state and
  its filters, counts, toggles and nearby selection.
- `time_ago.dfy` (`TimeAgo`): the three "time ago" formatters.
- `reports_list.dfy` (`ReportsList`) and `activity_log.dfy` (`ActivityLog`):
  the display rules of the report list and of the activity log.
- `map_view.dfy` (`MapScreen`): the info-window rules, the rebuild of the
  overlay list, and the marker-click and map-tap handlers.
- `text.dfy`, `seqs.dfy`, `wrappers.dfy`: decimal text, filters, tallies,
  and the `Option`/`Result` types.

Some values come from the platform: the clock, fresh ids, whether a file write
or a photo save succeeds, the tile count of the map library, distances, and
the decimal text of a `Double`. These are parameters of the model. State-flow
emissions are recorded in a ghost `emitted` trace beside the real state field.

## Model

| member | source | states |
|---|---|---|
| OfflineMaps.Region.Box | app/src/main/java/com/example/myapplication/OfflineMapManager.kt:84 | the bounding box takes the region's four edges, in the order north, east, south, west |
| OfflineMaps.PredefinedRegions | app/src/main/java/com/example/myapplication/OfflineMapManager.kt:33-44 | every catalogue entry's name equals its key, and every entry has north > south and east > west |
| OfflineMaps.CatalogueSize | app/src/main/java/com/example/myapplication/OfflineMapManager.kt:33-44 | the catalogue holds ten regions |
| OfflineMaps.ClampZoom | app/src/main/java/com/example/myapplication/OfflineMapManager.kt:91 | the result lies in 6..16; it equals the input inside that range and the nearer bound outside it |
| OfflineMaps.FileLengthsNonNegative | app/src/main/java/com/example/myapplication/OfflineMapManager.kt:226-238 | every file length collected from a tree is non-negative |
| OfflineMaps.ListingLengthsNonNegative | app/src/main/java/com/example/myapplication/OfflineMapManager.kt:226-238 | every file length collected from a directory listing is non-negative |
| OfflineMaps.SumNonNegative | app/src/main/java/com/example/myapplication/OfflineMapManager.kt:226-238 | a sum of non-negative lengths is non-negative |
| OfflineMaps.DirectorySize | app/src/main/java/com/example/myapplication/OfflineMapManager.kt:226-238 | the sum of all file lengths anywhere in the tree is never negative, and it is 0 for a root that is missing or is a file |
| OfflineMaps.CalculateDirectorySize | app/src/main/java/com/example/myapplication/OfflineMapManager.kt:226-238 | the recursive loop that accumulates into `size` returns exactly the sum of all file lengths in the tree |
| OfflineMaps.CacheAvailable | app/src/main/java/com/example/myapplication/OfflineMapManager.kt:188-191 | true iff the root is a directory with at least one entry |
| OfflineMaps.SizeNeedsAvailable | app/src/main/java/com/example/myapplication/OfflineMapManager.kt:188-191 | a positive size implies the cache is available; a cache holding only an empty subdirectory is available with size 0 |
| OfflineMaps.UnitOf | app/src/main/java/com/example/myapplication/OfflineMapManager.kt:196-203 | B below 1024, KB below 1024², MB below 1024³, otherwise GB, each in both directions |
| OfflineMaps.UnitMonotone | app/src/main/java/com/example/myapplication/OfflineMapManager.kt:196-203 | a larger byte count never gets a smaller unit |
| OfflineMaps.FormatCacheSize | app/src/main/java/com/example/myapplication/OfflineMapManager.kt:196-203 | the text ends in the suffix of the chosen unit |
| OfflineMaps.FormatBytesReadsBack | app/src/main/java/com/example/myapplication/OfflineMapManager.kt:198 | below 1024 the text is the exact integer followed by " B" |
| OfflineMaps.OfflineMapManager.constructor | app/src/main/java/com/example/myapplication/OfflineMapManager.kt:20 | the download state starts Idle, with nothing emitted |
| OfflineMaps.OfflineMapManager.DownloadCustomRegion | app/src/main/java/com/example/myapplication/OfflineMapManager.kt:74-144 | from any state it emits Preparing and then Downloading(0, total), where total = tileCount(box, 6, clamp(maxZoom)). The run itself keeps maxZoom unclamped. An exception while counting or starting sets Error(message, or "Unknown error") and returns failure |
| OfflineMaps.OfflineMapManager.DownloadRegion | app/src/main/java/com/example/myapplication/OfflineMapManager.kt:55-69 | an unknown name returns "Region not found" and leaves the state and its trace untouched; a known name starts the download of that region's box |
| OfflineMaps.OfflineMapManager.OnTaskComplete | app/src/main/java/com/example/myapplication/OfflineMapManager.kt:103-107 | from any state, the state becomes Completed |
| OfflineMaps.OfflineMapManager.OnTaskFailed | app/src/main/java/com/example/myapplication/OfflineMapManager.kt:109-113 | from any state, the state becomes Error("Download failed with n errors") |
| OfflineMaps.OfflineMapManager.UpdateProgress | app/src/main/java/com/example/myapplication/OfflineMapManager.kt:115-124 | every progress event reports the total fixed when the run started |
| OfflineMaps.OfflineMapManager.DownloadStarted | app/src/main/java/com/example/myapplication/OfflineMapManager.kt:126-130 | the start callback sets Downloading(0, total) of its run |
| OfflineMaps.OfflineMapManager.GetCacheSize | app/src/main/java/com/example/myapplication/OfflineMapManager.kt:171-174 | the cache size is the directory size of the tile cache and is non-negative |
| OfflineMaps.OfflineMapManager.ClearCache | app/src/main/java/com/example/myapplication/OfflineMapManager.kt:179-183 | the cache is gone (unavailable, size 0) and the state is Idle, whatever it was |
| OfflineMaps.OfflineMapManager.IsCacheAvailable | app/src/main/java/com/example/myapplication/OfflineMapManager.kt:188-191 | true iff the cache directory exists and lists an entry |
| OfflineMaps.OfflineMapManager.CancelDownload | app/src/main/java/com/example/myapplication/OfflineMapManager.kt:240-244 | the state becomes Idle from any state |
| OfflineMaps.CancelThenProgress | app/src/main/java/com/example/myapplication/OfflineMapManager.kt:115-124 | cancel installs no guard: a progress event after cancel moves the state out of Idle again |
| OfflineMaps.OfflineMapManager.EstimatedBytes | app/src/main/java/com/example/myapplication/OfflineMapManager.kt:208-224 | there is no estimate iff the region is unknown; otherwise the estimate is 17000 × tileCount(box, 6, maxZoom), with maxZoom unclamped |
| OfflineMaps.OfflineMapManager.EstimateDownloadSize | app/src/main/java/com/example/myapplication/OfflineMapManager.kt:208-224 | "Unknown" for an unknown region, otherwise the formatted estimate |
| OfflineMaps.FailureMessage | app/src/main/java/com/example/myapplication/OfflineMapManager.kt:111 | the text is "Download failed with ", then the error count in decimal (it reads back), then " errors" |
| Csv.DoubleQuotes | app/src/main/java/com/example/myapplication/ReportExporter.kt:313 | doubling quotes never shortens a value and leaves a quote-free value unchanged |
| Csv.Escape | app/src/main/java/com/example/myapplication/ReportExporter.kt:311-317 | a value with no comma, quote or newline is returned unchanged; otherwise the result is wrapped in quotes |
| Csv.EscapeReadsBack | app/src/main/java/com/example/myapplication/ReportExporter.kt:311-317 | reading the escaped field back per RFC 4180 gives the original value; the value is left unchanged iff it needs no quoting |
| Csv.ParseQuotedDoubled | app/src/main/java/com/example/myapplication/ReportExporter.kt:313 | a quoted body with doubled quotes reads back to the original value |
| Csv.ParseRawPlain | app/src/main/java/com/example/myapplication/ReportExporter.kt:314 | an unquoted plain value reads back unchanged up to the next delimiter |
| Csv.ParseFieldQuoted | app/src/main/java/com/example/myapplication/ReportExporter.kt:313 | a quoted field reads back to its value, whatever follows at a delimiter |
| Csv.ParseFieldPlain | app/src/main/java/com/example/myapplication/ReportExporter.kt:314 | a plain field reads back to its value, whatever follows at a delimiter |
| Csv.ParseFieldEncoded | app/src/main/java/com/example/myapplication/ReportExporter.kt:39-54 | each cell of a row, escaped or raw, reads back to its value |
| Csv.Values | app/src/main/java/com/example/myapplication/ReportExporter.kt:39-54 | one value per cell, in order |
| Csv.RowValues | app/src/main/java/com/example/myapplication/ReportExporter.kt:29-57 | one value list per row, in order |
| Csv.RenderAppend | app/src/main/java/com/example/myapplication/ReportExporter.kt:56 | writing one more row appends exactly that row's line |
| Csv.ParseRecordLine | app/src/main/java/com/example/myapplication/ReportExporter.kt:39-56 | a comma-joined line of well-formed cells reads back to the cells' values |
| Csv.ParseRowsRender | app/src/main/java/com/example/myapplication/ReportExporter.kt:26-57 | a written file of well-formed rows reads back to exactly those rows' values |
| ReportExport.ColumnNamePlain | app/src/main/java/com/example/myapplication/ReportExporter.kt:26 | a column name needs no quoting |
| ReportExport.ReportColumnsWellFormed | app/src/main/java/com/example/myapplication/ReportExporter.kt:26 | the report header has 14 columns, each written plain |
| ReportExport.TimelineColumnsWellFormed | app/src/main/java/com/example/myapplication/ReportExporter.kt:194 | the timeline header has 13 columns, each written plain |
| ReportExport.TimelineCellsWellFormed | app/src/main/java/com/example/myapplication/ReportExporter.kt:204-218 | with plain decimal text, every cell of a timeline row is written so that it reads back |
| ReportExport.TimelineRowReadsBack | app/src/main/java/com/example/myapplication/ReportExporter.kt:204-218 | the 13 values read back as report id, title, update id, update type, timestamp (an integer), date text, the shown status, the text, photo count (an integer), longitude, latitude, category and severity |
| ReportExport.TimelineFileWellFormed | app/src/main/java/com/example/myapplication/ReportExporter.kt:194-221 | the header and every timeline row are well-formed |
| ReportExport.TimelineCsvReadsBack | app/src/main/java/com/example/myapplication/ReportExporter.kt:192-223 | the timeline file reads back to the 13 column names plus one 13-field row per (report, update) pair, in order |
| ReportExport.ReportCells | app/src/main/java/com/example/myapplication/ReportExporter.kt:39-54 | a report row has as many cells as the header |
| ReportExport.ReportRows | app/src/main/java/com/example/myapplication/ReportExporter.kt:29-57 | exactly one row per report, in input order |
| ReportExport.ReportRowsSnoc | app/src/main/java/com/example/myapplication/ReportExporter.kt:29-57 | one more report adds exactly its row at the end |
| ReportExport.ExportToCsv | app/src/main/java/com/example/myapplication/ReportExporter.kt:19-65 | the loop writes the header and then one row per report; a failed write returns no file |
| ReportExport.IntIsPlain | app/src/main/java/com/example/myapplication/ReportExporter.kt:41 | a number's text needs no quoting |
| ReportExport.ReportCellsWellFormed | app/src/main/java/com/example/myapplication/ReportExporter.kt:39-54 | every cell of a report row is written so that it reads back |
| ReportExport.ReportRowReadsBack | app/src/main/java/com/example/myapplication/ReportExporter.kt:39-54 | the 14 values read back as id, timestamp (an integer), date text, longitude, latitude, category, severity, status, title, description, photo count (an integer), last-updated text, "Yes" iff synced, and the WKT point with longitude first |
| ReportExport.ReportFileWellFormed | app/src/main/java/com/example/myapplication/ReportExporter.kt:26-57 | the header and all report rows are well-formed |
| ReportExport.ReportsCsvReadsBack | app/src/main/java/com/example/myapplication/ReportExporter.kt:26-57 | the report file reads back to the header plus one 14-field row per report, in order |
| ReportExport.WktShape | app/src/main/java/com/example/myapplication/ReportExporter.kt:37 | the WKT column is "POINT(", the longitude, one space, the latitude and ")" — longitude first |
| ReportExport.ExportDeltaToCsv | app/src/main/java/com/example/myapplication/ReportExporter.kt:235-242 | exports exactly the reports modified after the timestamp; there is no file when there are none |
| ReportExport.ModifiedSince | app/src/main/java/com/example/myapplication/ReportExporter.kt:236 | the delta predicate holds iff lastUpdated is strictly after the given time |
| ReportExport.DeltaSelection | app/src/main/java/com/example/myapplication/ReportExporter.kt:236 | a report is selected iff its lastUpdated is strictly after the timestamp; the selection is empty iff no report is |
| ReportExport.PairWith | app/src/main/java/com/example/myapplication/ReportExporter.kt:200 | a report is paired with each of its updates, in update order |
| ReportExport.UpdatesOf | app/src/main/java/com/example/myapplication/ReportExporter.kt:198 | the updates under the report's id, and none when the id has no entry |
| ReportExport.Timeline | app/src/main/java/com/example/myapplication/ReportExporter.kt:197-200 | every pair joins a listed report with one of the updates under its id |
| ReportExport.TimelineMembership | app/src/main/java/com/example/myapplication/ReportExporter.kt:197-222 | a pair is in the timeline iff the report is listed and the update is under that report's id |
| ReportExport.TimelineJoinsOnId | app/src/main/java/com/example/myapplication/ReportExporter.kt:197-222 | each timeline row joins an update to the report it belongs to; updates of unlisted reports give no row |
| ReportExport.TimelineStatus | app/src/main/java/com/example/myapplication/ReportExporter.kt:211 | the status column is the update's new status when present, otherwise the report's status |
| ReportExport.TimelineCells | app/src/main/java/com/example/myapplication/ReportExporter.kt:204-218 | a timeline row has 13 cells, like its header |
| ReportExport.TimelineRows | app/src/main/java/com/example/myapplication/ReportExporter.kt:197-222 | one row per (report, update) pair, in order |
| ReportExport.TimelineRowsSnoc | app/src/main/java/com/example/myapplication/ReportExporter.kt:220 | one more pair adds exactly its row at the end |
| ReportExport.PairWithStep | app/src/main/java/com/example/myapplication/ReportExporter.kt:200 | the inner loop adds one pair per update |
| ReportExport.TimelineStep | app/src/main/java/com/example/myapplication/ReportExporter.kt:197 | the outer loop adds the pairs of one report at a time, in report order |
| ReportExport.WriteUpdateRows | app/src/main/java/com/example/myapplication/ReportExporter.kt:200-221 | the inner loop writes the rows of one report's updates after what was already written |
| ReportExport.ExportActivityTimeline | app/src/main/java/com/example/myapplication/ReportExporter.kt:183-230 | the file is the header plus one row per update of each listed report, in report and then update order; a failed write returns no file |
| ReportExport.ExportCompletePackage | app/src/main/java/com/example/myapplication/ReportExporter.kt:248-262 | at most two files; each is included iff its export succeeded; the report file comes before the timeline |
| ReportExport.Severities | app/src/main/java/com/example/myapplication/ReportExporter.kt:156 | the severity of each report, in order |
| ReportExport.Categories | app/src/main/java/com/example/myapplication/ReportExporter.kt:157 | the category of each report, in order |
| ReportExport.ReportSummary | app/src/main/java/com/example/myapplication/ReportExporter.kt:154-158 | total = the list size; unsynced = the number of unsynced reports; the severity and category tallies count each value's occurrences, and each sums to the total |
| ReportExport.ReportSummaryText | app/src/main/java/com/example/myapplication/ReportExporter.kt:160-165 | the text opens with the title and the rule, then "Total Reports: " and the total in decimal, which reads back |
| ReportExport.SeverityLines | app/src/main/java/com/example/myapplication/ReportExporter.kt:168-170 | one line per severity entry, in tally order, each "  <name>: <count>" |
| ReportExport.CategoryLines | app/src/main/java/com/example/myapplication/ReportExporter.kt:173-175 | one line per category entry, in tally order, each "  <icon> <name>: <count>" |
| ReportExport.SummaryTextLines | app/src/main/java/com/example/myapplication/ReportExporter.kt:154-177 | split at line breaks, the text is the title, the rule, a blank, the total and the unsynced count (both read back to the list size and the number of unsynced reports), a blank, "By Severity:", one line per severity in order of first appearance whose count reads back to that severity's number of reports, a blank, "By Category:" and the same for categories |
| ReportExport.SummaryReadsBack | app/src/main/java/com/example/myapplication/ReportExporter.kt:160-176 | every appended line ends in a line break and holds none, so the text splits back into exactly the appended lines |
| ReportExport.SummaryLinesRead | app/src/main/java/com/example/myapplication/ReportExporter.kt:161-175 | the appended lines in order: title, rule, blank, total, unsynced, blank, the severity header and lines, blank, the category header and lines, each count line reading back to its count |
| Seqs.TallyCorrect | app/src/main/java/com/example/myapplication/ReportExporter.kt:156-157 | grouping and counting lists each value once, in order of first appearance, with its number of occurrences |
| FieldReports.NewFieldReport | app/src/main/java/com/example/myapplication/fieldreport/FieldReport.kt:13-29 | a new report is NEW, unsynced, has lastUpdated = timestamp and no server or user id, and carries the given fields |
| FieldReports.NewReportUpdate | app/src/main/java/com/example/myapplication/fieldreport/ReportUpdate.kt:10-20 | a new update has no user id and carries the given fields |
| FieldReports.FromReportCategory | app/src/main/java/com/example/myapplication/fieldreport/FieldReport.kt:78 | the stored string is the constant's name |
| FieldReports.ToReportCategory | app/src/main/java/com/example/myapplication/fieldreport/FieldReport.kt:83 | decodes a string to a category iff it is that category's name, and fails otherwise |
| FieldReports.FromReportSeverity | app/src/main/java/com/example/myapplication/fieldreport/FieldReport.kt:88 | the stored string is the constant's name |
| FieldReports.ToReportSeverity | app/src/main/java/com/example/myapplication/fieldreport/FieldReport.kt:93 | decodes a string to a severity iff it is that severity's name, and fails otherwise |
| FieldReports.FromReportStatus | app/src/main/java/com/example/myapplication/fieldreport/FieldReport.kt:98 | the stored string is the constant's name |
| FieldReports.ToReportStatus | app/src/main/java/com/example/myapplication/fieldreport/FieldReport.kt:103 | decodes a string to a status iff it is that status's name, and fails otherwise |
| FieldReports.FromUpdateType | app/src/main/java/com/example/myapplication/fieldreport/FieldReport.kt:108 | the stored string is the constant's name |
| FieldReports.ToUpdateType | app/src/main/java/com/example/myapplication/fieldreport/FieldReport.kt:113 | decodes a string to an update type iff it is that type's name, and fails otherwise |
| FieldReports.CategoryRoundTrip | app/src/main/java/com/example/myapplication/fieldreport/FieldReport.kt:77-85 | decoding an encoded category gives it back, and distinct categories encode differently |
| FieldReports.SeverityRoundTrip | app/src/main/java/com/example/myapplication/fieldreport/FieldReport.kt:87-95 | the same round trip and injectivity for severities |
| FieldReports.StatusRoundTrip | app/src/main/java/com/example/myapplication/fieldreport/FieldReport.kt:97-105 | the same round trip and injectivity for statuses |
| FieldReports.UpdateTypeRoundTrip | app/src/main/java/com/example/myapplication/fieldreport/FieldReport.kt:107-115 | the same round trip and injectivity for update types |
| FieldReportStore.UpdateRow | app/src/main/java/com/example/myapplication/fieldreport/FieldReportViewModel.kt:82 | updating a row replaces the report stored under its id, and does nothing when there is no such row |
| FieldReportStore.DeleteUpdatesFor | app/src/main/java/com/example/myapplication/fieldreport/FieldReportViewModel.kt:176 | exactly the updates of the report are removed; the others keep their values |
| FieldReportStore.SavedPhotoPaths | app/src/main/java/com/example/myapplication/fieldreport/FieldReportViewModel.kt:203-212 | the loop keeps the saved paths in input order and drops the failed saves |
| FieldReportStore.RemovedPhotoGone | app/src/main/java/com/example/myapplication/fieldreport/FieldReportViewModel.kt:193 | removing a path drops every occurrence of it and keeps every other photo |
| FieldReportStore.GroupByReportCorrect | app/src/main/java/com/example/myapplication/fieldreport/FieldReportViewModel.kt:218-221 | GroupByReport: the keys are exactly the report ids present; each key holds exactly that report's updates, in order |
| FieldReportStore.FieldReportViewModel.constructor | app/src/main/java/com/example/myapplication/fieldreport/FieldReportViewModel.kt:27-33 | both tables and the observed list start empty |
| FieldReportStore.FieldReportViewModel.ReceiveReports | app/src/main/java/com/example/myapplication/fieldreport/FieldReportViewModel.kt:28-32 | the collected report list replaces the observed list, and the tables are unchanged, so every row stays under its own key |
| FieldReportStore.FieldReportViewModel.CreateReport | app/src/main/java/com/example/myapplication/fieldreport/FieldReportViewModel.kt:43-73 | inserts one NEW, unsynced report with lastUpdated = now and the saved photo paths; nothing else changes |
| FieldReportStore.FieldReportViewModel.ChangeReportStatus | app/src/main/java/com/example/myapplication/fieldreport/FieldReportViewModel.kt:75-93 | sets the status, lastUpdated = now and unsynced, and leaves all other fields unchanged; adds one STATUS_CHANGE update with "Status changed to <name>" and the new status |
| FieldReportStore.FieldReportViewModel.AddUpdateToReport | app/src/main/java/com/example/myapplication/fieldreport/FieldReportViewModel.kt:95-123 | adds one update of the given type with the saved photos; the report gets lastUpdated = now and is unsynced |
| FieldReportStore.FieldReportViewModel.UpdateReport | app/src/main/java/com/example/myapplication/fieldreport/FieldReportViewModel.kt:125-162 | replaces title, description, severity and category, appends the saved photos after the old ones and marks the report unsynced; lastUpdated is kept; adds one EDIT update "Report details updated" |
| FieldReportStore.FieldReportViewModel.DeleteReport | app/src/main/java/com/example/myapplication/fieldreport/FieldReportViewModel.kt:164-181 | removes the report and every update of it, so no report row and no update row refers to its id any more; other reports and updates are untouched |
| FieldReportStore.FieldReportViewModel.DeletePhotoFromReport | app/src/main/java/com/example/myapplication/fieldreport/FieldReportViewModel.kt:183-201 | removes every occurrence of the path and keeps the other photos in order; sets lastUpdated = now and unsynced |
| FieldReportStore.FieldReportViewModel.UnsyncedReportsCount | app/src/main/java/com/example/myapplication/fieldreport/FieldReportViewModel.kt:214-216 | the number of unsynced reports; it is positive iff some report is unsynced |
| Gdacs.TypeFromString | app/src/main/java/com/example/myapplication/gdacs/GdacsModels.kt:111-122 | the result is UNKNOWN iff the upper-cased code is none of EQ, TC, FL, VO, DR, WF, TS |
| Gdacs.SeverityFromString | app/src/main/java/com/example/myapplication/gdacs/GdacsModels.kt:133-140 | GREEN, ORANGE and RED each iff the upper-cased text is that word; otherwise UNKNOWN |
| Gdacs.FromStringIgnoresCase | app/src/main/java/com/example/myapplication/gdacs/GdacsModels.kt:111-140 | both decoders ignore case |
| Gdacs.EventCode | app/src/main/java/com/example/myapplication/gdacs/GdacsModels.kt:86-95 | every event code has two letters |
| Gdacs.EventCodeRoundTrip | app/src/main/java/com/example/myapplication/gdacs/GdacsModels.kt:86-95 | decoding a type's event code gives the type back; UNKNOWN is encoded as EQ |
| Gdacs.GdacsUrl | app/src/main/java/com/example/myapplication/gdacs/GdacsModels.kt:84-97 | the URL is as long as the prefix, the id, "&eventtype=" and a two-letter code |
| Gdacs.GdacsUrlParts | app/src/main/java/com/example/myapplication/gdacs/GdacsModels.kt:96 | the URL starts with the GDACS report prefix, then the event id, and ends with a code that decodes to the disaster's type |
| Gdacs.ToDisaster | app/src/main/java/com/example/myapplication/gdacs/GdacsModels.kt:144-204 | the branch-by-branch assignment of lat, lon and affected area builds the specified disaster |
| Gdacs.DisasterDefaults | app/src/main/java/com/example/myapplication/gdacs/GdacsModels.kt:189-203 | the defaults for missing fields ("unknown", "Unknown Event", "Unknown", "", "No description available", 0.0, UNKNOWN type and severity); url is "" and the geometry type is copied |
| Gdacs.PointRule | app/src/main/java/com/example/myapplication/gdacs/GdacsModels.kt:151-157 | a point with at least two coordinates gives lon = first and lat = second (0.0 for a non-number); fewer gives (0, 0); no affected area |
| Gdacs.PolygonRule | app/src/main/java/com/example/myapplication/gdacs/GdacsModels.kt:158-175 | the affected area is the coordinates; the centre is the first point of the first ring when it has two numbers, and (0, 0) when the ring or point is missing |
| Gdacs.OtherGeometryRule | app/src/main/java/com/example/myapplication/gdacs/GdacsModels.kt:176-186 | any other or missing geometry type is read like a point and has no affected area |
| Gdacs.AffectedAreaIffPolygon | app/src/main/java/com/example/myapplication/gdacs/GdacsModels.kt:158-186 | a disaster has an affected area iff its geometry is a polygon, in any case |
| DisasterStore.AllTypesComplete | app/src/main/java/com/example/myapplication/DisasterViewModel.kt:18 | the initial selection names every disaster type |
| DisasterStore.InitialState | app/src/main/java/com/example/myapplication/DisasterViewModel.kt:14-23 | empty lists, not loading, no error, and every type selected |
| DisasterStore.DisastersOf | app/src/main/java/com/example/myapplication/DisasterViewModel.kt:41 | one disaster per feature, in order |
| DisasterStore.MapFeatures | app/src/main/java/com/example/myapplication/DisasterViewModel.kt:41 | the mapping loop yields the mapped features in order |
| DisasterStore.Toggled | app/src/main/java/com/example/myapplication/DisasterViewModel.kt:65-73 | the toggled type's membership flips; every other type's is kept |
| DisasterStore.ToggleTwice | app/src/main/java/com/example/myapplication/DisasterViewModel.kt:65-73 | toggling a type twice restores the selection |
| DisasterStore.IsSevere | app/src/main/java/com/example/myapplication/DisasterViewModel.kt:87-88 | a disaster counts as severe iff its severity is RED |
| DisasterStore.IsNearby | app/src/main/java/com/example/myapplication/DisasterViewModel.kt:59 | a disaster is nearby iff its distance is at most the 500 km threshold |
| DisasterStore.InsertByKey | app/src/main/java/com/example/myapplication/DisasterViewModel.kt:58-60 | inserting adds exactly one element |
| DisasterStore.SortByKey | app/src/main/java/com/example/myapplication/DisasterViewModel.kt:58-60 | sorting is a permutation |
| DisasterStore.InsertByKeyBounded | app/src/main/java/com/example/myapplication/DisasterViewModel.kt:58-60 | inserting keeps every distance under a common bound |
| DisasterStore.InsertByKeySorted | app/src/main/java/com/example/myapplication/DisasterViewModel.kt:58-60 | inserting into a sorted list keeps it sorted |
| DisasterStore.SortByKeySorted | app/src/main/java/com/example/myapplication/DisasterViewModel.kt:58-60 | the sorted list is in ascending distance order |
| DisasterStore.NearbyDisasters | app/src/main/java/com/example/myapplication/DisasterViewModel.kt:57-63 | the nearby list is a permutation of the disasters within 500 km |
| DisasterStore.NearbyIsSortedSelection | app/src/main/java/com/example/myapplication/DisasterViewModel.kt:57-63 | the nearby list is sorted by distance and holds exactly the disasters within 500 km |
| DisasterStore.DisasterViewModel.constructor | app/src/main/java/com/example/myapplication/DisasterViewModel.kt:23-30 | the state starts as the initial state |
| DisasterStore.DisasterViewModel.LoadDisasters | app/src/main/java/com/example/myapplication/DisasterViewModel.kt:32-55 | emits a loading state and then the outcome: the mapped disasters, or no disasters and "Failed to load disasters: <msg>"; loading ends false; selection and nearby are kept |
| DisasterStore.DisasterViewModel.UpdateNearbyDisasters | app/src/main/java/com/example/myapplication/DisasterViewModel.kt:57-63 | only the nearby list changes, to the sorted selection within 500 km |
| DisasterStore.DisasterViewModel.ToggleDisasterType | app/src/main/java/com/example/myapplication/DisasterViewModel.kt:65-73 | only the selection changes, by flipping the given type |
| DisasterStore.DisasterViewModel.FilteredDisasters | app/src/main/java/com/example/myapplication/DisasterViewModel.kt:75-79 | only disasters of a selected type are kept |
| DisasterStore.FilteredIsExact | app/src/main/java/com/example/myapplication/DisasterViewModel.kt:75-79 | a disaster is in the filtered list iff it is loaded and its type is selected |
| DisasterStore.AllSelectedKeepsAll | app/src/main/java/com/example/myapplication/DisasterViewModel.kt:75-79 | with every type selected, the filter keeps the whole list in order |
| DisasterStore.DisasterViewModel.DisastersByType | app/src/main/java/com/example/myapplication/DisasterViewModel.kt:81-83 | every listed disaster has the requested type |
| DisasterStore.ByTypeIsExact | app/src/main/java/com/example/myapplication/DisasterViewModel.kt:81-83 | a disaster is listed iff it is loaded and of that type |
| DisasterStore.DisasterViewModel.DisasterCount | app/src/main/java/com/example/myapplication/DisasterViewModel.kt:85 | the count is the number of loaded disasters |
| DisasterStore.DisasterViewModel.SevereDisasterCount | app/src/main/java/com/example/myapplication/DisasterViewModel.kt:87-88 | counts the severe disasters; it is positive iff some disaster is RED |
| TimeAgo.Quot | app/src/main/java/com/example/myapplication/fieldreport/ReportsListView.kt:328-331 | Long division truncates: it agrees with floor division for non-negative operands and is never positive for a negative one |
| TimeAgo.Cascade | app/src/main/java/com/example/myapplication/fieldreport/ReportsListView.kt:328-331 | dividing by 1000, 60, 60 and 24 in turn equals dividing by a minute, an hour and a day |
| TimeAgo.Bracket | app/src/main/java/com/example/myapplication/fieldreport/ReportsListView.kt:333-337 | a count of units brackets the elapsed time |
| TimeAgo.ElapsedOf | app/src/main/java/com/example/myapplication/fieldreport/ReportsListView.kt:326-338 | "just now" iff less than a minute has passed, negative times included; otherwise a count ≥ 1 of the largest unit that fits: days from one day, hours below a day, minutes below an hour |
| TimeAgo.UnitWord | app/src/main/java/com/example/myapplication/fieldreport/ReportsListView.kt:334-336 | each unit word is singular |
| TimeAgo.AgoText | app/src/main/java/com/example/myapplication/fieldreport/ReportsListView.kt:334-336 | the text starts with a digit, holds at least the unit word and ends with " ago" |
| TimeAgo.AgoTextShape | app/src/main/java/com/example/myapplication/fieldreport/ReportsListView.kt:334-336 | the text is the count in decimal (it reads back), a space, the unit word, an "s" iff the count is > 1, then " ago" |
| TimeAgo.TimeAgoText | app/src/main/java/com/example/myapplication/fieldreport/ActivityLogView.kt:241-254 | "Just now" iff less than a minute has passed |
| TimeAgo.TimeAgoShape | app/src/main/java/com/example/myapplication/MapViewComposable.kt:142-155 | otherwise the text is the count and unit of the elapsed time, plural iff the count is > 1 |
| TimeAgo.AbbreviatedMinutes | app/src/main/java/com/example/myapplication/fieldreport/ActivityLogView.kt:251 | the report list and the activity log spell minutes "min", with "s" from two minutes |
| TimeAgo.FullMinutes | app/src/main/java/com/example/myapplication/MapViewComposable.kt:142-155 | the map's info window spells minutes "minute", with "s" from two minutes |
| ReportsList.HasModifiedReports | app/src/main/java/com/example/myapplication/fieldreport/ReportsListView.kt:44 | true iff some report was updated after the last export |
| ReportsList.ModifiedCount | app/src/main/java/com/example/myapplication/fieldreport/ReportsListView.kt:101 | the number of reports the delta export would select |
| ReportsList.ShowExportMenu | app/src/main/java/com/example/myapplication/fieldreport/ReportsListView.kt:75 | the export menu appears iff there are reports |
| ReportsList.ShowDeltaEntry | app/src/main/java/com/example/myapplication/fieldreport/ReportsListView.kt:99 | the delta entry appears only after a first export and when some report changed since, and only inside the export menu |
| ReportsList.DeltaEntryMatchesExport | app/src/main/java/com/example/myapplication/fieldreport/ReportsListView.kt:99-103 | when the entry appears, the delta export has reports, as many as the label says |
| ReportsList.NoDeltaBeforeFirstExport | app/src/main/java/com/example/myapplication/fieldreport/ReportsListView.kt:99 | with no export yet, the entry never appears |
| ReportsList.DeltaEntryLabel | app/src/main/java/com/example/myapplication/fieldreport/ReportsListView.kt:102 | "Export Changes Only (", the modified count in decimal (it reads back), then ")" |
| ReportsList.ReportCountLabel | app/src/main/java/com/example/myapplication/fieldreport/ReportsListView.kt:68 | "<n> report", the number reading back, with a final "s" iff n ≠ 1 |
| ActivityLog.LogContentOf | app/src/main/java/com/example/myapplication/fieldreport/ActivityLogView.kt:63-90 | the placeholder iff there are no updates; otherwise one card per update, in order |
| ActivityLog.PhotoStripOf | app/src/main/java/com/example/myapplication/fieldreport/ActivityLogView.kt:140-175 | no strip iff there are no photos; otherwise the first min(n, 3) photos, and an overflow tile iff n > 3 |
| ActivityLog.OverflowCountsHidden | app/src/main/java/com/example/myapplication/fieldreport/ActivityLogView.kt:153-166 | the tile reads "+k", where k plus the shown thumbnails equals the number of photos |
| ActivityLog.EditNote | app/src/main/java/com/example/myapplication/fieldreport/ActivityLogView.kt:208-209 | typing replaces the note and keeps the photos |
| ActivityLog.PickPhotos | app/src/main/java/com/example/myapplication/fieldreport/ActivityLogView.kt:198-200 | picking replaces the selection and keeps the note |
| ActivityLog.LastPickWins | app/src/main/java/com/example/myapplication/fieldreport/ActivityLogView.kt:198-200 | a second pick discards the first one |
| ActivityLog.AddEnabled | app/src/main/java/com/example/myapplication/fieldreport/ActivityLogView.kt:228 | "Add" is enabled iff the note has a non-whitespace character |
| ActivityLog.Submit | app/src/main/java/com/example/myapplication/fieldreport/ActivityLogView.kt:227-228 | submission happens iff "Add" is enabled, with the note and photos as they are |
| ActivityLog.PhotosAloneCannotSubmit | app/src/main/java/com/example/myapplication/fieldreport/ActivityLogView.kt:227-228 | photos without a note cannot be submitted |
| MapScreen.DisasterDescriptionVisible | app/src/main/java/com/example/myapplication/MapViewComposable.kt:53-58 | shown iff not blank and not "No description available" |
| MapScreen.MissingDescriptionHidden | app/src/main/java/com/example/myapplication/MapViewComposable.kt:53-58 | a disaster whose feed has no description shows none |
| MapScreen.ReportDescriptionVisible | app/src/main/java/com/example/myapplication/MapViewComposable.kt:96-101 | shown iff it has a non-whitespace character |
| MapScreen.PhotoCountLine | app/src/main/java/com/example/myapplication/MapViewComposable.kt:108-113 | present iff there are photos: the camera, the count in decimal (it reads back), " photo", and a final "s" iff n > 1 |
| MapScreen.GeoPointOf | app/src/main/java/com/example/myapplication/MapViewComposable.kt:275 | a polygon point takes lat from the second entry and lon from the first; a missing position gives (0, 0) |
| MapScreen.RingPoints | app/src/main/java/com/example/myapplication/MapViewComposable.kt:274-276 | one point per ring position, in order |
| MapScreen.FirstRing | app/src/main/java/com/example/myapplication/MapViewComposable.kt:271 | a first ring exists iff the affected area is present, non-empty and starts with an array, and it is that array's items |
| MapScreen.UserOverlays | app/src/main/java/com/example/myapplication/MapViewComposable.kt:250-266 | the user marker, at the given position, is added iff both coordinates are non-zero |
| MapScreen.DisasterOverlays | app/src/main/java/com/example/myapplication/MapViewComposable.kt:269-336 | each disaster adds one or two overlays, its marker and possibly its area |
| MapScreen.Layout | app/src/main/java/com/example/myapplication/MapViewComposable.kt:246-375 | the rebuilt list holds between one overlay per disaster and report and one user marker plus two per disaster and one per report |
| MapScreen.AreaOf | app/src/main/java/com/example/myapplication/MapViewComposable.kt:271-298 | a polygon is drawn iff the disaster has a non-empty first ring, with one point per position |
| MapScreen.ReportOverlays | app/src/main/java/com/example/myapplication/MapViewComposable.kt:339-375 | one marker per report, in order |
| MapScreen.DisasterMarkersOfAppend | app/src/main/java/com/example/myapplication/MapViewComposable.kt:246-375 | the disaster markers of a joined list are those of each part, in order |
| MapScreen.AreaMarkers | app/src/main/java/com/example/myapplication/MapViewComposable.kt:271-335 | a polygon is not a disaster marker; a disaster marker is |
| MapScreen.DisasterOverlaysMarkers | app/src/main/java/com/example/myapplication/MapViewComposable.kt:269-336 | the disaster section has exactly one marker per disaster, in order |
| MapScreen.DisasterOverlaysKinds | app/src/main/java/com/example/myapplication/MapViewComposable.kt:269-336 | the disaster section holds only polygons and disaster markers |
| MapScreen.ReportOverlaysMarkers | app/src/main/java/com/example/myapplication/MapViewComposable.kt:339-375 | the report section holds no disaster marker |
| MapScreen.UserMarkers | app/src/main/java/com/example/myapplication/MapViewComposable.kt:250-266 | the user section holds no disaster marker |
| MapScreen.LayoutDisasterMarkers | app/src/main/java/com/example/myapplication/MapViewComposable.kt:246-375 | the rebuilt list has exactly one marker per disaster, in input order |
| MapScreen.LayoutUserFirst | app/src/main/java/com/example/myapplication/MapViewComposable.kt:250-266 | the list starts with the user marker iff latitude and longitude are both non-zero |
| MapScreen.LayoutReportsLast | app/src/main/java/com/example/myapplication/MapViewComposable.kt:339-375 | the list ends with one marker per report, in input order |
| MapScreen.LayoutDropsTapCloser | app/src/main/java/com/example/myapplication/MapViewComposable.kt:247 | the rebuilt list no longer holds the tap overlay |
| MapScreen.AddDisasterOverlays | app/src/main/java/com/example/myapplication/MapViewComposable.kt:269-336 | the disaster loop appends each disaster's optional polygon and then its marker |
| MapScreen.AddReportOverlays | app/src/main/java/com/example/myapplication/MapViewComposable.kt:339-375 | the report loop appends one marker per report |
| MapScreen.MapOverlays.constructor | app/src/main/java/com/example/myapplication/MapViewComposable.kt:210-224 | the factory installs the tap overlay, with no window open |
| MapScreen.MapOverlays.Update | app/src/main/java/com/example/myapplication/MapViewComposable.kt:229-378 | the overlay list is rebuilt from empty in the order user, disasters, reports, with every window closed |
| MapScreen.MapOverlays.OnMarkerClick | app/src/main/java/com/example/myapplication/MapViewComposable.kt:318-333 | clicking an open marker closes it; clicking a closed one closes every other window and opens it |
| MapScreen.ClickLeavesAtMostOne | app/src/main/java/com/example/myapplication/MapViewComposable.kt:357-372 | at most one window is open after a click that opens one, and a click keeps that property |
| MapScreen.MapOverlays.OnMapTap | app/src/main/java/com/example/myapplication/MapViewComposable.kt:210-219 | a tap closes every window only while the tap overlay is in the list; otherwise nothing changes |
| MapScreen.TapAfterUpdateKeepsWindow | app/src/main/java/com/example/myapplication/MapViewComposable.kt:247 | after an update, a click on a report marker and then a tap on the map, the window stays open |
| MapScreen.UpdateKeepingTapCloser | app/src/main/java/com/example/myapplication/MapViewComposable.kt:210-247 | a rebuild that keeps the tap overlay in front of the layout, with every window closed |
| MapScreen.TapAfterCorrectedUpdateClosesAll | app/src/main/java/com/example/myapplication/MapViewComposable.kt:210-219 | with the corrected rebuild, the same click and tap leave every window closed |

## Left out

- Floating point: the Haversine `getDistanceFrom` is a parameter `distance` of the nearby selection. `downloadCurrentArea` computes its box with cosine, so it is not part of this model. Coordinates and scores are `real` values that are only copied and compared.
- OfflineMaps.FormatCacheSize: states only the unit suffix for KB, MB and GB. The `%.1f`/`%.2f` digits come from a parameter `DecimalFormats`, so only the " B" branch is stated digit for digit.
- Decimal text of `Double` values in the CSV rows and the WKT column comes from a parameter `Formats`. The read-back lemmas assume that text has no comma, quote or newline (`DecimalsPlain`).
- The map library's tile count (`possibleTilesInArea`) is the `tileCount` function given to the manager. `downloadAreaAsync` itself is a parameter `Setup` that says whether counting or starting throws. Its callbacks are the transition methods, which may be called in any order.
- Threads, coroutines and state-flow plumbing: each launch body or callback is one atomic transition. Emitted states are a ghost trace.
- File I/O: a write's success is a boolean parameter. File names and times use a `now` parameter. `SimpleDateFormat` text is a parameter of `Formats`. Share intents are not part of this model.
- SharedPreferences: the last-export time is an ordinary argument.
- The photo-save outcome, fresh ids and the clock are parameters of the view-model methods.
- FieldReportStore.FieldReportViewModel.ChangeReportStatus and AddUpdateToReport use one `now` for the report's lastUpdated and the new update's timestamp; the source reads the clock for each (the update's timestamp is a constructor default, ReportUpdate.kt:18). CreateReport reads it once, because lastUpdated defaults to timestamp (FieldReport.kt:26), and it creates no update.
- The photo-file deletes of `deleteReport` and `deletePhotoFromReport` (FieldReportViewModel.kt:166-173, 185-190) are I/O whose failure is caught and ignored; only the table changes are modelled.
- OfflineMaps.OfflineMapManager.ClearCache: assumes `deleteRecursively` removes the whole cache; the source ignores its result (OfflineMapManager.kt:181), so a partial delete is not modelled.
- The view model's `init` starts `loadDisasters`; the model's constructor gives the initial state and the load is a separate call.
- `loadUpdatesForReport` and the current-updates flow: the DAO query is not part of this model.
- `getAllUpdatesMap` reads every update through the DAO. The model groups a given list (`GroupByReport`).
- Room, Moshi, DataStore and Retrofit: the tables are maps; the photo-list JSON converter is not part of this model.
- Text.Upper: upper-cases ASCII letters only, not the full Unicode mapping of `uppercase()`.
- DisasterStore.SortByKeySorted: proves the nearby list sorted and a permutation, but not that `sortedBy` is stable.
- A non-array coordinate value is read as 0.0, like a failed cast. A null feature or a thrown cast exception is not modelled.
- Csv: a lone `\r` is not quoted by the escaper, and the reader treats it as ordinary data. CRLF line ends are not modelled.
- The map screen: camera moves (first location, recenter, navigate), marker icons, the user marker's default click handled by the library, and windows of old markers left open after a rebuild are not part of this model.
- Integer widths: Kotlin `Long` and `Int` overflow are not modelled. The time difference and the tile total are unbounded integers.
- Kotlin `Long` division truncates toward zero; `TimeAgo.Quot` models it. Only its sign matters for negative differences, which all print "Just now".

## Findings

| source | as written | input that shows it | evidently intended | confidence | as-written member | corrected member |
|---|---|---|---|---|---|---|
| app/src/main/java/com/example/myapplication/MapViewComposable.kt:247 | every `update` clears all overlays, which also removes the tap-to-close overlay added once in the factory (lines 210-224) | any update with one report, then a click on its marker, then a tap on empty map: the window stays open | a tap on the map closes every info window, so the tap overlay survives the rebuild | not executed | MapScreen.TapAfterUpdateKeepsWindow | MapScreen.TapAfterCorrectedUpdateClosesAll |

The download progress total uses the zoom clamped to 6..16 (OfflineMapManager.kt:91). The download itself and the size estimate use the unclamped `maxZoom` (lines 101 and 208-224). The model keeps both as written.
