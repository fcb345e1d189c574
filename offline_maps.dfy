/**
 * The offline-map download manager: a region catalogue, the download state
 * that setup and the tile downloader's callbacks overwrite, and the
 * tile-cache directory it measures and clears.
 *
 * The tile downloader belongs to a map library: its tile count is the
 * manager's `tileCount` function, and each of its callbacks is a method
 * that runs as one atomic step.
 */
module OfflineMaps {
  import opened Wrappers
  import opened Text
  import opened Seqs

  const MinZoomLevel: int := 6
  const DefaultMaxZoom: int := 14
  const MaxZoomLevel: int := 16

  /** Average bytes per tile used for estimates. */
  const BytesPerTile: int := 17000

  /** The map library's box, built with the arguments in the order north, east, south, west. */
  datatype BoundingBox = BoundingBox(north: real, east: real, south: real, west: real)

  datatype Region = Region(north: real, south: real, east: real, west: real, name: string)
  {
    function Box(): (b: BoundingBox)
      ensures b.north == north && b.south == south && b.east == east && b.west == west
    {
      BoundingBox(north, east, south, west)
    }
  }

  datatype DownloadState =
    | Idle
    | Preparing
    | Downloading(progress: int, total: int)
    | Completed
    | Error(message: string)

  predicate WellFormedEntry(key: string, r: Region) {
    r.name == key && r.north > r.south && r.east > r.west
  }

  /** The quick-selection catalogue: ten regions, each named by its key and
      spanning a non-empty box. */
  function PredefinedRegions(): (m: map<string, Region>)
    ensures forall k :: k in m ==> WellFormedEntry(k, m[k])
  {
    map[
      "Jamaica" := Region(18.6, 17.6, -76.1, -78.6, "Jamaica"),
      "Haiti" := Region(20.1, 18.0, -71.6, -74.5, "Haiti"),
      "Dominican Republic" := Region(19.9, 17.5, -68.3, -72.0, "Dominican Republic"),
      "Puerto Rico" := Region(18.5, 17.9, -65.6, -67.3, "Puerto Rico"),
      "Cuba" := Region(23.3, 19.8, -74.1, -84.9, "Cuba"),
      "Philippines" := Region(19.5, 4.6, 126.6, 116.9, "Philippines"),
      "Indonesia" := Region(6.0, -11.0, 141.0, 95.0, "Indonesia"),
      "Bangladesh" := Region(26.6, 20.7, 92.7, 88.0, "Bangladesh"),
      "Nepal" := Region(30.4, 26.3, 88.2, 80.0, "Nepal"),
      "Myanmar" := Region(28.5, 9.8, 101.2, 92.2, "Myanmar")
    ]
  }

  /** The catalogue has ten distinct regions. */
  lemma CatalogueSize()
    ensures |PredefinedRegions()| == 10
  {
  }

  /** `coerceIn(MIN_ZOOM_LEVEL, MAX_ZOOM_LEVEL)`. */
  function ClampZoom(z: int): (r: int)
    ensures MinZoomLevel <= r <= MaxZoomLevel
    ensures MinZoomLevel <= z <= MaxZoomLevel ==> r == z
    ensures z < MinZoomLevel ==> r == MinZoomLevel
    ensures z > MaxZoomLevel ==> r == MaxZoomLevel
  {
    if z < MinZoomLevel then MinZoomLevel else if z > MaxZoomLevel then MaxZoomLevel else z
  }

  // ---- the tile cache directory ----

  /** A file-system entry: a missing path, a file, or a directory and its listing. */
  datatype Node = Missing | File(length: nat) | Directory(children: seq<Node>)

  /** The lengths of all files anywhere in a tree, in listing order. */
  function FileLengths(n: Node): seq<int>
    decreases n, 1
  {
    match n
    case Missing => []
    case File(length) => [length]
    case Directory(children) => ListingLengths(children)
  }

  function ListingLengths(cs: seq<Node>): seq<int>
    decreases cs, 0
  {
    if cs == [] then []
    else ListingLengths(cs[..|cs| - 1]) + FileLengths(cs[|cs| - 1])
  }

  /** No file length is negative. */
  lemma {:induction false} FileLengthsNonNegative(n: Node)
    ensures forall x :: x in FileLengths(n) ==> x >= 0
    decreases n, 1
  {
    match n
    case Missing =>
    case File(_) =>
    case Directory(children) => ListingLengthsNonNegative(children);
  }

  lemma {:induction false} ListingLengthsNonNegative(cs: seq<Node>)
    ensures forall x :: x in ListingLengths(cs) ==> x >= 0
    decreases cs, 0
  {
    if cs != [] {
      ListingLengthsNonNegative(cs[..|cs| - 1]);
      FileLengthsNonNegative(cs[|cs| - 1]);
    }
  }

  lemma {:induction false} SumNonNegative(s: seq<int>)
    requires forall x :: x in s ==> x >= 0
    ensures Sum(s) >= 0
  {
    if s != [] {
      var init := s[..|s| - 1];
      forall x | x in init ensures x >= 0 {
        var i :| 0 <= i < |init| && init[i] == x;
        assert s[i] == x && s[i] in s;
      }
      assert s[|s| - 1] in s;
      SumNonNegative(s[..|s| - 1]);
    }
  }

  /** What the cache measures: the total length of every file below a
      directory; nothing for a missing path or a plain file, whose listing
      is null. */
  function DirectorySize(n: Node): (size: int)
    ensures size >= 0
    ensures !n.Directory? ==> size == 0
  {
    if n.Directory? then
      ListingLengthsNonNegative(n.children);
      SumNonNegative(ListingLengths(n.children));
      Sum(ListingLengths(n.children))
    else 0
  }

  /** `isCacheAvailable`: the root exists and lists at least one entry
      (an empty subdirectory counts). */
  function CacheAvailable(root: Node): (b: bool)
    ensures b <==> root.Directory? && |root.children| > 0
  {
    root.Directory? && root.children != []
  }

  /** An available cache can still measure 0 bytes; a non-empty measure means an available cache. */
  lemma SizeNeedsAvailable(root: Node)
    ensures DirectorySize(root) > 0 ==> CacheAvailable(root)
    ensures CacheAvailable(Directory([Directory([])])) && DirectorySize(Directory([Directory([])])) == 0
  {
    var d := Directory([Directory([])]);
    assert ListingLengths([Directory([])]) == ListingLengths([]) + FileLengths(Directory([]));
  }

  /** `calculateDirectorySize`: accumulates over the listing, recursing into subdirectories. */
  method CalculateDirectorySize(directory: Node) returns (size: int)
    ensures size == DirectorySize(directory)
    decreases directory
  {
    size := 0;
    if directory.Directory? {
      var files := directory.children;
      var i := 0;
      while i < |files|
        invariant 0 <= i <= |files|
        invariant size == Sum(ListingLengths(files[..i]))
      {
        var file := files[i];
        assert file in files;
        assert files[..i + 1][..i] == files[..i];
        SumAppend(ListingLengths(files[..i]), FileLengths(file));
        var entrySize;
        if file.Directory? {
          entrySize := CalculateDirectorySize(file);
        } else {
          entrySize := if file.File? then file.length else 0;
        }
        assert entrySize == Sum(FileLengths(file)) by {
          if file.File? { assert FileLengths(file) == [file.length]; }
        }
        size := size + entrySize;
        i := i + 1;
      }
      assert files[..i] == files;
    }
  }

  // ---- byte counts for display ----

  datatype SizeUnit = B | KB | MB | GB
  {
    function Rank(): nat {
      match this
      case B => 0
      case KB => 1
      case MB => 2
      case GB => 3
    }

    function Suffix(): string {
      match this
      case B => " B"
      case KB => " KB"
      case MB => " MB"
      case GB => " GB"
    }
  }

  /** The unit `formatCacheSize` picks. */
  function UnitOf(bytes: int): (u: SizeUnit)
    ensures u == B <==> bytes < 1024
    ensures u == KB <==> 1024 <= bytes < 1024 * 1024
    ensures u == MB <==> 1024 * 1024 <= bytes < 1024 * 1024 * 1024
    ensures u == GB <==> bytes >= 1024 * 1024 * 1024
  {
    if bytes < 1024 then B
    else if bytes < 1024 * 1024 then KB
    else if bytes < 1024 * 1024 * 1024 then MB
    else GB
  }

  /** A larger count never gets a smaller unit. */
  lemma UnitMonotone(a: int, b: int)
    requires a <= b
    ensures UnitOf(a).Rank() <= UnitOf(b).Rank()
  {
  }

  /** The `%.1f` and `%.2f` renderings of a double. */
  datatype DecimalFormats = DecimalFormats(oneDecimal: real -> string, twoDecimals: real -> string)

  /** `formatCacheSize`: the number in the chosen unit, then the unit. */
  function FormatCacheSize(bytes: int, fmt: DecimalFormats): (s: string)
    ensures var suffix := UnitOf(bytes).Suffix();
      |s| >= |suffix| && s[|s| - |suffix|..] == suffix
  {
    var u := UnitOf(bytes);
    var number :=
      match u
      case B => IntToString(bytes)
      case KB => fmt.oneDecimal(bytes as real / 1024.0)
      case MB => fmt.oneDecimal(bytes as real / (1024.0 * 1024.0))
      case GB => fmt.twoDecimals(bytes as real / (1024.0 * 1024.0 * 1024.0));
    number + u.Suffix()
  }

  /** Below 1024 the count is printed exactly, as an integer followed by " B". */
  lemma FormatBytesReadsBack(bytes: int, fmt: DecimalFormats)
    requires bytes < 1024
    ensures var s := FormatCacheSize(bytes, fmt);
      |s| >= 3 && s[|s| - 2..] == " B" && ParseInt(s[..|s| - 2]) == bytes
  {
    IntToStringRoundTrip(bytes);
    var s := FormatCacheSize(bytes, fmt);
    assert s == IntToString(bytes) + " B";
    assert s[..|s| - 2] == IntToString(bytes);
  }

  // ---- the manager ----

  /** What a started download was asked for; the callbacks close over it. */
  datatype DownloadRun = DownloadRun(box: BoundingBox, minZoom: int, maxZoom: int, total: int)

  /** How the library calls made during setup end. */
  datatype Setup =
    | SetupOk
    | ThrowsCountingTiles(message: Option<string>)
    | ThrowsStartingDownload(message: Option<string>)

  class OfflineMapManager {
    /** The library's `possibleTilesInArea(box, minZoom, maxZoom)`. */
    const tileCount: (BoundingBox, int, int) -> nat
    var downloadState: DownloadState
    /** Every value assigned to the state flow, in order. */
    ghost var emitted: seq<DownloadState>
    /** The tile cache directory. */
    var tileCache: Node

    constructor(tileCount: (BoundingBox, int, int) -> nat, tileCache: Node)
      ensures this.tileCount == tileCount && this.tileCache == tileCache
      ensures downloadState == Idle && emitted == []
    {
      this.tileCount := tileCount;
      this.tileCache := tileCache;
      downloadState := Idle;
      emitted := [];
    }

    /** `downloadCustomRegion`: Preparing, then Downloading(0, total) with the
        total counted over the clamped zoom range, while the download itself
        is asked for the unclamped `maxZoom`. An exception sets Error with its
        message, or "Unknown error", and the call fails. */
    method DownloadCustomRegion(north: real, south: real, east: real, west: real, maxZoom: int, setup: Setup)
      returns (result: Result<DownloadRun, Option<string>>)
      modifies this
      ensures tileCache == old(tileCache)
      ensures var box := BoundingBox(north, east, south, west);
        var total := tileCount(box, MinZoomLevel, ClampZoom(maxZoom));
        match setup
        case SetupOk =>
          result == Success(DownloadRun(box, MinZoomLevel, maxZoom, total))
          && downloadState == Downloading(0, total)
          && emitted == old(emitted) + [Preparing, Downloading(0, total)]
        case ThrowsCountingTiles(message) =>
          result == Failure(message)
          && downloadState == Error(message.GetOr("Unknown error"))
          && emitted == old(emitted) + [Preparing, downloadState]
        case ThrowsStartingDownload(message) =>
          result == Failure(message)
          && downloadState == Error(message.GetOr("Unknown error"))
          && emitted == old(emitted) + [Preparing, Downloading(0, total), downloadState]
    {
      downloadState := Preparing;
      emitted := emitted + [downloadState];
      var boundingBox := BoundingBox(north, east, south, west);
      if setup.ThrowsCountingTiles? {
        downloadState := Error(setup.message.GetOr("Unknown error"));
        emitted := emitted + [downloadState];
        return Failure(setup.message);
      }
      var total := tileCount(boundingBox, MinZoomLevel, ClampZoom(maxZoom));
      downloadState := Downloading(0, total);
      emitted := emitted + [downloadState];
      if setup.ThrowsStartingDownload? {
        downloadState := Error(setup.message.GetOr("Unknown error"));
        emitted := emitted + [downloadState];
        return Failure(setup.message);
      }
      result := Success(DownloadRun(boundingBox, MinZoomLevel, maxZoom, total));
    }

    /** `downloadRegion`: an unknown name fails with "Region not found" and
        leaves the state alone; a known one downloads the region's box. */
    method DownloadRegion(regionName: string, maxZoom: int, setup: Setup)
      returns (result: Result<DownloadRun, Option<string>>)
      modifies this
      ensures tileCache == old(tileCache)
      ensures regionName !in PredefinedRegions() ==>
        result == Failure(Some("Region not found"))
        && downloadState == old(downloadState) && emitted == old(emitted)
      ensures regionName in PredefinedRegions() ==>
        var box := PredefinedRegions()[regionName].Box();
        (result.Success? <==> setup.SetupOk?)
        && (result.Success? ==>
              result.value == DownloadRun(box, MinZoomLevel, maxZoom, tileCount(box, MinZoomLevel, ClampZoom(maxZoom)))
              && downloadState == Downloading(0, result.value.total))
        && (result.Failure? ==> downloadState == Error(result.error.GetOr("Unknown error")))
        && |emitted| > |old(emitted)| && emitted[|old(emitted)|] == Preparing
    {
      if regionName !in PredefinedRegions() {
        return Failure(Some("Region not found"));
      }
      var region := PredefinedRegions()[regionName];
      result := DownloadCustomRegion(region.north, region.south, region.east, region.west, maxZoom, setup);
    }

    /** `onTaskComplete`. */
    method OnTaskComplete()
      modifies this
      ensures downloadState == Completed && emitted == old(emitted) + [Completed]
      ensures tileCache == old(tileCache)
    {
      downloadState := Completed;
      emitted := emitted + [downloadState];
    }

    /** `onTaskFailed`. */
    method OnTaskFailed(errors: int)
      modifies this
      ensures downloadState == Error(FailureMessage(errors))
      ensures emitted == old(emitted) + [downloadState]
      ensures tileCache == old(tileCache)
    {
      downloadState := Error("Download failed with " + IntToString(errors) + " errors");
      emitted := emitted + [downloadState];
    }

    /** `updateProgress`: the total is always the one counted when the run started. */
    method UpdateProgress(run: DownloadRun, progress: int, currentZoomLevel: int, zoomMin: int, zoomMax: int)
      modifies this
      ensures downloadState == Downloading(progress, run.total)
      ensures emitted == old(emitted) + [downloadState]
      ensures tileCache == old(tileCache)
    {
      downloadState := Downloading(progress, run.total);
      emitted := emitted + [downloadState];
    }

    /** `downloadStarted`. */
    method DownloadStarted(run: DownloadRun)
      modifies this
      ensures downloadState == Downloading(0, run.total)
      ensures emitted == old(emitted) + [downloadState]
      ensures tileCache == old(tileCache)
    {
      downloadState := Downloading(0, run.total);
      emitted := emitted + [downloadState];
    }

    /** `getCacheSize`. */
    method GetCacheSize() returns (size: int)
      ensures size == DirectorySize(tileCache) && size >= 0
    {
      size := CalculateDirectorySize(tileCache);
    }

    /** `clearCache`: the directory is deleted and the state is Idle, whatever it was. */
    method ClearCache()
      modifies this
      ensures tileCache == Missing && downloadState == Idle
      ensures emitted == old(emitted) + [Idle]
      ensures !CacheAvailable(tileCache) && DirectorySize(tileCache) == 0
    {
      tileCache := Missing;
      downloadState := Idle;
      emitted := emitted + [downloadState];
    }

    /** `isCacheAvailable`. */
    function IsCacheAvailable(): (b: bool)
      reads this
      ensures b <==> tileCache.Directory? && |tileCache.children| > 0
    {
      CacheAvailable(tileCache)
    }

    /** `cancelDownload`: only the state is reset; nothing stops later callbacks. */
    method CancelDownload()
      modifies this
      ensures downloadState == Idle && emitted == old(emitted) + [Idle]
      ensures tileCache == old(tileCache)
    {
      downloadState := Idle;
      emitted := emitted + [downloadState];
    }

    /** The estimate in bytes, over the unclamped zoom range; None for an unknown region. */
    function EstimatedBytes(regionName: string, maxZoom: int): (bytes: Option<int>)
      ensures bytes.None? <==> regionName !in PredefinedRegions()
      ensures bytes.Some? ==> bytes.value >= 0 && bytes.value % BytesPerTile == 0
      ensures bytes.Some? ==>
        bytes.value / BytesPerTile == tileCount(PredefinedRegions()[regionName].Box(), MinZoomLevel, maxZoom)
    {
      if regionName !in PredefinedRegions() then None
      else
        var region := PredefinedRegions()[regionName];
        Some(tileCount(BoundingBox(region.north, region.east, region.south, region.west), MinZoomLevel, maxZoom) * BytesPerTile)
    }

    /** `estimateDownloadSize`: "Unknown" for an unknown region, otherwise the formatted estimate. */
    function EstimateDownloadSize(regionName: string, maxZoom: int, fmt: DecimalFormats): (s: string)
      ensures regionName !in PredefinedRegions() ==> s == "Unknown"
      ensures regionName in PredefinedRegions() ==>
        s == FormatCacheSize(EstimatedBytes(regionName, maxZoom).value, fmt)
    {
      match EstimatedBytes(regionName, maxZoom)
      case None => "Unknown"
      case Some(bytes) => FormatCacheSize(bytes, fmt)
    }
  }

  /** The text of the failure callback's error state. */
  function FailureMessage(errors: int): (m: string)
    ensures |m| >= 29 && m[..21] == "Download failed with "
    ensures m[|m| - 7..] == " errors"
    ensures IsIntText(m[21..|m| - 7]) && ParseInt(m[21..|m| - 7]) == errors
  {
    IntToStringRoundTrip(errors);
    var m := "Download failed with " + IntToString(errors) + " errors";
    assert m[21..|m| - 7] == IntToString(errors);
    m
  }

  /** A cancelled download is not protected from its own callbacks: a later
      progress event moves the state out of Idle again. */
  method CancelThenProgress(m: OfflineMapManager, run: DownloadRun)
    modifies m
    ensures m.downloadState == Downloading(7, run.total)
    ensures m.emitted == old(m.emitted) + [Idle, Downloading(7, run.total)]
  {
    m.CancelDownload();
    m.UpdateProgress(run, 7, 10, 6, 14);
  }
}
