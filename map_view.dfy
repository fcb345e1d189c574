/**
 * The map screen: what the two info windows show, the overlay list that
 * every recomposition rebuilds, and the marker click that toggles info
 * windows. Each overlay's info window is open or closed; the rendering,
 * the camera and the map library's drawing are not part of this model.
 */
module MapScreen {
  import opened Wrappers
  import opened Text
  import opened FieldReports
  import opened Gdacs

  // ---- info-window contents ----

  const NoDescription: string := "No description available"

  /** The disaster window shows a description unless it is blank or the placeholder. */
  function DisasterDescriptionVisible(description: string): (b: bool)
    ensures b <==> (exists i :: 0 <= i < |description| && !IsWhitespace(description[i]))
                   && description != NoDescription
  {
    !IsBlank(description) && description != NoDescription
  }

  /** A disaster whose feed entry had no description never shows one. */
  lemma MissingDescriptionHidden(f: DisasterFeature)
    requires f.properties.description.None?
    ensures !DisasterDescriptionVisible(DisasterOf(f).description)
  {
    DisasterDefaults(f);
  }

  /** The report window shows a description unless it is blank. */
  function ReportDescriptionVisible(description: string): (b: bool)
    ensures b <==> exists i :: 0 <= i < |description| && !IsWhitespace(description[i])
  {
    !IsBlank(description)
  }

  const CameraIcon: char := '\U{1F4F7}'

  /** The "📷 n photo(s)" line, shown only for a report with photos. */
  function PhotoCountLine(n: nat): (line: Option<string>)
    ensures line.None? <==> n == 0
    ensures line.Some? ==>
      var s := line.value;
      var k := |NatToString(n)|;
      |s| >= k + 8 && s[..2] == [CameraIcon, ' ']
      && (forall i :: 2 <= i < k + 2 ==> IsDigit(s[i])) && ParseDigits(s[2..k + 2]) == n
      && s[k + 2..k + 8] == " photo"
      && (s[|s| - 1] == 's' <==> n > 1)
  {
    if n == 0 then None
    else
      NatToStringRoundTrip(n);
      var s := [CameraIcon, ' '] + NatToString(n) + " photo" + PluralS(n > 1);
      assert s[2..|NatToString(n)| + 2] == NatToString(n);
      Some(s)
  }

  // ---- overlays ----

  datatype Overlay =
    | TapCloser
    | UserMarker(latitude: real, longitude: real)
    | AreaPolygon(points: seq<(real, real)>, title: string)
    | DisasterMarker(disaster: Disaster)
    | ReportMarker(report: FieldReport)
  {
    predicate IsMarker() {
      UserMarker? || DisasterMarker? || ReportMarker?
    }
  }

  /** The first ring of a disaster's affected area, when it has one. */
  function FirstRing(d: Disaster): (ring: Option<seq<JsonValue>>)
    ensures ring.Some? <==> d.affectedArea.Some? && d.affectedArea.value != [] && d.affectedArea.value[0].JArr?
    ensures ring.Some? ==> ring.value == d.affectedArea.value[0].items
  {
    if d.affectedArea.Some? && d.affectedArea.value != [] && d.affectedArea.value[0].JArr?
    then Some(d.affectedArea.value[0].items)
    else None
  }

  /** A GeoJSON position [longitude, latitude] as (latitude, longitude), 0 for what is missing. */
  function GeoPointOf(position: JsonValue): (p: (real, real))
    ensures position.JArr? && |position.items| >= 2 ==>
      p == (NumberOr0(position.items[1]), NumberOr0(position.items[0]))
    ensures !position.JArr? || position.items == [] ==> p == (0.0, 0.0)
  {
    var items := if position.JArr? then position.items else [];
    (if |items| > 1 then NumberOr0(items[1]) else 0.0, if |items| > 0 then NumberOr0(items[0]) else 0.0)
  }

  function RingPoints(ring: seq<JsonValue>): (points: seq<(real, real)>)
    ensures |points| == |ring|
    ensures forall i :: 0 <= i < |ring| ==> points[i] == GeoPointOf(ring[i])
  {
    if ring == [] then [] else [GeoPointOf(ring[0])] + RingPoints(ring[1..])
  }

  /** The polygon drawn for a disaster: only for a non-empty first ring. */
  function AreaOf(d: Disaster): (area: seq<Overlay>)
    ensures |area| <= 1
    ensures |area| == 1 <==> FirstRing(d).Some? && FirstRing(d).value != []
    ensures |area| == 1 ==> area[0].AreaPolygon? && |area[0].points| == |FirstRing(d).value|
  {
    match FirstRing(d)
    case Some(ring) =>
      if ring != [] then [AreaPolygon(RingPoints(ring), "Affected area: " + d.name)] else []
    case None => []
  }

  /** The user marker, only when neither coordinate is 0. */
  function UserOverlays(latitude: real, longitude: real): (os: seq<Overlay>)
    ensures |os| <= 1
    ensures os != [] <==> latitude != 0.0 && longitude != 0.0
    ensures os != [] ==> os[0] == UserMarker(latitude, longitude)
  {
    if latitude != 0.0 && longitude != 0.0 then [UserMarker(latitude, longitude)] else []
  }

  /** Per disaster, its area polygon (if any) and then its marker. */
  function DisasterOverlays(ds: seq<Disaster>): (os: seq<Overlay>)
    ensures |ds| <= |os| <= 2 * |ds|
  {
    if ds == [] then []
    else DisasterOverlays(ds[..|ds| - 1]) + AreaOf(ds[|ds| - 1]) + [DisasterMarker(ds[|ds| - 1])]
  }

  function ReportOverlays(rs: seq<FieldReport>): (os: seq<Overlay>)
    ensures |os| == |rs|
    ensures forall i :: 0 <= i < |rs| ==> os[i] == ReportMarker(rs[i])
  {
    if rs == [] then [] else ReportOverlays(rs[..|rs| - 1]) + [ReportMarker(rs[|rs| - 1])]
  }

  /** The list `update` builds after clearing the old one. */
  function Layout(latitude: real, longitude: real, ds: seq<Disaster>, rs: seq<FieldReport>): (os: seq<Overlay>)
    ensures |ds| + |rs| <= |os| <= 1 + 2 * |ds| + |rs|
  {
    UserOverlays(latitude, longitude) + DisasterOverlays(ds) + ReportOverlays(rs)
  }

  /** The disasters whose markers appear in an overlay list, in list order. */
  function DisasterMarkersOf(os: seq<Overlay>): seq<Disaster> {
    if os == [] then []
    else DisasterMarkersOf(os[..|os| - 1]) + (if os[|os| - 1].DisasterMarker? then [os[|os| - 1].disaster] else [])
  }

  lemma {:induction false} DisasterMarkersOfAppend(a: seq<Overlay>, b: seq<Overlay>)
    ensures DisasterMarkersOf(a + b) == DisasterMarkersOf(a) + DisasterMarkersOf(b)
    decreases |b|
  {
    if b != [] {
      assert (a + b)[..|a + b| - 1] == a + b[..|b| - 1];
      DisasterMarkersOfAppend(a, b[..|b| - 1]);
    } else {
      assert a + b == a;
    }
  }

  /** Only polygons and disaster markers come from the disaster list. */
  predicate FromDisaster(o: Overlay) {
    o.AreaPolygon? || o.DisasterMarker?
  }

  lemma AreaMarkers(d: Disaster)
    ensures DisasterMarkersOf(AreaOf(d)) == []
    ensures DisasterMarkersOf([DisasterMarker(d)]) == [d]
  {
    if AreaOf(d) != [] {
      assert AreaOf(d)[..0] == [];
    }
    assert [DisasterMarker(d)][..0] == [];
  }

  lemma {:induction false} DisasterOverlaysMarkers(ds: seq<Disaster>)
    ensures DisasterMarkersOf(DisasterOverlays(ds)) == ds
  {
    if ds != [] {
      var init := ds[..|ds| - 1];
      var d := ds[|ds| - 1];
      var a := DisasterOverlays(init);
      DisasterOverlaysMarkers(init);
      AreaMarkers(d);
      DisasterMarkersOfAppend(a, AreaOf(d));
      DisasterMarkersOfAppend(a + AreaOf(d), [DisasterMarker(d)]);
      assert ds == init + [d];
    }
  }

  lemma {:induction false} DisasterOverlaysKinds(ds: seq<Disaster>)
    ensures forall k :: 0 <= k < |DisasterOverlays(ds)| ==> FromDisaster(DisasterOverlays(ds)[k])
  {
    if ds != [] {
      var init := ds[..|ds| - 1];
      var d := ds[|ds| - 1];
      DisasterOverlaysKinds(init);
      var a := DisasterOverlays(init);
      var b := AreaOf(d);
      forall k | 0 <= k < |DisasterOverlays(ds)| ensures FromDisaster(DisasterOverlays(ds)[k]) {
        if k < |a| {
          assert DisasterOverlays(ds)[k] == a[k];
        } else if k < |a| + |b| {
          assert DisasterOverlays(ds)[k] == b[k - |a|];
        }
      }
    }
  }

  lemma {:induction false} ReportOverlaysMarkers(rs: seq<FieldReport>)
    ensures DisasterMarkersOf(ReportOverlays(rs)) == []
  {
    if rs != [] {
      ReportOverlaysMarkers(rs[..|rs| - 1]);
    }
  }

  lemma UserMarkers(latitude: real, longitude: real)
    ensures DisasterMarkersOf(UserOverlays(latitude, longitude)) == []
  {
    var u := UserOverlays(latitude, longitude);
    if u != [] { assert u[..0] == []; }
  }

  /** The rebuilt list keeps one marker per disaster, in order. */
  lemma LayoutDisasterMarkers(latitude: real, longitude: real, ds: seq<Disaster>, rs: seq<FieldReport>)
    ensures DisasterMarkersOf(Layout(latitude, longitude, ds, rs)) == ds
  {
    var u := UserOverlays(latitude, longitude);
    UserMarkers(latitude, longitude);
    DisasterOverlaysMarkers(ds);
    ReportOverlaysMarkers(rs);
    DisasterMarkersOfAppend(u + DisasterOverlays(ds), ReportOverlays(rs));
    DisasterMarkersOfAppend(u, DisasterOverlays(ds));
  }

  /** The rebuilt list starts with the user marker exactly when both coordinates are non-zero. */
  lemma LayoutUserFirst(latitude: real, longitude: real, ds: seq<Disaster>, rs: seq<FieldReport>)
    ensures var l := Layout(latitude, longitude, ds, rs);
      l != [] && l[0].UserMarker? <==> latitude != 0.0 && longitude != 0.0
  {
    var u := UserOverlays(latitude, longitude);
    var d := DisasterOverlays(ds);
    var r := ReportOverlays(rs);
    var l := Layout(latitude, longitude, ds, rs);
    if u == [] && l != [] {
      if d != [] {
        DisasterOverlaysKinds(ds);
        assert l[0] == d[0];
        assert FromDisaster(d[0]);
      } else {
        assert l[0] == r[0];
      }
    }
  }

  /** The rebuilt list ends with one marker per report, in order. */
  lemma LayoutReportsLast(latitude: real, longitude: real, ds: seq<Disaster>, rs: seq<FieldReport>)
    ensures var l := Layout(latitude, longitude, ds, rs);
      |l| >= |rs| && l[|l| - |rs|..] == ReportOverlays(rs)
  {
  }

  /** The rebuilt list holds no tap-to-close overlay. */
  lemma LayoutDropsTapCloser(latitude: real, longitude: real, ds: seq<Disaster>, rs: seq<FieldReport>)
    ensures TapCloser !in Layout(latitude, longitude, ds, rs)
  {
    var u := UserOverlays(latitude, longitude);
    var d := DisasterOverlays(ds);
    var r := ReportOverlays(rs);
    var l := Layout(latitude, longitude, ds, rs);
    DisasterOverlaysKinds(ds);
    forall k | 0 <= k < |l| ensures l[k] != TapCloser {
      if k < |u| {
        assert l[k] == u[k];
      } else if k < |u| + |d| {
        assert l[k] == d[k - |u|];
        assert FromDisaster(d[k - |u|]);
      } else {
        assert l[k] == r[k - |u| - |d|];
      }
    }
  }

  /** No two info windows are open at once. */
  predicate AtMostOneShown(shown: seq<bool>) {
    forall i, j :: 0 <= i < |shown| && 0 <= j < |shown| && shown[i] && shown[j] ==> i == j
  }

  /** The disaster loop of `update`: each polygon, then each marker, appended to `list`. */
  method AddDisasterOverlays(list: seq<Overlay>, disasters: seq<Disaster>) returns (out: seq<Overlay>)
    ensures out == list + DisasterOverlays(disasters)
  {
    out := list;
    var i := 0;
    while i < |disasters|
      invariant 0 <= i <= |disasters|
      invariant out == list + DisasterOverlays(disasters[..i])
    {
      var disaster := disasters[i];
      assert disasters[..i + 1][..i] == disasters[..i];
      assert DisasterOverlays(disasters[..i + 1])
        == DisasterOverlays(disasters[..i]) + AreaOf(disaster) + [DisasterMarker(disaster)];
      out := out + AreaOf(disaster);
      out := out + [DisasterMarker(disaster)];
      i := i + 1;
    }
    assert disasters[..i] == disasters;
  }

  /** The report loop of `update`: one marker per report appended to `list`. */
  method AddReportOverlays(list: seq<Overlay>, fieldReports: seq<FieldReport>) returns (out: seq<Overlay>)
    ensures out == list + ReportOverlays(fieldReports)
  {
    out := list;
    var j := 0;
    while j < |fieldReports|
      invariant 0 <= j <= |fieldReports|
      invariant out == list + ReportOverlays(fieldReports[..j])
    {
      assert fieldReports[..j + 1][..j] == fieldReports[..j];
      out := out + [ReportMarker(fieldReports[j])];
      j := j + 1;
    }
    assert fieldReports[..j] == fieldReports;
  }

  class MapOverlays {
    var overlays: seq<Overlay>
    /** Whether each overlay's info window is open. */
    var windowShown: seq<bool>

    ghost predicate Valid()
      reads this
    {
      |windowShown| == |overlays|
      && forall i :: 0 <= i < |overlays| && windowShown[i] ==> overlays[i].IsMarker()
    }

    /** The factory: a fresh map holding only the tap-to-close overlay. */
    constructor()
      ensures Valid() && overlays == [TapCloser] && windowShown == [false]
    {
      overlays := [TapCloser];
      windowShown := [false];
    }

    /** `update`: clear, then append the user marker, each disaster's polygon
        and marker, and each report's marker; every new window starts closed. */
    method Update(latitude: real, longitude: real, disasters: seq<Disaster>, fieldReports: seq<FieldReport>)
      modifies this
      ensures Valid()
      ensures overlays == Layout(latitude, longitude, disasters, fieldReports)
      ensures forall i :: 0 <= i < |windowShown| ==> !windowShown[i]
    {
      var list: seq<Overlay> := [];
      if latitude != 0.0 && longitude != 0.0 {
        list := list + [UserMarker(latitude, longitude)];
      }
      list := AddDisasterOverlays(list, disasters);
      list := AddReportOverlays(list, fieldReports);
      overlays := list;
      windowShown := seq(|list|, _ => false);
    }

    /** A click on a disaster or report marker: an open window closes; a
        closed one opens after every other window is closed. */
    method OnMarkerClick(marker: nat)
      requires Valid() && marker < |overlays|
      requires overlays[marker].DisasterMarker? || overlays[marker].ReportMarker?
      modifies this
      ensures Valid() && overlays == old(overlays)
      ensures old(windowShown)[marker] ==> windowShown == old(windowShown)[marker := false]
      ensures !old(windowShown)[marker] ==>
        windowShown[marker] && forall k :: 0 <= k < |windowShown| && k != marker ==> !windowShown[k]
    {
      if windowShown[marker] {
        windowShown := windowShown[marker := false];
      } else {
        var k := 0;
        while k < |overlays|
          invariant 0 <= k <= |overlays|
          invariant |windowShown| == |overlays| && overlays == old(overlays)
          invariant forall m :: 0 <= m < k && m != marker ==> !windowShown[m]
          invariant forall m :: k <= m < |overlays| ==> windowShown[m] == old(windowShown)[m]
          invariant windowShown[marker] == old(windowShown)[marker]
          invariant forall m :: 0 <= m < |overlays| && windowShown[m] ==> old(windowShown)[m]
        {
          if overlays[k].IsMarker() && k != marker {
            windowShown := windowShown[k := false];
          }
          k := k + 1;
        }
        windowShown := windowShown[marker := true];
      }
    }

    /** A tap on empty map: handled only while the tap-to-close overlay is in the list. */
    method OnMapTap()
      requires Valid()
      modifies this
      ensures Valid() && overlays == old(overlays)
      ensures TapCloser in overlays ==> forall k :: 0 <= k < |windowShown| ==> !windowShown[k]
      ensures TapCloser !in overlays ==> windowShown == old(windowShown)
    {
      if TapCloser in overlays {
        windowShown := seq(|overlays|, _ => false);
      }
    }
  }

  /** After a click that opens a window, exactly that one is open; a click
      that closes one never opens another. */
  lemma ClickLeavesAtMostOne(before: seq<bool>, after: seq<bool>, marker: nat)
    requires |before| == |after| && marker < |before|
    requires before[marker] ==> after == before[marker := false]
    requires !before[marker] ==> after[marker] && forall k :: 0 <= k < |after| && k != marker ==> !after[k]
    ensures AtMostOneShown(before) ==> AtMostOneShown(after)
    ensures !before[marker] ==> AtMostOneShown(after)
  {
  }

  /** As written, the first `update` drops the tap-to-close overlay, so a tap
      no longer closes an open window. */
  method TapAfterUpdateKeepsWindow(m: MapOverlays, r: FieldReport)
    modifies m
    ensures m.overlays == [ReportMarker(r)] && m.windowShown == [true]
  {
    m.Update(0.0, 0.0, [], [r]);
    assert ReportOverlays([r]) == [ReportMarker(r)];
    assert m.overlays == [ReportMarker(r)];
    m.OnMarkerClick(0);
    m.OnMapTap();
  }

  /** The rebuild with the tap-to-close overlay kept at the bottom of the list. */
  method UpdateKeepingTapCloser(m: MapOverlays, latitude: real, longitude: real,
                                disasters: seq<Disaster>, fieldReports: seq<FieldReport>)
    modifies m
    ensures m.Valid()
    ensures m.overlays == [TapCloser] + Layout(latitude, longitude, disasters, fieldReports)
    ensures forall i :: 0 <= i < |m.windowShown| ==> !m.windowShown[i]
  {
    m.Update(latitude, longitude, disasters, fieldReports);
    m.overlays := [TapCloser] + m.overlays;
    m.windowShown := [false] + m.windowShown;
  }

  /** With the overlay kept, a tap after any click closes every window. */
  method TapAfterCorrectedUpdateClosesAll(m: MapOverlays, r: FieldReport)
    modifies m
    ensures m.overlays == [TapCloser, ReportMarker(r)] && m.windowShown == [false, false]
  {
    UpdateKeepingTapCloser(m, 0.0, 0.0, [], [r]);
    assert ReportOverlays([r]) == [ReportMarker(r)];
    assert m.overlays == [TapCloser, ReportMarker(r)];
    m.OnMarkerClick(1);
    m.OnMapTap();
  }
}
