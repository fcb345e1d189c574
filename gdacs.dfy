/**
 * The GDACS feed model: the feature records decoded from the JSON response,
 * the app's `Disaster` record, the decoding of event types and alert levels,
 * the event URL, and `toDisaster`, which fills defaults and picks the
 * disaster's position from the geometry.
 */
module Gdacs {
  import opened Wrappers
  import opened Text

  /** A JSON value inside `coordinates`: the JSON reader yields every number
      as a double; anything else (string, boolean, null, object) is `JOther`. */
  datatype JsonValue = JNum(num: real) | JArr(items: seq<JsonValue>) | JOther

  datatype DisasterProperties = DisasterProperties(
    eventId: Option<string>,
    eventType: Option<string>,
    eventName: Option<string>,
    alertLevel: Option<string>,
    alertScore: Option<real>,
    episodeAlertLevel: Option<string>,
    episodeAlertScore: Option<real>,
    country: Option<string>,
    fromDate: Option<string>,
    toDate: Option<string>,
    description: Option<string>,
    htmlDescription: Option<string>)

  datatype DisasterGeometry = DisasterGeometry(geometryType: Option<string>, coordinates: seq<JsonValue>)

  datatype DisasterFeature = DisasterFeature(properties: DisasterProperties, geometry: DisasterGeometry)

  datatype DisasterType =
    | Earthquake | Tsunami | TropicalCyclone | Flood | Volcano | Wildfire | Drought | UnknownType
  {
    function DisplayName(): string {
      match this
      case Earthquake => "Earthquake"
      case Tsunami => "Tsunami"
      case TropicalCyclone => "Tropical Cyclone"
      case Flood => "Flood"
      case Volcano => "Volcano"
      case Wildfire => "Wildfire"
      case Drought => "Drought"
      case UnknownType => "Unknown"
    }
  }

  datatype DisasterSeverity = Green | Orange | Red | UnknownSeverity {
    function DisplayName(): string {
      match this
      case Green => "Minor"
      case Orange => "Moderate"
      case Red => "Severe"
      case UnknownSeverity => "Unknown"
    }
  }

  datatype Disaster = Disaster(
    id: string,
    disasterType: DisasterType,
    name: string,
    severity: DisasterSeverity,
    latitude: real,
    longitude: real,
    country: string,
    date: string,
    description: string,
    url: string,
    alertScore: real,
    geometryType: Option<string>,
    affectedArea: Option<seq<JsonValue>>)

  /** `DisasterType.fromString`: the two-letter GDACS code, in any case. */
  function TypeFromString(s: string): (t: DisasterType)
    ensures t == UnknownType <==> Upper(s) !in {"EQ", "TC", "FL", "VO", "DR", "WF", "TS"}
  {
    match Upper(s)
    case "EQ" => Earthquake
    case "TC" => TropicalCyclone
    case "FL" => Flood
    case "VO" => Volcano
    case "DR" => Drought
    case "WF" => Wildfire
    case "TS" => Tsunami
    case _ => UnknownType
  }

  /** `DisasterSeverity.fromString`: the alert colour, in any case. */
  function SeverityFromString(s: string): (v: DisasterSeverity)
    ensures v == Green <==> Upper(s) == "GREEN"
    ensures v == Orange <==> Upper(s) == "ORANGE"
    ensures v == Red <==> Upper(s) == "RED"
    ensures v == UnknownSeverity <==> Upper(s) !in {"GREEN", "ORANGE", "RED"}
  {
    match Upper(s)
    case "GREEN" => Green
    case "ORANGE" => Orange
    case "RED" => Red
    case _ => UnknownSeverity
  }

  /** Decoding ignores case: a code and its upper-cased form decode alike. */
  lemma FromStringIgnoresCase(s: string)
    ensures TypeFromString(Upper(s)) == TypeFromString(s)
    ensures SeverityFromString(Upper(s)) == SeverityFromString(s)
  {
    UpperIdempotent(s);
  }

  /** The event-type code put in the GDACS link; an unknown type is sent as "EQ". */
  function EventCode(t: DisasterType): (code: string)
    ensures |code| == 2
  {
    match t
    case Earthquake => "EQ"
    case TropicalCyclone => "TC"
    case Flood => "FL"
    case Volcano => "VO"
    case Drought => "DR"
    case Wildfire => "WF"
    case Tsunami => "TS"
    case UnknownType => "EQ"
  }

  /** Decoding the code of a known type gives that type back; the unknown
      type comes back as an earthquake. */
  lemma EventCodeRoundTrip(t: DisasterType)
    ensures t != UnknownType ==> TypeFromString(EventCode(t)) == t
    ensures t == UnknownType ==> TypeFromString(EventCode(t)) == Earthquake
  {
    assert Upper(EventCode(t)) == EventCode(t);
  }

  const GdacsReportPrefix: string := "https://www.gdacs.org/report.aspx?eventid="

  /** `getGdacsUrl`. */
  function GdacsUrl(d: Disaster): (u: string)
    ensures |u| == |GdacsReportPrefix| + |d.id| + |"&eventtype="| + 2
  {
    GdacsReportPrefix + d.id + "&eventtype=" + EventCode(d.disasterType)
  }

  /** The link carries the id right after the prefix and ends with a code that
      decodes to the disaster's type (an earthquake for an unknown type). */
  lemma GdacsUrlParts(d: Disaster)
    ensures var u := GdacsUrl(d);
      u[..|GdacsReportPrefix|] == GdacsReportPrefix &&
      u[|GdacsReportPrefix|..|GdacsReportPrefix| + |d.id|] == d.id &&
      TypeFromString(u[|u| - 2..]) == (if d.disasterType == UnknownType then Earthquake else d.disasterType)
  {
    var u := GdacsUrl(d);
    assert u[|u| - 2..] == EventCode(d.disasterType);
    EventCodeRoundTrip(d.disasterType);
  }

  /** `x as? Double ?: 0.0`. */
  function NumberOr0(v: JsonValue): real {
    if v.JNum? then v.num else 0.0
  }

  /** Position (latitude, longitude) of a point geometry: [longitude, latitude]. */
  function PointPosition(coords: seq<JsonValue>): (real, real) {
    if |coords| >= 2 then (NumberOr0(coords[1]), NumberOr0(coords[0])) else (0.0, 0.0)
  }

  /** Position of a polygon: the first point of the first ring. Reading a
      value that is not a list, or a coordinate that is not a number, throws,
      and the exception is swallowed; the longitude is assigned before the
      latitude is read. */
  function PolygonPosition(coords: seq<JsonValue>): (real, real) {
    if |coords| > 0 && coords[0].JArr? && |coords[0].items| > 0 && coords[0].items[0].JArr? then
      var p := coords[0].items[0].items;
      if |p| >= 2 && p[0].JNum? then
        (if p[1].JNum? then p[1].num else 0.0, p[0].num)
      else (0.0, 0.0)
    else (0.0, 0.0)
  }

  /** `geometry.type?.uppercase()`. */
  function GeometryKind(g: DisasterGeometry): Option<string> {
    if g.geometryType.Some? then Some(Upper(g.geometryType.value)) else None
  }

  /** What `toDisaster` builds from a feature. */
  function DisasterOf(f: DisasterFeature): Disaster {
    var g := f.geometry;
    var kind := GeometryKind(g);
    var pos := if kind == Some("POLYGON") then PolygonPosition(g.coordinates) else PointPosition(g.coordinates);
    var p := f.properties;
    Disaster(
      p.eventId.GetOr("unknown"),
      TypeFromString(p.eventType.GetOr("")),
      p.eventName.GetOr("Unknown Event"),
      SeverityFromString(p.alertLevel.GetOr("")),
      pos.0, pos.1,
      p.country.GetOr("Unknown"),
      p.fromDate.GetOr(""),
      p.description.GetOr("No description available"),
      "",
      p.alertScore.GetOr(0.0),
      g.geometryType,
      if kind == Some("POLYGON") then Some(g.coordinates) else None)
  }

  /** `toDisaster`: the `when` over the geometry kind assigns the local
      position and area, then the record is built with the defaults. */
  method ToDisaster(f: DisasterFeature) returns (d: Disaster)
    ensures d == DisasterOf(f)
  {
    var lat := 0.0;
    var lon := 0.0;
    var affectedArea: Option<seq<JsonValue>> := None;
    var coords := f.geometry.coordinates;
    var kind := GeometryKind(f.geometry);
    if kind == Some("POINT") {
      if |coords| >= 2 {
        lon := NumberOr0(coords[0]);
        lat := NumberOr0(coords[1]);
      }
    } else if kind == Some("POLYGON") {
      // the unchecked cast cannot fail, so the area is set before anything can throw
      affectedArea := Some(coords);
      if |coords| > 0 && coords[0].JArr? && |coords[0].items| > 0 && coords[0].items[0].JArr? {
        var firstPoint := coords[0].items[0].items;
        if |firstPoint| >= 2 && firstPoint[0].JNum? {
          lon := firstPoint[0].num;
          if firstPoint[1].JNum? {
            lat := firstPoint[1].num;
          }
        }
      }
    } else {
      if |coords| >= 2 {
        lon := NumberOr0(coords[0]);
        lat := NumberOr0(coords[1]);
      }
    }
    var p := f.properties;
    d := Disaster(
      p.eventId.GetOr("unknown"),
      TypeFromString(p.eventType.GetOr("")),
      p.eventName.GetOr("Unknown Event"),
      SeverityFromString(p.alertLevel.GetOr("")),
      lat, lon,
      p.country.GetOr("Unknown"),
      p.fromDate.GetOr(""),
      p.description.GetOr("No description available"),
      "",
      p.alertScore.GetOr(0.0),
      f.geometry.geometryType,
      affectedArea);
  }

  /** Missing properties take their defaults, present ones are copied; the
      URL is always empty and the geometry type is kept as given. */
  lemma DisasterDefaults(f: DisasterFeature)
    ensures var d := DisasterOf(f); var p := f.properties;
      (p.eventId.None? ==> d.id == "unknown") && (p.eventId.Some? ==> d.id == p.eventId.value) &&
      (p.eventName.None? ==> d.name == "Unknown Event") &&
      (p.country.None? ==> d.country == "Unknown") &&
      (p.fromDate.None? ==> d.date == "") &&
      (p.description.None? ==> d.description == "No description available") &&
      (p.alertScore.None? ==> d.alertScore == 0.0) &&
      (p.eventType.None? ==> d.disasterType == UnknownType) &&
      (p.alertLevel.None? ==> d.severity == UnknownSeverity) &&
      d.url == "" && d.geometryType == f.geometry.geometryType
  {
    assert Upper("") == "";
  }

  /** A point (any case) with two or more coordinates sits at
      [longitude, latitude], a non-number read as 0; with fewer it sits at
      (0, 0); a point has no affected area. */
  lemma PointRule(f: DisasterFeature)
    requires GeometryKind(f.geometry) == Some("POINT")
    ensures var d := DisasterOf(f); var c := f.geometry.coordinates;
      d.affectedArea == None &&
      (|c| >= 2 ==> d.longitude == NumberOr0(c[0]) && d.latitude == NumberOr0(c[1])) &&
      (|c| < 2 ==> d.latitude == 0.0 && d.longitude == 0.0)
  {
  }

  /** A polygon keeps its coordinates as the affected area and sits at the
      first point of its first ring when that point has two numbers, else at (0, 0). */
  lemma PolygonRule(f: DisasterFeature)
    requires GeometryKind(f.geometry) == Some("POLYGON")
    ensures var d := DisasterOf(f); var c := f.geometry.coordinates;
      d.affectedArea == Some(c) &&
      (|c| > 0 && c[0].JArr? && |c[0].items| > 0 && c[0].items[0].JArr? &&
       |c[0].items[0].items| >= 2 && c[0].items[0].items[0].JNum? && c[0].items[0].items[1].JNum?
       ==> d.longitude == c[0].items[0].items[0].num && d.latitude == c[0].items[0].items[1].num) &&
      (c == [] || !c[0].JArr? || c[0].items == [] || !c[0].items[0].JArr? || |c[0].items[0].items| < 2
       ==> d.latitude == 0.0 && d.longitude == 0.0)
  {
  }

  /** A missing or other geometry type is read like a point and has no affected area. */
  lemma OtherGeometryRule(f: DisasterFeature)
    requires GeometryKind(f.geometry) != Some("POLYGON")
    ensures var d := DisasterOf(f);
      d.affectedArea == None && (d.latitude, d.longitude) == PointPosition(f.geometry.coordinates)
  {
  }

  /** Only a polygon geometry yields an affected area. */
  lemma AffectedAreaIffPolygon(f: DisasterFeature)
    ensures DisasterOf(f).affectedArea.Some? <==> GeometryKind(f.geometry) == Some("POLYGON")
  {
  }
}
