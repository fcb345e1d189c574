/**
 * The field-report records: the `FieldReport` and `ReportUpdate` rows, the
 * four enums with their display names, and the Room converters that store
 * an enum as its constant name and read it back with `valueOf`.
 */
module FieldReports {
  import opened Wrappers

  datatype ReportCategory =
    | DamageAssessment | MedicalNeed | SupplyRequest | HazardAlert | Evacuation
    | Shelter | WaterSource | Infrastructure | Other
  {
    /** The Kotlin constant name, which Room stores. */
    function Name(): string {
      match this
      case DamageAssessment => "DAMAGE_ASSESSMENT"
      case MedicalNeed => "MEDICAL_NEED"
      case SupplyRequest => "SUPPLY_REQUEST"
      case HazardAlert => "HAZARD_ALERT"
      case Evacuation => "EVACUATION"
      case Shelter => "SHELTER"
      case WaterSource => "WATER_SOURCE"
      case Infrastructure => "INFRASTRUCTURE"
      case Other => "OTHER"
    }

    function DisplayName(): string {
      match this
      case DamageAssessment => "Damage Assessment"
      case MedicalNeed => "Medical Need"
      case SupplyRequest => "Supply Request"
      case HazardAlert => "Hazard Alert"
      case Evacuation => "Evacuation Point"
      case Shelter => "Shelter"
      case WaterSource => "Water Source"
      case Infrastructure => "Infrastructure"
      case Other => "Other"
    }

    function Icon(): string {
      match this
      case DamageAssessment => "\U{1F3DA}\U{FE0F}"
      case MedicalNeed => "\U{1F3E5}"
      case SupplyRequest => "\U{1F4E6}"
      case HazardAlert => "\U{26A0}\U{FE0F}"
      case Evacuation => "\U{1F6B6}"
      case Shelter => "\U{1F3E0}"
      case WaterSource => "\U{1F4A7}"
      case Infrastructure => "\U{1F6E3}\U{FE0F}"
      case Other => "\U{1F4CD}"
    }
  }

  datatype ReportSeverity = Critical | High | Medium | Low | Info {
    function Name(): string {
      match this
      case Critical => "CRITICAL"
      case High => "HIGH"
      case Medium => "MEDIUM"
      case Low => "LOW"
      case Info => "INFO"
    }

    function DisplayName(): string {
      match this
      case Critical => "Critical"
      case High => "High"
      case Medium => "Medium"
      case Low => "Low"
      case Info => "Info"
    }
  }

  datatype ReportStatus = New | Assessed | InProgress | NeedsSupplies | Resolved | Closed {
    function Name(): string {
      match this
      case New => "NEW"
      case Assessed => "ASSESSED"
      case InProgress => "IN_PROGRESS"
      case NeedsSupplies => "NEEDS_SUPPLIES"
      case Resolved => "RESOLVED"
      case Closed => "CLOSED"
    }

    function DisplayName(): string {
      match this
      case New => "New"
      case Assessed => "Assessed"
      case InProgress => "In Progress"
      case NeedsSupplies => "Needs Supplies"
      case Resolved => "Resolved"
      case Closed => "Closed"
    }
  }

  datatype UpdateType = Note | StatusChange | Photo | Action | Edit {
    function Name(): string {
      match this
      case Note => "NOTE"
      case StatusChange => "STATUS_CHANGE"
      case Photo => "PHOTO"
      case Action => "ACTION"
      case Edit => "EDIT"
    }

    function DisplayName(): string {
      match this
      case Note => "Note"
      case StatusChange => "Status Changed"
      case Photo => "Photo Added"
      case Action => "Action Taken"
      case Edit => "Report Edited"
    }
  }

  /** One row of the `field_reports` table; coordinates are kept as opaque reals. */
  datatype FieldReport = FieldReport(
    localId: string,
    serverId: Option<string>,
    latitude: real,
    longitude: real,
    category: ReportCategory,
    severity: ReportSeverity,
    status: ReportStatus,
    title: string,
    description: string,
    photoUris: seq<string>,
    timestamp: int,
    lastUpdated: int,
    isSynced: bool,
    userId: Option<string>)

  /** One row of the `report_updates` table. */
  datatype ReportUpdate = ReportUpdate(
    id: string,
    reportId: string,
    updateType: UpdateType,
    text: string,
    newStatus: Option<ReportStatus>,
    photoUris: seq<string>,
    timestamp: int,
    userId: Option<string>)

  /** The primary constructor called with only the required arguments, so
      that every defaulted parameter takes its default. */
  function NewFieldReport(localId: string, latitude: real, longitude: real,
                          category: ReportCategory, severity: ReportSeverity,
                          title: string, description: string,
                          photoUris: seq<string>, timestamp: int): (r: FieldReport)
    ensures r.status == New && r.lastUpdated == timestamp && !r.isSynced
    ensures r.serverId == None && r.userId == None
    ensures r.localId == localId && r.category == category && r.severity == severity
    ensures r.title == title && r.description == description
    ensures r.photoUris == photoUris && r.timestamp == timestamp
    ensures r.latitude == latitude && r.longitude == longitude
  {
    FieldReport(localId, None, latitude, longitude, category, severity, New,
                title, description, photoUris, timestamp, timestamp, false, None)
  }

  /** Whether a report still has to be synced. */
  function IsUnsynced(): FieldReport -> bool {
    (r: FieldReport) => !r.isSynced
  }

  /** `ReportUpdate(...)` with `userId` left at its default; the `id` and
      `timestamp` defaults (a random UUID, the clock) are passed in. */
  function NewReportUpdate(id: string, reportId: string, updateType: UpdateType, text: string,
                           newStatus: Option<ReportStatus>, photoUris: seq<string>,
                           timestamp: int): (u: ReportUpdate)
    ensures u.userId == None
    ensures u.id == id && u.reportId == reportId && u.updateType == updateType
    ensures u.text == text && u.newStatus == newStatus && u.photoUris == photoUris
    ensures u.timestamp == timestamp
  {
    ReportUpdate(id, reportId, updateType, text, newStatus, photoUris, timestamp, None)
  }

  // Room type converters. `toX` is `X.valueOf`, which throws
  // IllegalArgumentException on a string that names no constant: None here.

  function FromReportCategory(c: ReportCategory): (s: string)
    ensures ToReportCategory(s) == Some(c)
  {
    c.Name()
  }

  function ToReportCategory(s: string): (r: Option<ReportCategory>)
    ensures forall c :: r == Some(c) <==> s == c.Name()
  {
    if s == "DAMAGE_ASSESSMENT" then Some(DamageAssessment)
    else if s == "MEDICAL_NEED" then Some(MedicalNeed)
    else if s == "SUPPLY_REQUEST" then Some(SupplyRequest)
    else if s == "HAZARD_ALERT" then Some(HazardAlert)
    else if s == "EVACUATION" then Some(Evacuation)
    else if s == "SHELTER" then Some(Shelter)
    else if s == "WATER_SOURCE" then Some(WaterSource)
    else if s == "INFRASTRUCTURE" then Some(Infrastructure)
    else if s == "OTHER" then Some(Other)
    else None
  }

  function FromReportSeverity(v: ReportSeverity): (s: string)
    ensures ToReportSeverity(s) == Some(v)
  {
    v.Name()
  }

  function ToReportSeverity(s: string): (r: Option<ReportSeverity>)
    ensures forall v :: r == Some(v) <==> s == v.Name()
  {
    if s == "CRITICAL" then Some(Critical)
    else if s == "HIGH" then Some(High)
    else if s == "MEDIUM" then Some(Medium)
    else if s == "LOW" then Some(Low)
    else if s == "INFO" then Some(Info)
    else None
  }

  function FromReportStatus(v: ReportStatus): (s: string)
    ensures ToReportStatus(s) == Some(v)
  {
    v.Name()
  }

  function ToReportStatus(s: string): (r: Option<ReportStatus>)
    ensures forall v :: r == Some(v) <==> s == v.Name()
  {
    if s == "NEW" then Some(New)
    else if s == "ASSESSED" then Some(Assessed)
    else if s == "IN_PROGRESS" then Some(InProgress)
    else if s == "NEEDS_SUPPLIES" then Some(NeedsSupplies)
    else if s == "RESOLVED" then Some(Resolved)
    else if s == "CLOSED" then Some(Closed)
    else None
  }

  function FromUpdateType(v: UpdateType): (s: string)
    ensures ToUpdateType(s) == Some(v)
  {
    v.Name()
  }

  function ToUpdateType(s: string): (r: Option<UpdateType>)
    ensures forall v :: r == Some(v) <==> s == v.Name()
  {
    if s == "NOTE" then Some(Note)
    else if s == "STATUS_CHANGE" then Some(StatusChange)
    else if s == "PHOTO" then Some(Photo)
    else if s == "ACTION" then Some(Action)
    else if s == "EDIT" then Some(Edit)
    else None
  }

  /** Storing a category and reading it back gives the same category, and
      distinct categories are stored as distinct strings. */
  lemma CategoryRoundTrip(c: ReportCategory, d: ReportCategory)
    ensures ToReportCategory(FromReportCategory(c)) == Some(c)
    ensures c != d ==> FromReportCategory(c) != FromReportCategory(d)
  {
    assert ToReportCategory(FromReportCategory(d)) == Some(d);
  }

  lemma SeverityRoundTrip(v: ReportSeverity, w: ReportSeverity)
    ensures ToReportSeverity(FromReportSeverity(v)) == Some(v)
    ensures v != w ==> FromReportSeverity(v) != FromReportSeverity(w)
  {
    assert ToReportSeverity(FromReportSeverity(w)) == Some(w);
  }

  lemma StatusRoundTrip(v: ReportStatus, w: ReportStatus)
    ensures ToReportStatus(FromReportStatus(v)) == Some(v)
    ensures v != w ==> FromReportStatus(v) != FromReportStatus(w)
  {
    assert ToReportStatus(FromReportStatus(w)) == Some(w);
  }

  lemma UpdateTypeRoundTrip(v: UpdateType, w: UpdateType)
    ensures ToUpdateType(FromUpdateType(v)) == Some(v)
    ensures v != w ==> FromUpdateType(v) != FromUpdateType(w)
  {
    assert ToUpdateType(FromUpdateType(w)) == Some(w);
  }
}
