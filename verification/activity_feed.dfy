/** The activity feed component: the border class chosen by severity, the
    icon chosen by activity type, the opacity of read entries, and one
    rendered entry per activity. */
module ActivityFeed {
  import opened Wrappers

  datatype ActivityType = Alert | Notification | Update | Optimization

  datatype Severity = Low | Medium | High | Critical

  /** `severity` and `read` are optional properties of the source record. */
  datatype Activity = Activity(
    id: string,
    kind: ActivityType,
    message: string,
    timestamp: string,
    severity: Option<Severity>,
    read: Option<bool>)

  datatype Icon = AlertCircle | AlertTriangle | Bell | Info | CheckCircle

  /** An icon together with its colour class. */
  datatype IconSpec = IconSpec(icon: Icon, tint: string)

  const GrayBorder: string := "border-l-gray-400"

  /** `getSeverityClass`: one border class per severity, gray when the
      severity is missing. */
  function SeverityClass(severity: Option<Severity>): (c: string)
    ensures c == GrayBorder <==> severity.None?
  {
    match severity
    case Some(Critical) => "border-l-honeywell-red"
    case Some(High) => "border-l-honeywell-amber"
    case Some(Medium) => "border-l-yellow-400"
    case Some(Low) => "border-l-honeywell-blue"
    case None => GrayBorder
  }

  /** Different severities (including a missing one) never share a border
      class. */
  lemma SeverityClassInjective(a: Option<Severity>, b: Option<Severity>)
    requires SeverityClass(a) == SeverityClass(b)
    ensures a == b
  {
  }

  /** `getActivityIcon`: alerts are graded by severity; the other types
      each have a fixed icon. */
  function ActivityIcon(kind: ActivityType, severity: Option<Severity>): (r: IconSpec)
    ensures kind == Alert ==>
      (r.icon == AlertCircle <==> severity == Some(Critical))
    ensures kind == Alert && severity == Some(Critical) ==>
      r == IconSpec(AlertCircle, "text-honeywell-red")
    ensures kind == Alert && severity == Some(High) ==>
      r == IconSpec(AlertTriangle, "text-honeywell-amber")
    ensures kind == Alert && severity != Some(High) && severity != Some(Critical) ==>
      r == IconSpec(AlertTriangle, "text-yellow-400")
    ensures kind == Notification ==> r == IconSpec(Bell, "text-honeywell-blue")
    ensures kind == Update ==> r == IconSpec(Info, "text-honeywell-blue")
    ensures kind == Optimization ==> r == IconSpec(CheckCircle, "text-honeywell-green")
  {
    match kind
    case Alert =>
      if severity == Some(Critical) then IconSpec(AlertCircle, "text-honeywell-red")
      else if severity == Some(High) then IconSpec(AlertTriangle, "text-honeywell-amber")
      else IconSpec(AlertTriangle, "text-yellow-400")
    case Notification => IconSpec(Bell, "text-honeywell-blue")
    case Update => IconSpec(Info, "text-honeywell-blue")
    case Optimization => IconSpec(CheckCircle, "text-honeywell-green")
  }

  /** Only alerts look at the severity. */
  lemma IconIgnoresSeverity(kind: ActivityType, s1: Option<Severity>, s2: Option<Severity>)
    requires kind != Alert
    ensures ActivityIcon(kind, s1) == ActivityIcon(kind, s2)
  {
  }

  /** `activity.read ? "opacity-60" : "opacity-100"`; a missing flag is
      falsy. */
  function ReadOpacity(read: Option<bool>): (c: string)
    ensures c == "opacity-60" <==> read == Some(true)
    ensures c == "opacity-100" <==> read != Some(true)
  {
    if read == Some(true) then "opacity-60" else "opacity-100"
  }

  /** What is rendered for one activity. */
  datatype Entry = Entry(
    key: string,
    border: string,
    opacity: string,
    icon: IconSpec,
    message: string,
    timestamp: string)

  function RenderEntry(a: Activity): Entry {
    Entry(a.id, SeverityClass(a.severity), ReadOpacity(a.read),
          ActivityIcon(a.kind, a.severity), a.message, a.timestamp)
  }

  /** `activities.map(...)`: one entry per activity, in input order, keyed
      by the activity's id and showing its message. */
  function RenderFeed(activities: seq<Activity>): (r: seq<Entry>)
    ensures |r| == |activities|
    ensures forall i :: 0 <= i < |r| ==>
      r[i].key == activities[i].id && r[i].message == activities[i].message
    ensures forall i :: 0 <= i < |r| ==>
      && r[i].border == SeverityClass(activities[i].severity)
      && r[i].opacity == ReadOpacity(activities[i].read)
      && r[i].icon == ActivityIcon(activities[i].kind, activities[i].severity)
      && r[i].timestamp == activities[i].timestamp
  {
    if activities == [] then []
    else [RenderEntry(activities[0])] + RenderFeed(activities[1..])
  }

  /** Each activity renders on its own: the feed of two lists put together
      is the two feeds put together, so a slice of the list renders as the
      same slice of the feed. */
  lemma RenderFeedAppend(a: seq<Activity>, b: seq<Activity>)
    ensures RenderFeed(a + b) == RenderFeed(a) + RenderFeed(b)
  {
  }
}
