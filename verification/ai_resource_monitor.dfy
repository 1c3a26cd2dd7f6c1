/** The usage monitor panel (src/components/ui/AIResourceMonitor.tsx): the severity
    colour and icon it derives from a usage snapshot, which warnings it shows, the
    width of the active-request bar, and the cost and reset-time labels. */
module AIResourceMonitor {
  import opened Util
  import opened AITypes

  const HighUsagePerMinute := 40
  const CriticalPerMinute := 50
  const BarFullAt := 5

  /** The panel's border colour, by severity. */
  datatype UsageColor = RedUsage | YellowUsage | BlueUsage | GrayUsage

  function UsageColorClass(c: UsageColor): string {
    match c
    case RedUsage => "border-red-500 bg-red-900/20"
    case YellowUsage => "border-yellow-500 bg-yellow-900/20"
    case BlueUsage => "border-blue-500 bg-blue-900/20"
    case GrayUsage => "border-gray-600 bg-gray-900/20"
  }

  /** `getUsageColor()`: rate limiting wins, then high per-minute usage, then active
      requests; otherwise gray. */
  function GetUsageColor(u: AIResourceUsage): (r: UsageColor)
    ensures r == RedUsage <==> u.rateLimitReached
    ensures r == YellowUsage <==> !u.rateLimitReached && u.requestsPerMinute > 40
    ensures r == BlueUsage <==> !u.rateLimitReached && u.requestsPerMinute <= 40 && u.currentRequests > 0
    ensures r == GrayUsage <==> !u.rateLimitReached && u.requestsPerMinute <= 40 && u.currentRequests == 0
  {
    if u.rateLimitReached then RedUsage
    else if u.requestsPerMinute > HighUsagePerMinute then YellowUsage
    else if u.currentRequests > 0 then BlueUsage
    else GrayUsage
  }

  datatype StatusIcon = Blocked | Busy | Idle

  function StatusIconText(i: StatusIcon): string {
    match i
    case Blocked => "\U{1F6AB}"
    case Busy => "\U{26A1}"
    case Idle => "\U{1F916}"
  }

  /** `getStatusIcon()`: rate limiting wins over active requests, which win over
      idle. */
  function GetStatusIcon(u: AIResourceUsage): (r: StatusIcon)
    ensures r == Blocked <==> u.rateLimitReached
    ensures r == Busy <==> !u.rateLimitReached && u.currentRequests > 0
    ensures r == Idle <==> !u.rateLimitReached && u.currentRequests == 0
  {
    if u.rateLimitReached then Blocked
    else if u.currentRequests > 0 then Busy
    else Idle
  }

  /** Colour and icon agree: red exactly with the blocked icon, blue and gray exactly
      split by the icon, and yellow shows whichever icon the active count calls for. */
  lemma ColorAndIconAgree(u: AIResourceUsage)
    ensures GetUsageColor(u) == RedUsage <==> GetStatusIcon(u) == Blocked
    ensures GetUsageColor(u) == BlueUsage ==> GetStatusIcon(u) == Busy
    ensures GetUsageColor(u) == GrayUsage ==> GetStatusIcon(u) == Idle
    ensures GetStatusIcon(u) == Idle ==> GetUsageColor(u) in {GrayUsage, YellowUsage}
  {
  }

  /** The rate-limit warning: shown exactly when the panel is red and shows the blocked
      icon. */
  function ShowsRateLimitWarning(u: AIResourceUsage): (r: bool)
    ensures r <==> GetUsageColor(u) == RedUsage
    ensures r <==> GetStatusIcon(u) == Blocked
  {
    u.rateLimitReached
  }

  /** The high-usage warning: shown exactly when the panel is yellow. */
  function ShowsHighUsageWarning(u: AIResourceUsage): (r: bool)
    ensures r <==> GetUsageColor(u) == YellowUsage
  {
    u.requestsPerMinute > HighUsagePerMinute && !u.rateLimitReached
  }

  /** The per-minute count is shown in red above 50, which is above the high-usage
      threshold, so the panel is then red or yellow. */
  function PerMinuteInRed(u: AIResourceUsage): (r: bool)
    ensures r ==> GetUsageColor(u) in {RedUsage, YellowUsage}
  {
    u.requestsPerMinute > CriticalPerMinute
  }

  /** The two warnings never show together; the high-usage one shows exactly when the
      panel is yellow, and a red per-minute count always comes with one of them. */
  lemma WarningsExclusive(u: AIResourceUsage)
    ensures !(ShowsRateLimitWarning(u) && ShowsHighUsageWarning(u))
    ensures ShowsHighUsageWarning(u) <==> GetUsageColor(u) == YellowUsage
    ensures PerMinuteInRed(u) ==> ShowsRateLimitWarning(u) || ShowsHighUsageWarning(u)
  {
  }

  /** The reset time under the rate-limit warning: a missing or zero time is
      unknown. */
  datatype ResetLabel = ResetUnknown | ResetAt(time: int)

  function GetResetLabel(resetTime: Option<int>): (r: ResetLabel)
    ensures r.ResetUnknown? <==> resetTime.None? || resetTime.value == 0
    ensures r.ResetAt? ==> r.time == resetTime.value
  {
    if resetTime.Some? && resetTime.value != 0 then ResetAt(resetTime.value) else ResetUnknown
  }

  /** The activity dots and the active-request bar appear while requests are
      active. */
  function ShowsActivity(u: AIResourceUsage): (r: bool)
    ensures r <==> BarWidth(u.currentRequests) > 0.0
    ensures !u.rateLimitReached ==> (r <==> GetStatusIcon(u) == Busy)
  {
    u.currentRequests > 0
  }

  /** `Math.min(100, (currentRequests / 5) * 100)`, a percentage. */
  function BarWidth(currentRequests: nat): (r: real)
    ensures 0.0 <= r <= 100.0
    ensures r == 100.0 <==> currentRequests >= 5
    ensures currentRequests < 5 ==> r == (currentRequests as real) * 20.0
    ensures currentRequests > 0 ==> r > 0.0
  {
    var w := (currentRequests as real) / (BarFullAt as real) * 100.0;
    if w < 100.0 then w else 100.0
  }

  /** More active requests never make the bar narrower. */
  lemma BarWidthMonotone(a: nat, b: nat)
    requires a <= b
    ensures BarWidth(a) <= BarWidth(b)
  {
  }

  /** The cost label: below a cent it is a fixed text; otherwise the cost printed to
      three decimals, whose formatting is not modelled. */
  datatype CostLabel = BelowOneCent | Dollars(cost: real)

  const BelowOneCentText := "<$0.01"

  function FormatCost(cost: real): (r: CostLabel)
    ensures r.BelowOneCent? <==> cost < 0.01
    ensures r.Dollars? ==> r.cost == cost && cost >= 0.01
  {
    if cost < 0.01 then BelowOneCent else Dollars(cost)
  }
}
