/** The sensor platform: how the polled status blob and the record of the
    last button execution become sensor states and attributes
    (custom_components/command_runner/sensor.py). */
module Sensor {
  import opened Wrappers
  import opened Text

  // ---------------------------------------------------------------------------
  // Server status sensors
  // ---------------------------------------------------------------------------

  /** The JSON object the server reports about itself. A field is `None` when
      its key is missing; `otherKeys` counts keys no sensor reads, which still
      make the object non-empty. */
  datatype StatusData = StatusData(
    status: Option<string>,
    version: Option<string>,
    port: Option<int>,
    uptime: Option<nat>,
    totalRequests: Option<int>,
    requestsProcessing: Option<int>,
    apiKeysConfigured: Option<bool>,
    lastRequestTime: Option<int>,
    otherKeys: nat)
  {
    predicate IsEmpty() {
      && status.None? && version.None? && port.None? && uptime.None?
      && totalRequests.None? && requestsProcessing.None? && apiKeysConfigured.None?
      && lastRequestTime.None? && otherKeys == 0
    }
  }

  /** Python truthiness of the coordinator's status blob: present and non-empty. */
  predicate HasStatus(sd: Option<StatusData>) {
    sd.Some? && !sd.value.IsEmpty()
  }

  /** The status sensor: "unavailable" without a blob, else the reported status. */
  function StatusState(sd: Option<StatusData>): (r: string)
    ensures !HasStatus(sd) ==> r == "unavailable"
    ensures HasStatus(sd) && sd.value.status.Some? ==> r == sd.value.status.value
    ensures HasStatus(sd) && sd.value.status.None? ==> r == "unknown"
  {
    if HasStatus(sd) then sd.value.status.GetOr("unknown") else "unavailable"
  }

  function VersionState(sd: Option<StatusData>): (r: Option<string>)
    ensures r.Some? <==> HasStatus(sd)
    ensures r.Some? && sd.value.version.Some? ==> r.value == sd.value.version.value
    ensures r.Some? && sd.value.version.None? ==> r.value == "unknown"
  {
    if HasStatus(sd) then Some(sd.value.version.GetOr("unknown")) else None
  }

  function PortState(sd: Option<StatusData>): (r: Option<int>)
    ensures r.Some? ==> HasStatus(sd) && sd.value.port == r
    ensures HasStatus(sd) && sd.value.port.Some? ==> r == sd.value.port
  {
    if HasStatus(sd) then sd.value.port else None
  }

  function UptimeState(sd: Option<StatusData>): (r: Option<nat>)
    ensures r.Some? ==> HasStatus(sd) && sd.value.uptime == r
    ensures HasStatus(sd) && sd.value.uptime.Some? ==> r == sd.value.uptime
  {
    if HasStatus(sd) then sd.value.uptime else None
  }

  function TotalRequestsState(sd: Option<StatusData>): (r: int)
    ensures r != 0 ==> HasStatus(sd) && sd.value.totalRequests == Some(r)
    ensures HasStatus(sd) && sd.value.totalRequests.Some? ==> r == sd.value.totalRequests.value
  {
    if HasStatus(sd) then sd.value.totalRequests.GetOr(0) else 0
  }

  function ProcessingState(sd: Option<StatusData>): (r: int)
    ensures r != 0 ==> HasStatus(sd) && sd.value.requestsProcessing == Some(r)
    ensures HasStatus(sd) && sd.value.requestsProcessing.Some? ==> r == sd.value.requestsProcessing.value
  {
    if HasStatus(sd) then sd.value.requestsProcessing.GetOr(0) else 0
  }

  function ApiKeysState(sd: Option<StatusData>): (r: string)
    ensures r == "Yes" <==> HasStatus(sd) && sd.value.apiKeysConfigured == Some(true)
    ensures r == "Unknown" <==> !HasStatus(sd)
    ensures r == "Yes" || r == "No" || r == "Unknown"
  {
    if HasStatus(sd) then
      (if sd.value.apiKeysConfigured == Some(true) then "Yes" else "No")
    else "Unknown"
  }

  /** The last-request timestamp, in seconds since the epoch. */
  function LastRequestState(sd: Option<StatusData>): (r: Option<int>)
    ensures r.Some? <==> HasStatus(sd) && sd.value.lastRequestTime.Some? && sd.value.lastRequestTime.value > 0
    ensures r.Some? ==> r == sd.value.lastRequestTime
  {
    if HasStatus(sd) && sd.value.lastRequestTime.GetOr(0) > 0 then sd.value.lastRequestTime
    else None
  }

  /** The states of the eight status sensors, in the order they are registered. */
  datatype StatusSnapshot = StatusSnapshot(
    status: string,
    version: Option<string>,
    port: Option<int>,
    uptime: Option<nat>,
    totalRequests: int,
    requestsProcessing: int,
    apiKeys: string,
    lastRequest: Option<int>)

  function Snapshot(sd: Option<StatusData>): (r: StatusSnapshot)
    ensures !HasStatus(sd) ==> r.status == "unavailable" && r.totalRequests == 0 && r.apiKeys == "Unknown"
    ensures HasStatus(sd) ==> r.version.Some? && r.apiKeys != "Unknown"
  {
    StatusSnapshot(StatusState(sd), VersionState(sd), PortState(sd), UptimeState(sd),
                   TotalRequestsState(sd), ProcessingState(sd), ApiKeysState(sd),
                   LastRequestState(sd))
  }

  /** With no status blob, or an empty one, every status sensor shows its fallback. */
  lemma SnapshotWithoutStatus(sd: Option<StatusData>)
    requires !HasStatus(sd)
    ensures Snapshot(sd) ==
      StatusSnapshot("unavailable", None, None, None, 0, 0, "Unknown", None)
  {
  }

  /** With a non-empty blob, each sensor reads its own key: the status and
      version fall back to "unknown", the counters to 0, the API-key flag reads
      "Yes" exactly when it is true, and the last request appears only when it
      is a positive time. */
  lemma SnapshotWithStatus(d: StatusData)
    requires !d.IsEmpty()
    ensures var s := Snapshot(Some(d));
      && (d.status.Some? ==> s.status == d.status.value)
      && (d.status.None? ==> s.status == "unknown")
      && s.version == Some(d.version.GetOr("unknown"))
      && s.port == d.port
      && s.uptime == d.uptime
      && s.totalRequests == d.totalRequests.GetOr(0)
      && s.requestsProcessing == d.requestsProcessing.GetOr(0)
      && (s.apiKeys == "Yes" <==> d.apiKeysConfigured == Some(true))
      && (s.apiKeys != "Yes" ==> s.apiKeys == "No")
      && (s.lastRequest.Some? <==> (d.lastRequestTime.Some? && d.lastRequestTime.value > 0))
      && (s.lastRequest.Some? ==> s.lastRequest == d.lastRequestTime)
  {
  }

  /** The status sensor reads "unavailable" only without a blob, or when the
      server itself reports that status. */
  lemma StatusUnavailable(sd: Option<StatusData>)
    ensures StatusState(sd) == "unavailable" <==>
      (!HasStatus(sd) || sd.value.status == Some("unavailable"))
  {
  }

  // ---------------------------------------------------------------------------
  // Uptime, broken into days, hours and minutes
  // ---------------------------------------------------------------------------

  const SecondsPerDay := 86400
  const SecondsPerHour := 3600
  const SecondsPerMinute := 60

  datatype UptimeParts = UptimeParts(days: nat, hours: nat, minutes: nat)

  /** The whole days, hours and minutes of `parts`, in seconds. */
  function PartsSeconds(p: UptimeParts): nat {
    p.days * SecondsPerDay + p.hours * SecondsPerHour + p.minutes * SecondsPerMinute
  }

  /** `parts` is the normal form of `uptime` seconds: hours below a day,
      minutes below an hour, and less than a minute left over. */
  predicate Normalizes(p: UptimeParts, uptime: nat) {
    p.hours < 24 && p.minutes < 60 &&
    PartsSeconds(p) <= uptime < PartsSeconds(p) + SecondsPerMinute
  }

  /** The integer-division breakdown the uptime sensor performs. */
  function Breakdown(uptime: nat): (p: UptimeParts)
    ensures Normalizes(p, uptime)
  {
    var days := uptime / SecondsPerDay;
    var hours := (uptime % SecondsPerDay) / SecondsPerHour;
    var minutes := (uptime % SecondsPerHour) / SecondsPerMinute;
    var rest := uptime % SecondsPerDay;
    assert uptime == days * SecondsPerDay + rest;
    assert rest == hours * SecondsPerHour + rest % SecondsPerHour;
    assert uptime % SecondsPerHour == rest % SecondsPerHour by {
      assert uptime == (days * 24 + hours) * SecondsPerHour + rest % SecondsPerHour;
    }
    UptimeParts(days, hours, minutes)
  }

  /** The normal form is unique, so `Breakdown` is the only way to split an uptime. */
  lemma BreakdownUnique(p: UptimeParts, uptime: nat)
    requires Normalizes(p, uptime)
    ensures p == Breakdown(uptime)
  {
    var below := p.minutes * SecondsPerMinute + (uptime - PartsSeconds(p));
    var rest := p.hours * SecondsPerHour + below;
    DivDay(uptime, p.days, rest);
    DivHour(rest, p.hours, below);
    DivHour(uptime, p.days * 24 + p.hours, below);
    DivMinute(below, p.minutes, uptime - PartsSeconds(p));
  }

  lemma DivDay(u: int, q: int, r: int)
    requires 0 <= r < SecondsPerDay && u == q * SecondsPerDay + r
    ensures u / SecondsPerDay == q && u % SecondsPerDay == r
  {
  }

  lemma DivHour(u: int, q: int, r: int)
    requires 0 <= r < SecondsPerHour && u == q * SecondsPerHour + r
    ensures u / SecondsPerHour == q && u % SecondsPerHour == r
  {
  }

  lemma DivMinute(u: int, q: int, r: int)
    requires 0 <= r < SecondsPerMinute && u == q * SecondsPerMinute + r
    ensures u / SecondsPerMinute == q && u % SecondsPerMinute == r
  {
  }

  /** The text of the `uptime_formatted` attribute: `<d>d <h>h <m>m`. */
  function FormatUptime(p: UptimeParts): (r: string)
    ensures ParseUptime(r) == Some(p)
  {
    var t := NatToString(p.days) + "d " + NatToString(p.hours) + "h " + NatToString(p.minutes) + "m";
    UptimeTextParses(t, p);
    t
  }

  /** Reads a decimal number followed by `suffix`, returning the number and what follows. */
  function ParseField(s: string, suffix: string): Option<(nat, string)> {
    var k := SpanDigits(s);
    if ParseNat(s[..k]).Some? && StartsWith(s[k..], suffix) then
      Some((ParseNat(s[..k]).value, s[k + |suffix|..]))
    else None
  }

  /** Reads an `uptime_formatted` text back into its parts. */
  function ParseUptime(s: string): Option<UptimeParts> {
    match ParseField(s, "d ")
    case None => None
    case Some((d, r1)) =>
      match ParseField(r1, "h ")
      case None => None
      case Some((h, r2)) =>
        match ParseField(r2, "m")
        case None => None
        case Some((m, r3)) => if r3 == "" then Some(UptimeParts(d, h, m)) else None
  }

  lemma ParseFieldOfRendering(n: nat, suffix: string, rest: string)
    requires |suffix| > 0 && !IsDigit(suffix[0])
    ensures ParseField(NatToString(n) + suffix + rest, suffix) == Some((n, rest))
  {
    var ds := NatToString(n);
    var s := ds + suffix + rest;
    assert s == ds + (suffix + rest);
    SpanDigitsOfDigitsThen(ds, suffix + rest);
    assert s[..|ds|] == ds;
    assert s[|ds|..] == suffix + rest;
    assert (suffix + rest)[..|suffix|] == suffix;
    assert s[|ds| + |suffix|..] == rest;
    NatToStringRoundTrip(n);
  }

  /** A field reads back only from the rendering of its number followed by `suffix`. */
  lemma ParseFieldCanonical(s: string, suffix: string)
    requires ParseField(s, suffix).Some?
    ensures s == NatToString(ParseField(s, suffix).value.0) + suffix + ParseField(s, suffix).value.1
  {
    var k := SpanDigits(s);
    ParseNatCanonical(s[..k]);
    assert s[k..] == suffix + s[k + |suffix|..];
    assert s == s[..k] + s[k..];
  }

  /** Only the `<d>d <h>h <m>m` text of the parts it returns reads back, so
      parsing is the exact inverse of `FormatUptime`. */
  lemma ParseUptimeCanonical(t: string, p: UptimeParts)
    requires ParseUptime(t) == Some(p)
    ensures t == NatToString(p.days) + "d " + NatToString(p.hours) + "h " + NatToString(p.minutes) + "m"
  {
    var f1 := ParseField(t, "d ").value;
    ParseFieldCanonical(t, "d ");
    var f2 := ParseField(f1.1, "h ").value;
    ParseFieldCanonical(f1.1, "h ");
    var f3 := ParseField(f2.1, "m").value;
    ParseFieldCanonical(f2.1, "m");
    assert f3.1 == "" && p == UptimeParts(f1.0, f2.0, f3.0);
    var m := NatToString(p.minutes) + "m";
    assert f2.1 == m;
    var hm := NatToString(p.hours) + "h " + m;
    assert f1.1 == hm;
    assert t == NatToString(p.days) + "d " + hm;
    UptimeTextGrouping(NatToString(p.days), NatToString(p.hours), NatToString(p.minutes));
  }

  lemma UptimeTextGrouping(d: string, h: string, m: string)
    ensures d + "d " + (h + "h " + (m + "m")) == d + "d " + h + "h " + m + "m"
  {
  }


  /** The three fields of the uptime text read back as the parts they render. */
  lemma UptimeTextParses(t: string, p: UptimeParts)
    requires t == NatToString(p.days) + "d " + NatToString(p.hours) + "h " + NatToString(p.minutes) + "m"
    ensures ParseUptime(t) == Some(p)
  {
    var m := NatToString(p.minutes) + "m";
    var hm := NatToString(p.hours) + "h " + m;
    UptimeTextGrouping(NatToString(p.days), NatToString(p.hours), NatToString(p.minutes));
    ParseFieldOfRendering(p.days, "d ", hm);
    ParseFieldOfRendering(p.hours, "h ", m);
    assert m == NatToString(p.minutes) + "m" + "";
    ParseFieldOfRendering(p.minutes, "m", "");
  }

  /** The `uptime_formatted` attribute of the uptime sensor; `None` stands for
      the empty attribute dictionary. */
  function UptimeAttribute(sd: Option<StatusData>): (r: Option<string>)
    ensures r.Some? <==> HasStatus(sd) && sd.value.uptime.Some? && sd.value.uptime.value > 0
    ensures r.Some? ==> exists p :: Normalizes(p, sd.value.uptime.value) && r.value == FormatUptime(p)
  {
    if HasStatus(sd) && sd.value.uptime.Some? && sd.value.uptime.value != 0 then
      Some(FormatUptime(Breakdown(sd.value.uptime.value)))
    else None
  }

  /** Whatever the attribute says can be read back into the normal form of
      the reported uptime. */
  lemma UptimeAttributeReadsBack(sd: Option<StatusData>)
    requires UptimeAttribute(sd).Some?
    ensures var p := ParseUptime(UptimeAttribute(sd).value);
      && p.Some?
      && Normalizes(p.value, sd.value.uptime.value)
  {
  }

  // ---------------------------------------------------------------------------
  // Last execution sensors
  // ---------------------------------------------------------------------------

  /** The coordinator's record of the last button press. */
  datatype LastExecution = LastExecution(
    commandName: Option<string>,
    status: Option<string>,
    output: Option<string>,
    error: Option<string>,
    exitCode: Option<int>)

  /** The name sensor: the last command's name, or "None" when it is missing or empty. */
  function LastCommandNameState(le: LastExecution): (r: string)
    ensures r != ""
    ensures Present(le.commandName) ==> r == le.commandName.value
    ensures !Present(le.commandName) ==> r == "None"
  {
    if Present(le.commandName) then le.commandName.value else "None"
  }

  /** The status sensor: the last status itself, or "Unknown" when it is missing or empty. */
  function LastCommandStatusState(le: LastExecution): (r: string)
    ensures r != ""
    ensures Present(le.status) ==> r == le.status.value
    ensures !Present(le.status) ==> r == "Unknown"
  {
    if Present(le.status) then le.status.value else "Unknown"
  }

  /** The status sensor's icon, chosen from the raw status. */
  function StatusIcon(le: LastExecution): (r: string)
    ensures r == "mdi:check-circle" <==> le.status == Some("Success")
    ensures r == "mdi:close-circle" <==> le.status == Some("Failed")
    ensures r == "mdi:help-circle" <==> le.status != Some("Success") && le.status != Some("Failed")
  {
    if le.status == Some("Success") then "mdi:check-circle"
    else if le.status == Some("Failed") then "mdi:close-circle"
    else "mdi:help-circle"
  }

  /** The name sensor shows the last command's name, or "None" when there is none. */
  lemma LastCommandNameDisplay(le: LastExecution)
    ensures LastCommandNameState(le) != ""
    ensures LastCommandNameState(le) == "None" <==>
      (!Present(le.commandName) || le.commandName == Some("None"))
    ensures Present(le.commandName) ==> LastCommandNameState(le) == le.commandName.value
  {
  }

  /** The status sensor shows the status itself, "Unknown" when there is
      none, and picks its icon from the same status. */
  lemma LastCommandStatusDisplay(le: LastExecution)
    ensures Present(le.status) ==> LastCommandStatusState(le) == le.status.value
    ensures LastCommandStatusState(le) == "Unknown" <==>
      (!Present(le.status) || le.status == Some("Unknown"))
    ensures StatusIcon(le) == "mdi:check-circle" <==> LastCommandStatusState(le) == "Success"
    ensures StatusIcon(le) == "mdi:close-circle" <==> LastCommandStatusState(le) == "Failed"
    ensures StatusIcon(le) == "mdi:help-circle" <==>
      LastCommandStatusState(le) != "Success" && LastCommandStatusState(le) != "Failed"
  {
  }

  /** Home Assistant's limit on the length of a state. */
  const StateLimit := 255

  function Truncate(s: string): (r: string)
    ensures |r| == Min(|s|, StateLimit)
    ensures r == s[..|r|]
  {
    if |s| > StateLimit then s[..StateLimit] else s
  }

  function OutputState(le: LastExecution): (r: string)
    ensures |r| <= StateLimit
    ensures r != ""
  {
    if le.status == Some("Success") then
      if Present(le.output) then Truncate(le.output.value) else "No output"
    else if le.status == Some("Failed") then
      if Present(le.error) then Truncate(le.error.value) else "Unknown error"
    else "None"
  }

  /** The attributes of the output sensor; `None` when none of them applies. */
  datatype OutputAttributes = OutputAttributes(
    exitCode: Option<int>,
    fullOutput: Option<string>,
    fullError: Option<string>)

  /** The text `Truncate` would cut short, if any. */
  function Overflow(o: Option<string>): Option<string> {
    if Present(o) && |o.value| > StateLimit then o else None
  }

  function OutputAttrs(le: LastExecution): (r: Option<OutputAttributes>)
    ensures r.None? <==>
      && le.exitCode.None?
      && !(le.status == Some("Success") && Overflow(le.output).Some?)
      && !(le.status == Some("Failed") && Overflow(le.error).Some?)
  {
    var full := if le.status == Some("Success") then Overflow(le.output) else None;
    var fullErr := if le.status == Some("Failed") then Overflow(le.error) else None;
    if le.exitCode.None? && full.None? && fullErr.None? then None
    else Some(OutputAttributes(le.exitCode, full, fullErr))
  }

  /** The output sensor's state for a successful run, with and without output. */
  lemma SuccessOutputState(le: LastExecution)
    requires le.status == Some("Success")
    ensures Present(le.output) ==>
      var o := le.output.value;
      && StartsWith(o, OutputState(le))
      && |OutputState(le)| == Min(|o|, StateLimit)
      && (|o| <= StateLimit ==> OutputState(le) == o)
    ensures !Present(le.output) ==> OutputState(le) == "No output"
  {
  }

  /** The same for a failed run, reading the error text instead. */
  lemma FailedOutputState(le: LastExecution)
    requires le.status == Some("Failed")
    ensures Present(le.error) ==>
      var e := le.error.value;
      && StartsWith(e, OutputState(le))
      && |OutputState(le)| == Min(|e|, StateLimit)
      && (|e| <= StateLimit ==> OutputState(le) == e)
    ensures !Present(le.error) ==> OutputState(le) == "Unknown error"
  {
  }

  /** Without a known status the output sensor reads "None" and keeps no text. */
  lemma OtherOutputState(le: LastExecution)
    requires le.status != Some("Success") && le.status != Some("Failed")
    ensures OutputState(le) == "None"
    ensures OutputAttrs(le).Some? ==> OutputAttrs(le).value == OutputAttributes(le.exitCode, None, None)
  {
  }

  /** `full_output` is kept exactly when a successful run's output was
      truncated, and `full_error` exactly when a failed run's error was;
      `exit_code` is kept whenever there is one. */
  lemma FullTextKept(le: LastExecution)
    ensures var a := OutputAttrs(le);
      && ((a.Some? && a.value.fullOutput.Some?) <==>
            (le.status == Some("Success") && le.output.Some? && |le.output.value| > StateLimit))
      && ((a.Some? && a.value.fullError.Some?) <==>
            (le.status == Some("Failed") && le.error.Some? && |le.error.value| > StateLimit))
      && (a.Some? && a.value.fullOutput.Some? ==> a.value.fullOutput == le.output)
      && (a.Some? && a.value.fullError.Some? ==> a.value.fullError == le.error)
      && ((a.Some? && a.value.exitCode.Some?) <==> le.exitCode.Some?)
      && (a.Some? ==> a.value.exitCode == le.exitCode)
  {
  }

  /** What a reader of the sensor sees as the whole text: the full attribute
      when present, else the state. */
  function ShownText(state: string, attrs: Option<OutputAttributes>): string {
    if attrs.Some? && attrs.value.fullOutput.Some? then attrs.value.fullOutput.value
    else if attrs.Some? && attrs.value.fullError.Some? then attrs.value.fullError.value
    else state
  }

  /** Truncation never loses text: the state and its attributes together
      give back the whole output of a successful run or the whole error of a
      failed one. */
  lemma FullTextRecoverable(le: LastExecution)
    ensures le.status == Some("Success") && Present(le.output) ==>
      ShownText(OutputState(le), OutputAttrs(le)) == le.output.value
    ensures le.status == Some("Failed") && Present(le.error) ==>
      ShownText(OutputState(le), OutputAttrs(le)) == le.error.value
  {
  }
}
