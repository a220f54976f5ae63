/** The configuration flow: probing the server with the user's settings,
    turning the outcome into a form error or a new entry, reconfiguring an
    entry, and the options form (custom_components/command_runner/config_flow.py). */
module ConfigFlow {
  import opened Wrappers
  import opened Text
  import Button

  // ---------------------------------------------------------------------------
  // The probe request
  // ---------------------------------------------------------------------------

  /** What the user enters; the form's schema makes all three fields required. */
  datatype UserInput = UserInput(host: string, port: int, apiKey: string)

  datatype Request = Request(url: string, headers: map<string, string>)

  const ApiKeyHeader := "X-API-Key"

  /** The GET request `validate_input` sends to list the server's commands. */
  function ProbeRequest(input: UserInput): (r: Request)
    ensures ApiKeyHeader in r.headers <==> input.apiKey != ""
    ensures ApiKeyHeader in r.headers ==> r.headers[ApiKeyHeader] == input.apiKey
    ensures r.headers.Keys <= {ApiKeyHeader}
    ensures StartsWith(r.url, "http://" + input.host + ":")
  {
    var headers := if input.apiKey != "" then map[ApiKeyHeader := input.apiKey] else map[];
    var url := "http://" + input.host + ":" + IntToString(input.port) + "/commands";
    assert url == ("http://" + input.host + ":") + (IntToString(input.port) + "/commands");
    Request(url, headers)
  }

  // ---------------------------------------------------------------------------
  // Classifying the probe's outcome
  // ---------------------------------------------------------------------------

  /** The body of a response, as far as `response.json()` and `.get` see it. */
  datatype Body =
    | NotJson                              // wrong content type: aiohttp raises a ClientError
    | MalformedJson                        // JSON content type, undecodable text: a ValueError
    | NotAnObject                          // valid JSON without `.get`: an AttributeError
    | JsonObject(success: Option<bool>)

  /** What became of the request. */
  datatype ProbeOutcome =
    | ConnectionFailed                     // no response: aiohttp raises a ClientError
    | TimedOut                             // the 10-second timeout: not a ClientError
    | Responded(status: int, body: Body)

  /** The exception that leaves the request block, before any handler sees it. */
  datatype Raised = ClientError | InvalidAuthRaised | NoApiKeysRaised | CannotConnectRaised | OtherError

  /** The request block of `validate_input`: 401 and 403 first, then
      `raise_for_status` (any status from 400 up), then the JSON `success` flag. */
  function ProbeBlock(outcome: ProbeOutcome): (r: Outcome)
    ensures r == Completed <==>
      outcome.Responded? && outcome.status < 400 && outcome.body == JsonObject(Some(true))
    ensures outcome.Responded? && outcome.status == 401 ==> r == Raise(InvalidAuthRaised)
    ensures outcome.Responded? && outcome.status == 403 ==> r == Raise(NoApiKeysRaised)
    ensures outcome.Responded? && outcome.status >= 400 && outcome.status != 401 && outcome.status != 403 ==>
      r == Raise(ClientError)
  {
    match outcome
    case ConnectionFailed => Raise(ClientError)
    case TimedOut => Raise(OtherError)
    case Responded(status, body) =>
      if status == 401 then Raise(InvalidAuthRaised)
      else if status == 403 then Raise(NoApiKeysRaised)
      else if status >= 400 then Raise(ClientError)
      else
        match body
        case NotJson => Raise(ClientError)
        case MalformedJson => Raise(OtherError)
        case NotAnObject => Raise(OtherError)
        case JsonObject(success) => if success == Some(true) then Completed else Raise(CannotConnectRaised)
  }

  datatype Outcome = Completed | Raise(raised: Raised)

  /** The exceptions `validate_input` lets its callers see. */
  datatype FlowError = CannotConnect | InvalidAuth | NoApiKeys | Unexpected

  /** The two handlers around the request block: `aiohttp.ClientError`, then
      the catch-all `Exception`, which also catches the block's own
      `InvalidAuth`, `NoAPIKeys` and `CannotConnect`. Both re-raise `CannotConnect`. */
  function Rewrap(e: Raised): (r: FlowError)
    ensures r == CannotConnect
  {
    match e
    case ClientError => CannotConnect
    case InvalidAuthRaised => CannotConnect
    case NoApiKeysRaised => CannotConnect
    case CannotConnectRaised => CannotConnect
    case OtherError => CannotConnect
  }

  function EntryTitle(host: string): string {
    "Command Runner (" + host + ")"
  }

  /** `validate_input`: the entry title on success, else the error it raises. */
  function ValidateInput(input: UserInput, outcome: ProbeOutcome): (r: Result<string, FlowError>)
    ensures r.Success? <==> ProbeBlock(outcome) == Completed
    ensures r.Success? ==> r.value == "Command Runner (" + input.host + ")"
    ensures r.Failure? ==> r.error == CannotConnect
  {
    match ProbeBlock(outcome)
    case Completed => Success(EntryTitle(input.host))
    case Raise(e) => Failure(Rewrap(e))
  }

  /** Validation succeeds exactly when the server answered with a non-error
      status and a JSON object whose `success` is true; the title then names the host. */
  lemma ValidationSucceeds(input: UserInput, outcome: ProbeOutcome)
    ensures ValidateInput(input, outcome).Success? <==>
      (outcome.Responded? && outcome.status < 400 && outcome.body == JsonObject(Some(true)))
    ensures ValidateInput(input, outcome).Success? ==>
      ValidateInput(input, outcome).value == "Command Runner (" + input.host + ")"
  {
  }

  /** Every failure, 401 and 403 included, reaches the caller as `CannotConnect`. */
  lemma FailuresAreCannotConnect(input: UserInput, outcome: ProbeOutcome)
    ensures ValidateInput(input, outcome).Failure? ==>
      ValidateInput(input, outcome).error == CannotConnect
  {
  }

  /** A 401 does raise `InvalidAuth` inside the request block, and a 403
      `NoAPIKeys`; the catch-all turns both into `CannotConnect`. */
  lemma AuthErrorsAreRewrapped(input: UserInput, body: Body)
    ensures ProbeBlock(Responded(401, body)) == Raise(InvalidAuthRaised)
    ensures ProbeBlock(Responded(403, body)) == Raise(NoApiKeysRaised)
    ensures ValidateInput(input, Responded(401, body)) == Failure(CannotConnect)
    ensures ValidateInput(input, Responded(403, body)) == Failure(CannotConnect)
  {
  }

  /** The form error shown for each exception the flow steps catch. */
  function ErrorKey(e: FlowError): (r: string)
    ensures r == "cannot_connect" <==> e == CannotConnect
    ensures r == "invalid_auth" <==> e == InvalidAuth
    ensures r == "no_api_keys" <==> e == NoApiKeys
    ensures r == "unknown" <==> e == Unexpected
  {
    match e
    case InvalidAuth => "invalid_auth"
    case NoApiKeys => "no_api_keys"
    case CannotConnect => "cannot_connect"
    case Unexpected => "unknown"
  }

  // ---------------------------------------------------------------------------
  // The unique id of an entry
  // ---------------------------------------------------------------------------

  /** One entry per server: the id is `host:port`, and splitting it gives both back. */
  function UniqueId(host: string, port: int): (r: string)
    ensures SplitUniqueId(r) == Some((host, port))
  {
    HostPortSplits(host, port);
    host + ":" + IntToString(port)
  }

  /** The index of the last `c` in `s`. */
  function LastIndexOf(s: string, c: char): (r: Option<nat>)
    ensures r.Some? ==> r.value < |s| && s[r.value] == c
    ensures r.Some? ==> forall i :: r.value < i < |s| ==> s[i] != c
    ensures r.None? ==> forall i :: 0 <= i < |s| ==> s[i] != c
    decreases |s|
  {
    if |s| == 0 then None
    else if s[|s| - 1] == c then Some(|s| - 1)
    else LastIndexOf(s[..|s| - 1], c)
  }

  /** Splits a unique id at its last colon; the host itself may contain colons. */
  function SplitUniqueId(id: string): Option<(string, int)> {
    match LastIndexOf(id, ':')
    case None => None
    case Some(k) =>
      match ParseInt(id[k + 1..])
      case None => None
      case Some(port) => Some((id[..k], port))
  }

  /** The colon before the port is the last one: the digits hold none. */
  lemma LastColonBeforePort(host: string, port: int)
    ensures LastIndexOf(host + ":" + IntToString(port), ':') == Some(|host|)
  {
    NoColonInNumber(port);
    assert host + ":" + IntToString(port) == host + [':'] + IntToString(port);
    LastOccurrence(host + ":" + IntToString(port), host, ':', IntToString(port));
  }

  /** In `a`, then `c`, then text without `c`, the last `c` is the one after `a`. */
  lemma LastOccurrence(s: string, a: string, c: char, b: string)
    requires s == a + [c] + b
    requires forall i :: 0 <= i < |b| ==> b[i] != c
    ensures LastIndexOf(s, c) == Some(|a|)
  {
    assert s[|a|] == c;
    assert forall i :: |a| < i < |s| ==> s[i] == b[i - |a| - 1];
    LastIndexOfFromEnd(s, c, |a|);
  }

  lemma NoColonInNumber(port: int)
    ensures forall i :: 0 <= i < |IntToString(port)| ==> IntToString(port)[i] != ':'
  {
    var digits := IntToString(port);
    if port < 0 {
      assert digits == "-" + NatToString(-port);
      assert forall i :: 1 <= i < |digits| ==> digits[i] == NatToString(-port)[i - 1];
    }
  }

  lemma {:induction false} LastIndexOfFromEnd(s: string, c: char, k: nat)
    requires k < |s| && s[k] == c
    requires forall i :: k < i < |s| ==> s[i] != c
    ensures LastIndexOf(s, c) == Some(k)
    decreases |s|
  {
    if s[|s| - 1] != c {
      var t := s[..|s| - 1];
      assert forall i :: k < i < |t| ==> t[i] == s[i];
      LastIndexOfFromEnd(t, c, k);
    }
  }

  /** Splitting `host:port` at its last colon gives host and port back. */
  lemma HostPortSplits(host: string, port: int)
    ensures SplitUniqueId(host + ":" + IntToString(port)) == Some((host, port))
  {
    var id := host + ":" + IntToString(port);
    LastColonBeforePort(host, port);
    assert id[|host| + 1..] == IntToString(port);
    assert id[..|host|] == host;
    IntToStringRoundTrip(port);
  }

  /** Two servers share a unique id only if they share host and port. */
  lemma UniqueIdInjective(h1: string, p1: int, h2: string, p2: int)
    requires UniqueId(h1, p1) == UniqueId(h2, p2)
    ensures h1 == h2 && p1 == p2
  {
  }

  /** Only `host:port` text splits: whatever `SplitUniqueId` accepts is the id of its result. */
  lemma SplitUniqueIdCanonical(id: string, host: string, port: int)
    requires SplitUniqueId(id) == Some((host, port))
    ensures id == host + ":" + IntToString(port)
  {
    var k := LastIndexOf(id, ':').value;
    var digits := id[k + 1..];
    assert ParseInt(digits) == Some(port) && id[..k] == host;
    ParseIntCanonical(digits);
    SplitAt(id, k);
  }

  /** A text is its part before index `k`, the character at `k`, and the rest. */
  lemma SplitAt(s: string, k: nat)
    requires k < |s|
    ensures s == s[..k] + [s[k]] + s[k + 1..]
  {
  }

  /** Reads a probe URL back into the host and port it was built from. */
  function ParseProbeUrl(url: string): Option<(string, int)> {
    if |url| >= |"http://"| + |"/commands"| && url[..|"http://"|] == "http://"
       && url[|url| - |"/commands"|..] == "/commands"
    then SplitUniqueId(url[|"http://"|..|url| - |"/commands"|])
    else None
  }

  /** The probe URL is exactly `http://`, then `host:port`, then `/commands`:
      stripping the scheme and the endpoint recovers the host and the port. */
  lemma ProbeUrlRoundTrip(input: UserInput)
    ensures ParseProbeUrl(ProbeRequest(input).url) == Some((input.host, input.port))
  {
    var id := UniqueId(input.host, input.port);
    assert ProbeRequest(input).url == "http://" + id + "/commands";
    ParseProbeUrlOf(ProbeRequest(input).url, id);
  }

  /** Stripping the scheme and the endpoint leaves the `host:port` part. */
  lemma ParseProbeUrlOf(url: string, id: string)
    requires url == "http://" + id + "/commands"
    ensures ParseProbeUrl(url) == SplitUniqueId(id)
  {
    Affixes("http://", id, "/commands");
  }

  /** The pieces of `p + m + q` are recovered by slicing at the lengths of `p` and `q`. */
  /** Only the URL of a probe parses: `ParseProbeUrl` accepts exactly
      `http://host:port/commands` with the port written as `str(port)` writes it. */
  lemma ProbeUrlCanonical(url: string, host: string, port: int)
    requires ParseProbeUrl(url) == Some((host, port))
    ensures url == "http://" + (host + ":" + IntToString(port)) + "/commands"
  {
    var mid := url[|"http://"|..|url| - |"/commands"|];
    SplitUniqueIdCanonical(mid, host, port);
    assert url == url[..|"http://"|] + mid + url[|url| - |"/commands"|..];
  }

  lemma Affixes(p: string, m: string, q: string)
    ensures var s := p + m + q;
      && s[..|p|] == p
      && s[|s| - |q|..] == q
      && s[|p|..|s| - |q|] == m
  {
  }

  // ---------------------------------------------------------------------------
  // The user and reconfigure steps
  // ---------------------------------------------------------------------------

  /** Pre-filled values of a form's fields; `None` leaves a field empty. */
  datatype FormDefaults = FormDefaults(host: Option<string>, port: Option<int>, apiKey: Option<string>)

  const UserDefaults := FormDefaults(Some("192.168.1.100"), Some(8080), None)

  /** The data stored in an existing entry, read with defaults by the reconfigure form. */
  datatype EntryData = EntryData(host: Option<string>, port: Option<int>, apiKey: Option<string>)

  datatype ConfigEntry = ConfigEntry(uniqueId: Option<string>, data: EntryData)

  function ReconfigureDefaults(data: EntryData): FormDefaults {
    FormDefaults(Some(data.host.GetOr("")), Some(data.port.GetOr(8080)), Some(data.apiKey.GetOr("")))
  }

  /** What a flow step hands back to Home Assistant. `flowUniqueId` is the id
      set on the flow before the duplicate check; the update itself does not
      pass a unique id, so the entry's own id is left to the framework. */
  datatype FlowResult =
    | ShowForm(stepId: string, errors: map<string, string>, defaults: FormDefaults)
    | CreateEntry(title: string, data: UserInput, uniqueId: string)
    | Abort(reason: string)
    | UpdateEntry(title: string, dataUpdates: UserInput, flowUniqueId: Option<string>)

  const AlreadyConfigured := "already_configured"

  /** `async_step_user`; `configured` holds the unique ids of existing entries. */
  function StepUser(input: Option<UserInput>, outcome: ProbeOutcome, configured: set<string>)
    : (r: FlowResult)
    ensures input.None? ==> r == ShowForm("user", map[], UserDefaults)
    ensures r.CreateEntry? ==>
      && input.Some?
      && r.uniqueId == input.value.host + ":" + IntToString(input.value.port)
      && r.uniqueId !in configured
      && r.data == input.value
      && r.title == "Command Runner (" + input.value.host + ")"
    ensures r.Abort? ==>
      && r.reason == AlreadyConfigured
      && input.Some?
      && UniqueId(input.value.host, input.value.port) in configured
  {
    if input.None? then ShowForm("user", map[], UserDefaults)
    else
      match ValidateInput(input.value, outcome)
      case Failure(e) => ShowForm("user", map["base" := ErrorKey(e)], UserDefaults)
      case Success(title) =>
        var id := UniqueId(input.value.host, input.value.port);
        if id in configured then Abort(AlreadyConfigured) else CreateEntry(title, input.value, id)
  }

  /** A submitted form either creates an entry (or aborts as a duplicate)
      when validation succeeds, or comes back with exactly one error, and that
      error is always "cannot_connect": the "invalid_auth", "no_api_keys" and
      "unknown" keys are never shown. */
  lemma StepUserOutcome(input: UserInput, outcome: ProbeOutcome, configured: set<string>)
    ensures var r := StepUser(Some(input), outcome, configured);
      && (ValidateInput(input, outcome).Success? <==> (r.CreateEntry? || r.Abort?))
      && (ValidateInput(input, outcome).Failure? <==>
            r == ShowForm("user", map["base" := "cannot_connect"], UserDefaults))
  {
  }

  /** `async_step_reconfigure`: a new unique id is set and checked only when
      host or port change. */
  function StepReconfigure(entry: ConfigEntry, input: Option<UserInput>, outcome: ProbeOutcome,
                           configured: set<string>): (r: FlowResult)
    ensures input.None? ==> r == ShowForm("reconfigure", map[], ReconfigureDefaults(entry.data))
    ensures r.UpdateEntry? ==>
      && input.Some?
      && r.dataUpdates == input.value
      && r.title == "Command Runner (" + input.value.host + ")"
      && (r.flowUniqueId.Some? <==> entry.uniqueId != Some(UniqueId(input.value.host, input.value.port)))
      && (r.flowUniqueId.Some? ==>
            r.flowUniqueId.value == UniqueId(input.value.host, input.value.port) &&
            r.flowUniqueId.value !in configured)
    ensures r.Abort? ==>
      && input.Some?
      && entry.uniqueId != Some(UniqueId(input.value.host, input.value.port))
      && UniqueId(input.value.host, input.value.port) in configured
  {
    var defaults := ReconfigureDefaults(entry.data);
    if input.None? then ShowForm("reconfigure", map[], defaults)
    else
      match ValidateInput(input.value, outcome)
      case Failure(e) => ShowForm("reconfigure", map["base" := ErrorKey(e)], defaults)
      case Success(_) =>
        var id := UniqueId(input.value.host, input.value.port);
        if Some(id) != entry.uniqueId then
          if id in configured then Abort(AlreadyConfigured)
          else UpdateEntry(EntryTitle(input.value.host), input.value, Some(id))
        else UpdateEntry(EntryTitle(input.value.host), input.value, None)
  }

  /** A submitted reconfigure form updates the entry or aborts exactly when
      validation succeeds. It aborts exactly when the server changed to one
      that is already configured. A changed server that is free updates with
      its new id, and any failure shows "cannot_connect". */
  lemma StepReconfigureOutcome(entry: ConfigEntry, input: UserInput, outcome: ProbeOutcome,
                               configured: set<string>)
    ensures var r := StepReconfigure(entry, Some(input), outcome, configured);
      var id := UniqueId(input.host, input.port);
      var ok := ValidateInput(input, outcome).Success?;
      && (ok <==> (r.UpdateEntry? || r.Abort?))
      && (r.Abort? <==> (ok && entry.uniqueId != Some(id) && id in configured))
      && (ok && entry.uniqueId != Some(id) && id !in configured ==>
            r == UpdateEntry("Command Runner (" + input.host + ")", input, Some(id)))
      && (!ok <==>
            r == ShowForm("reconfigure", map["base" := "cannot_connect"], ReconfigureDefaults(entry.data)))
  {
  }

  /** Reconfiguring with the same host and port never touches the unique id
      and never aborts as a duplicate. */
  lemma ReconfigureSameServer(entry: ConfigEntry, input: UserInput, outcome: ProbeOutcome,
                              configured: set<string>)
    requires entry.uniqueId == Some(UniqueId(input.host, input.port))
    requires ValidateInput(input, outcome).Success?
    ensures StepReconfigure(entry, Some(input), outcome, configured) ==
      UpdateEntry("Command Runner (" + input.host + ")", input, None)
  {
  }

  /** A failed reconfiguration shows exactly one error, "cannot_connect". */
  lemma ReconfigureFailure(entry: ConfigEntry, input: UserInput, outcome: ProbeOutcome,
                           configured: set<string>)
    requires ValidateInput(input, outcome).Failure?
    ensures StepReconfigure(entry, Some(input), outcome, configured) ==
      ShowForm("reconfigure", map["base" := "cannot_connect"], ReconfigureDefaults(entry.data))
  {
  }

  // ---------------------------------------------------------------------------
  // The options step
  // ---------------------------------------------------------------------------

  datatype OptionsResult = ShowOptionsForm(showNotificationsDefault: bool) | SaveOptions(data: Button.EntryOptions)

  function StepOptions(current: Button.EntryOptions, input: Option<Button.EntryOptions>): (r: OptionsResult)
    ensures input.Some? ==> r == SaveOptions(input.value)
    ensures input.None? && current.showNotifications.None? ==> r == ShowOptionsForm(true)
    ensures input.None? && current.showNotifications.Some? ==>
      r == ShowOptionsForm(current.showNotifications.value)
  {
    if input.Some? then SaveOptions(input.value)
    else ShowOptionsForm(current.showNotifications.GetOr(true))
  }

  /** The options form pre-selects exactly the setting the buttons act on. */
  lemma OptionsDefaultMatchesButtons(current: Button.EntryOptions)
    ensures StepOptions(current, None).showNotificationsDefault == Button.NotificationsEnabled(current)
  {
  }
}
