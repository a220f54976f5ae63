# Command Runner for Home Assistant — a verified model of its decision logic

Command Runner is a Home Assistant integration that drives a companion HTTP
server which runs named shell commands. The integration polls the server for
its command list and a status blob. It exposes one button per command, plus a
refresh button. It also exposes sensors for the server's health and for the
result of the last command that ran. It is configured through a config flow
that probes the server's `/commands` endpoint.

This project models, as pure Dafny functions over immutable records, the small
decisions inside that glue:

- `sensor.py` (module `Sensor`): each sensor's state, with its fallbacks
  (`"unavailable"`, `"unknown"`, `0`, `"Unknown"`, `Yes`/`No`). Also the
  `Nd Nh Nm` uptime attribute, the last-command output truncated to 255
  characters, the `full_output`/`full_error`/`exit_code` attributes, and the
  status icon.
- `button.py` (module `Button`): the list of button entities, and the sensor
  ids the refresh button updates. Also the attributes of a command button, and
  the notification a press raises.
- `config_flow.py` (module `ConfigFlow`): the probe request and how its
  outcome is classified. Also the form error key, the `host:port` unique id,
  the user and reconfigure steps, and the options default.
- `Text` holds the Python string built-ins these depend on: `str(int)`,
  `startswith`, the `in` substring test, `lower`, `strip` and slicing.
  `Wrappers` holds `Option` and `Result`.

Python dictionaries are records of `Option` fields. `None` means the key is
missing, so `dict.get(key, default)` becomes `GetOr(default)`. Python
truthiness is spelled out: an empty string or empty dictionary is falsy, and
so is a missing key.

One behaviour of the code as written is kept and proved. In `validate_input`,
the catch-all `except Exception` also catches the `InvalidAuth` and
`NoAPIKeys` raised for HTTP 401 and 403. It also catches the `CannotConnect`
raised for a false `success` flag, and re-raises all of them as
`CannotConnect`. So every failed validation shows the `cannot_connect` form
error. The `invalid_auth` and `no_api_keys` handlers of both flow steps can
never run. Nor can the `unknown` handler, given that the forms' schemas
always supply host and port (`ConfigFlow.AuthErrorsAreRewrapped`,
`ConfigFlow.StepUserOutcome`).

## Model

| member | source | states |
|---|---|---|
| Sensor.StatusState | custom_components/command_runner/sensor.py:63-68 | Without a truthy blob the status is "unavailable". Otherwise it is the reported status, or "unknown" when the key is missing |
| Sensor.VersionState | custom_components/command_runner/sensor.py:89-94 | A version is shown exactly when the blob is truthy. It is the reported version, or "unknown" when the key is missing |
| Sensor.PortState | custom_components/command_runner/sensor.py:115-120 | A port is shown only from a truthy blob, and then it is exactly the reported port |
| Sensor.UptimeState | custom_components/command_runner/sensor.py:143-148 | An uptime is shown only from a truthy blob, and then it is exactly the reported uptime |
| Sensor.TotalRequestsState | custom_components/command_runner/sensor.py:181-186 | A non-zero count comes only from a truthy blob that reports it. A reported count is shown as is |
| Sensor.ProcessingState | custom_components/command_runner/sensor.py:207-212 | The same holds for the number of requests in progress |
| Sensor.ApiKeysState | custom_components/command_runner/sensor.py:233-238 | The state is one of "Yes", "No" and "Unknown". "Yes" holds exactly when the blob is truthy and the flag is true. "Unknown" holds exactly when there is no truthy blob |
| Sensor.LastRequestState | custom_components/command_runner/sensor.py:260-267 | A timestamp is shown exactly when the blob is truthy and reports a positive time, and it is that time |
| Sensor.Snapshot | custom_components/command_runner/sensor.py:63-267 | Without a truthy blob the status is "unavailable", the total 0 and the API-key state "Unknown". With one, a version is always shown and the API-key state is never "Unknown" |
| Sensor.SnapshotWithoutStatus | custom_components/command_runner/sensor.py:63-267 | With no status blob, or an empty one, all eight status sensors fall back together: status "unavailable"; version, port, uptime and last request absent; both counters 0; API keys "Unknown" |
| Sensor.SnapshotWithStatus | custom_components/command_runner/sensor.py:63-267 | With a non-empty blob each sensor reads its own key. Status and version default to "unknown" and the counters to 0 only when the key is missing. API keys reads "Yes" exactly when the flag is true, else "No". The last request is present exactly when its time is positive |
| Sensor.StatusUnavailable | custom_components/command_runner/sensor.py:63-68 | The status sensor reads "unavailable" if and only if there is no blob or the server itself reports "unavailable" |
| Sensor.Breakdown | custom_components/command_runner/sensor.py:153-157 | The day/hour/minute split of an uptime is a normal form: hours < 24, minutes < 60, and days·86400 + hours·3600 + minutes·60 ≤ uptime < that + 60 |
| Sensor.BreakdownUnique | custom_components/command_runner/sensor.py:153-157 | That normal form is unique: any split meeting the bounds is the one the sensor computes |
| Sensor.UptimeAttribute | custom_components/command_runner/sensor.py:150-159 | `uptime_formatted` is present if and only if the blob is non-empty and its uptime is present and non-zero. Its text is the formatting of a normal form of that uptime |
| Sensor.FormatUptime | custom_components/command_runner/sensor.py:158 | The `<d>d <h>h <m>m` text reads back to exactly the days, hours and minutes it was formatted from |
| Sensor.ParseUptimeCanonical | custom_components/command_runner/sensor.py:158 | The uptime parser accepts nothing but the `<d>d <h>h <m>m` text of the parts it returns, with each number written without leading zeros. Together with `FormatUptime` this makes parsing the exact inverse of formatting |
| Sensor.UptimeAttributeReadsBack | custom_components/command_runner/sensor.py:150-159 | Whatever the attribute shows reads back to the normal form of the reported uptime |
| Sensor.LastCommandNameState | custom_components/command_runner/sensor.py:288-290 | The name sensor shows the last command's name when it is present and non-empty, otherwise "None". The state is never empty |
| Sensor.LastCommandNameDisplay | custom_components/command_runner/sensor.py:288-290 | The name sensor shows the last command's name when it is non-empty, otherwise "None" |
| Sensor.LastCommandStatusState | custom_components/command_runner/sensor.py:311-314 | The status sensor shows the last status itself when it is present and non-empty, otherwise "Unknown". The state is never empty |
| Sensor.StatusIcon | custom_components/command_runner/sensor.py:316-323 | The icon is `mdi:check-circle` exactly for "Success", `mdi:close-circle` exactly for "Failed", and `mdi:help-circle` for any other or missing status |
| Sensor.LastCommandStatusDisplay | custom_components/command_runner/sensor.py:311-323 | A present, non-empty status is shown as itself, and "Unknown" is shown exactly when there is none or the status is "Unknown" itself. The icon is the check exactly when the shown status is "Success", the close exactly when it is "Failed", and help for every other shown status |
| Sensor.Truncate | custom_components/command_runner/sensor.py:352-353 | Truncation keeps the prefix of length min(length, 255) |
| Sensor.OutputState | custom_components/command_runner/sensor.py:344-363 | The output sensor's state is never empty and never longer than Home Assistant's 255-character limit |
| Sensor.SuccessOutputState | custom_components/command_runner/sensor.py:349-354 | After "Success" with non-empty output, the state is a prefix of the output of length min(length, 255), and the whole output when it fits. Without output the state is "No output" |
| Sensor.FailedOutputState | custom_components/command_runner/sensor.py:356-361 | After "Failed" the same holds for the error text, and "Unknown error" when there is none |
| Sensor.OtherOutputState | custom_components/command_runner/sensor.py:363-384 | Any other status gives "None", and the only attribute kept is the exit code |
| Sensor.OutputAttrs | custom_components/command_runner/sensor.py:365-384 | The attribute dictionary is absent exactly when there is no exit code and nothing was truncated |
| Sensor.FullTextKept | custom_components/command_runner/sensor.py:368-384 | `full_output` is present if and only if the status is "Success" and the output is longer than 255, and it then equals the whole output. The same holds for `full_error` under "Failed". `exit_code` is present if and only if there is one |
| Sensor.FullTextRecoverable | custom_components/command_runner/sensor.py:349-384 | Truncation loses nothing: the full attribute, or else the state, is the complete output of a success or the complete error of a failure |
| Text.NatToString | custom_components/command_runner/sensor.py:158 | A number renders as decimal digits, with no leading zero unless it is 0 |
| Text.NatToStringRoundTrip | custom_components/command_runner/sensor.py:158 | Parsing the decimal rendering of a natural number gives the number back |
| Text.ParseNatCanonical | custom_components/command_runner/sensor.py:158 | The decimal parser accepts only the text `str(n)` writes: whatever it reads is the rendering of the number it returns, so a leading zero is rejected |
| Text.ParseIntCanonical | custom_components/command_runner/config_flow.py:38 | The integer parser accepts only the text `str(i)` writes, so neither leading zeros nor "-0" parse |
| Text.IntToStringRoundTrip | custom_components/command_runner/button.py:162-175 | Parsing the rendering of any integer, such as an exit code or a port, gives it back |
| Text.Strip | custom_components/command_runner/button.py:161 | The stripped output is empty if and only if the output is all whitespace. Otherwise it neither starts nor ends with whitespace. The output is all-whitespace text, then the stripped text, then all-whitespace text |
| Text.AsciiLower | custom_components/command_runner/button.py:76 | Lowering keeps the length and lowers each character |
| Button.SetupButtons | custom_components/command_runner/button.py:31-39 | The entity list is the refresh button, then the reference list of command buttons. Its length is 1 + the number of commands whose kind (default "command") is "command" |
| Button.CommandButtons | custom_components/command_runner/button.py:36-39 | Every command button is for a plain command and carries that command's unique id. There are as many buttons as plain commands |
| Button.CommandButtonsMembership | custom_components/command_runner/button.py:36-39 | A command gets a button if and only if it is listed and its kind is "command" |
| Button.CommandUniqueId | custom_components/command_runner/button.py:124 | A command button's unique id starts with the entry id and "_", and the rest of it is the command name |
| Button.CommandUniqueIdInjective | custom_components/command_runner/button.py:124 | Within one entry, distinct command names give distinct unique ids |
| Button.Attributes | custom_components/command_runner/button.py:137-144 | The attributes copy `command`. `allow_parameters` is true only when the command says so (default False), and `voice_trigger` defaults to "" |
| Button.RefreshTargets | custom_components/command_runner/button.py:72-77 | The updated ids are a subsequence of all sensor ids. Each starts with "sensor.command_runner" and its lowercase form has no "_sensor". Every such id is kept, and the count equals the number of such ids |
| Button.RefreshPress | custom_components/command_runner/button.py:66-105 | The refresh press updates exactly the filtered ids. It notifies if and only if notifications are enabled (default on), under the id `command_runner_refresh_<host>` |
| Button.PressNotification | custom_components/command_runner/button.py:146-205 | A command press notifies if and only if notifications are enabled (default on). Success and failure both use the id `command_runner_<unique id>`. A true `success` gives the title "✅ Command Success: <name>" and the success message built from the output (default "") and exit code (default 0). Anything else gives "❌ Command Failed: <name>" and the failure message with the error (default "Unknown error") |
| Button.SuccessMessage | custom_components/command_runner/button.py:159-175 | The message always contains the command name and the exit code. With non-empty stripped output it is the long form beginning "**Command:** " and contains that output. Otherwise it is the one-line form beginning "Command '" |
| Button.FailureMessage | custom_components/command_runner/button.py:188-202 | The failure message begins "**Error:** " and contains the error and the command name |
| Button.LaterPressReplaces | custom_components/command_runner/button.py:184-203 | Because success and failure share one notification id per button, a later press replaces the earlier notification |
| ConfigFlow.ProbeRequest | custom_components/command_runner/config_flow.py:28-40 | The `X-API-Key` header is sent if and only if the key is non-empty, and it is the only header. The URL starts with `http://<host>:` |
| ConfigFlow.ProbeUrlRoundTrip | custom_components/command_runner/config_flow.py:38 | Removing `http://` and `/commands` from the probe URL and splitting the rest at its last colon recovers the host and the port |
| ConfigFlow.ProbeUrlCanonical | custom_components/command_runner/config_flow.py:38 | A URL that parses to a host and a port is exactly `http://`, the host, `:`, the port as `str(port)` writes it, and `/commands`. With `ProbeUrlRoundTrip` this pins the probe URL down to that text |
| ConfigFlow.ProbeBlock | custom_components/command_runner/config_flow.py:35-49 | The request block completes exactly for a status below 400 with a JSON object whose `success` is true. 401 raises `InvalidAuth` and 403 `NoAPIKeys`, ahead of `raise_for_status`. Any other status from 400 up raises a client error |
| ConfigFlow.Rewrap | custom_components/command_runner/config_flow.py:52-56 | Both handlers around the request block re-raise `CannotConnect`, whatever was raised inside it |
| ConfigFlow.ValidateInput | custom_components/command_runner/config_flow.py:24-56 | Validation succeeds exactly when the request block completes, and its title is then "Command Runner (<host>)". Every failure is `CannotConnect` |
| ConfigFlow.ValidationSucceeds | custom_components/command_runner/config_flow.py:41-50 | Validation succeeds if and only if the server answered with a status below 400 and a JSON object whose `success` is true. The title is then "Command Runner (<host>)" |
| ConfigFlow.FailuresAreCannotConnect | custom_components/command_runner/config_flow.py:35-56 | Every failed validation surfaces as `CannotConnect` |
| ConfigFlow.AuthErrorsAreRewrapped | custom_components/command_runner/config_flow.py:41-56 | 401 raises `InvalidAuth` and 403 `NoAPIKeys` inside the request block, and the catch-all turns both into `CannotConnect` |
| ConfigFlow.ErrorKey | custom_components/command_runner/config_flow.py:81-89 | Each exception the flow steps catch has its own form error key: `cannot_connect`, `invalid_auth`, `no_api_keys` and `unknown`, one for one |
| ConfigFlow.UniqueId | custom_components/command_runner/config_flow.py:91 | Splitting the unique id `host:port` at its last colon gives the host and port back, even when the host contains colons |
| ConfigFlow.SplitUniqueIdCanonical | custom_components/command_runner/config_flow.py:91 | Only a `host:port` id splits: whatever splits into a host and a port is exactly the unique id of that host and port |
| ConfigFlow.UniqueIdInjective | custom_components/command_runner/config_flow.py:91-92 | Two servers share a unique id only if they share host and port |
| ConfigFlow.StepUser | custom_components/command_runner/config_flow.py:72-105 | With no input the empty user form is shown. A created entry has unique id `host:port` not already configured, its data equals the input, and its title is "Command Runner (<host>)". An abort means that id is already configured |
| ConfigFlow.StepUserOutcome | custom_components/command_runner/config_flow.py:78-93 | A submission creates or aborts if and only if validation succeeds. It returns the form with exactly `base: cannot_connect` if and only if validation fails |
| ConfigFlow.StepReconfigure | custom_components/command_runner/config_flow.py:107-159 | An update carries the input and the new title. A new unique id is set and checked if and only if `host:port` differs from the entry's, and it is not already configured. An abort happens only for a changed id that is already configured |
| ConfigFlow.StepReconfigureOutcome | custom_components/command_runner/config_flow.py:116-141 | A submission updates or aborts exactly when validation succeeds. It aborts exactly when `host:port` changed to an id that is already configured. A changed, free id updates the entry with that id set on the flow. A failure re-shows the pre-filled form with exactly `base: cannot_connect` |
| ConfigFlow.ReconfigureSameServer | custom_components/command_runner/config_flow.py:130-141 | Reconfiguring with the same host and port never touches the unique id and never aborts |
| ConfigFlow.ReconfigureFailure | custom_components/command_runner/config_flow.py:116-159 | A failed reconfiguration re-shows the pre-filled form with exactly `base: cannot_connect` |
| ConfigFlow.StepOptions | custom_components/command_runner/config_flow.py:165-184 | Submitted options are saved as given. The form's `show_notifications` default is the stored value, or true when none is stored |
| ConfigFlow.OptionsDefaultMatchesButtons | custom_components/command_runner/config_flow.py:176 | The options form pre-selects exactly the setting the buttons act on |

## Left out

- HTTP, JSON decoding and the server are not modelled. The outcome of the probe request is a parameter (`ConfigFlow.ProbeOutcome`), and so is the server's reply to an execution request (`Button.ExecResult`). The coordinator that polls the server is not part of this model.
- The Home Assistant framework is not modelled: entity classes, `async_add_entities`, forms, and the `update_entity` and `persistent_notification` service calls. They become values: entity lists, lists of ids to update, `Notification` records and `FlowResult` values. A `NotificationBoard` map stands for the notifications on screen.
- Async ordering, the coordinator refreshes and the per-id error logging of the refresh loop are left out. They are concurrency and plumbing.
- The unique-id registry is not modelled. It is a set of ids already configured, and `_abort_if_unique_id_configured` is a membership test. What the framework does to the entry's own unique id after a reconfigure is not modelled either.
- `datetime.fromtimestamp` is not modelled. The last-request sensor keeps the raw positive timestamp in seconds.
- Uptimes are natural numbers and timestamps integers. Float values from the server are not modelled. Neither are negative uptimes, which Python's floor division would render as, for example, `-1d 23h 59m` for -1.
- JSON values of a type other than the one each key is read as are not modelled. This includes `null`, a non-boolean `success` or `apiKeysConfigured` flag, and non-string output. Only `true` counts as a truthy flag.
- `str.lower()` is modelled for ASCII letters only. It is used only to test for `_sensor`, and only ASCII letters lower to the letters of `_sensor`.
- The messages carried by `CannotConnect`, and all logging, are left out. No flow result shows them.
- `device_info`, entity names, fixed icons, the list of eleven sensors in the sensor `async_setup_entry`, and the reconfigure form's `host` description placeholder are left out. They are constants with no decision in them.
- A command of kind `"command"` without a `name` raises `KeyError` in the source: the name is read only when its button is built and pressed (button.py lines 123-124 and 148). The model gives every command a name, including those that never get a button.
- A user input without host or port raises `KeyError` before the probe. The forms' schemas prevent this, so `ConfigFlow.UserInput` has all three fields.
