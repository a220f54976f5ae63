/** The button platform: which buttons are created, which sensors the refresh
    button updates, and which notification a command button raises
    (custom_components/command_runner/button.py). */
module Button {
  import opened Wrappers
  import opened Text

  const Domain := "command_runner"

  // ---------------------------------------------------------------------------
  // Entity selection
  // ---------------------------------------------------------------------------

  /** One entry of the server's command list. */
  datatype Command = Command(
    name: string,
    kind: Option<string>,
    command: Option<string>,
    allowParameters: Option<bool>,
    voice: Option<string>)

  /** A command without a `kind` counts as a plain command. */
  function Kind(c: Command): string {
    c.kind.GetOr("command")
  }

  predicate IsButtonCommand(c: Command) {
    Kind(c) == "command"
  }

  datatype ButtonEntity =
    | RefreshButton(uniqueId: string)
    | CommandButton(uniqueId: string, command: Command)

  function RefreshUniqueId(entryId: string): string {
    entryId + "_refresh"
  }

  function CommandUniqueId(entryId: string, name: string): (r: string)
    ensures StartsWith(r, entryId + "_")
    ensures |r| == |entryId| + 1 + |name|
    ensures r[|entryId| + 1..] == name
  {
    entryId + "_" + name
  }

  /** Within one config entry, distinct command names give distinct ids. */
  lemma CommandUniqueIdInjective(entryId: string, a: string, b: string)
    requires CommandUniqueId(entryId, a) == CommandUniqueId(entryId, b)
    ensures a == b
  {
    var k := |entryId| + 1;
    assert a == CommandUniqueId(entryId, a)[k..];
    assert b == CommandUniqueId(entryId, b)[k..];
  }

  function ButtonFor(entryId: string, c: Command): ButtonEntity {
    CommandButton(CommandUniqueId(entryId, c.name), c)
  }

  /** The number of commands that get a button. */
  function CountButtonCommands(cmds: seq<Command>): nat {
    if |cmds| == 0 then 0
    else (if IsButtonCommand(cmds[0]) then 1 else 0) + CountButtonCommands(cmds[1..])
  }

  /** Reference definition: one button per plain command, in list order. */
  function CommandButtons(entryId: string, cmds: seq<Command>): (bs: seq<ButtonEntity>)
    ensures |bs| == CountButtonCommands(cmds)
    ensures forall i :: 0 <= i < |bs| ==>
      bs[i].CommandButton? && IsButtonCommand(bs[i].command) &&
      bs[i] == ButtonFor(entryId, bs[i].command)
  {
    if |cmds| == 0 then []
    else (if IsButtonCommand(cmds[0]) then [ButtonFor(entryId, cmds[0])] else [])
         + CommandButtons(entryId, cmds[1..])
  }

  lemma {:induction false} CommandButtonsAppend(entryId: string, cmds: seq<Command>, c: Command)
    ensures CommandButtons(entryId, cmds + [c]) ==
      CommandButtons(entryId, cmds) + (if IsButtonCommand(c) then [ButtonFor(entryId, c)] else [])
    decreases |cmds|
  {
    if |cmds| == 0 {
      assert cmds + [c] == [c];
      assert [c][1..] == [];
    } else {
      assert (cmds + [c])[1..] == cmds[1..] + [c];
      CommandButtonsAppend(entryId, cmds[1..], c);
    }
  }

  /** A command gets a button exactly when it is in the list and is a plain command. */
  lemma {:induction false} CommandButtonsMembership(entryId: string, cmds: seq<Command>, c: Command)
    ensures ButtonFor(entryId, c) in CommandButtons(entryId, cmds) <==>
      (c in cmds && IsButtonCommand(c))
    decreases |cmds|
  {
    if |cmds| > 0 {
      CommandButtonsMembership(entryId, cmds[1..], c);
      assert cmds == [cmds[0]] + cmds[1..];
    }
  }

  /** The entities `async_setup_entry` registers: the refresh button first,
      then one button per plain command, in the order the server lists them. */
  method SetupButtons(entryId: string, cmds: seq<Command>) returns (entities: seq<ButtonEntity>)
    ensures entities == [RefreshButton(RefreshUniqueId(entryId))] + CommandButtons(entryId, cmds)
    ensures |entities| == 1 + CountButtonCommands(cmds)
  {
    entities := [RefreshButton(RefreshUniqueId(entryId))];
    var i := 0;
    while i < |cmds|
      invariant i <= |cmds|
      invariant entities == [RefreshButton(RefreshUniqueId(entryId))] + CommandButtons(entryId, cmds[..i])
    {
      var c := cmds[i];
      CommandButtonsAppend(entryId, cmds[..i], c);
      assert cmds[..i + 1] == cmds[..i] + [c];
      if Kind(c) == "command" {
        entities := entities + [CommandButton(CommandUniqueId(entryId, c.name), c)];
      }
      i := i + 1;
    }
    assert cmds[..i] == cmds;
  }

  /** The state attributes of a command button. */
  datatype ButtonAttributes = ButtonAttributes(
    command: Option<string>,
    allowParameters: bool,
    voiceTrigger: string)

  function Attributes(c: Command): (a: ButtonAttributes)
    ensures a.command == c.command
    ensures a.allowParameters <==> c.allowParameters == Some(true)
    ensures c.voice.None? ==> a.voiceTrigger == ""
    ensures c.voice.Some? ==> a.voiceTrigger == c.voice.value
  {
    ButtonAttributes(c.command, c.allowParameters.GetOr(false), c.voice.GetOr(""))
  }

  // ---------------------------------------------------------------------------
  // Refresh button: which sensors are updated
  // ---------------------------------------------------------------------------

  const SensorPrefix := "sensor.command_runner"

  /** Ids of the integration's own status sensors; per-command sensors carry `_sensor`. */
  predicate IsRefreshTarget(entityId: string) {
    StartsWith(entityId, SensorPrefix) && !Contains(AsciiLower(entityId), "_sensor")
  }

  function CountTargets(ids: seq<string>): nat {
    if |ids| == 0 then 0
    else (if IsRefreshTarget(ids[0]) then 1 else 0) + CountTargets(ids[1..])
  }

  /** The sensor ids the refresh button asks Home Assistant to update. */
  function RefreshTargets(ids: seq<string>): (r: seq<string>)
    ensures IsSubsequence(r, ids)
    ensures forall i :: 0 <= i < |r| ==> IsRefreshTarget(r[i])
    ensures forall i :: 0 <= i < |ids| && IsRefreshTarget(ids[i]) ==> ids[i] in r
    ensures |r| == CountTargets(ids)
  {
    if |ids| == 0 then []
    else
      var rest := RefreshTargets(ids[1..]);
      assert forall i :: 1 <= i < |ids| ==> ids[i] == ids[1..][i - 1];
      if IsRefreshTarget(ids[0]) then
        assert ([ids[0]] + rest)[1..] == rest;
        [ids[0]] + rest
      else rest
  }

  datatype Notification = Notification(title: string, message: string, notificationId: string)

  /** The options of a config entry; `showNotifications` is `None` when never set. */
  datatype EntryOptions = EntryOptions(showNotifications: Option<bool>)

  function NotificationsEnabled(o: EntryOptions): bool {
    o.showNotifications.GetOr(true)
  }

  /** What pressing the refresh button does besides refreshing the coordinator. */
  datatype RefreshOutcome = RefreshOutcome(updated: seq<string>, notification: Option<Notification>)

  function RefreshPress(sensorIds: seq<string>, options: EntryOptions, host: string): (o: RefreshOutcome)
    ensures o.updated == RefreshTargets(sensorIds)
    ensures o.notification.Some? <==> NotificationsEnabled(options)
    ensures o.notification.Some? ==>
      o.notification.value.notificationId == Domain + "_refresh_" + host
  {
    var note :=
      if NotificationsEnabled(options) then
        Some(Notification("Command Runner", "Statistics and sensors refreshed successfully",
                          Domain + "_refresh_" + host))
      else None;
    RefreshOutcome(RefreshTargets(sensorIds), note)
  }

  // ---------------------------------------------------------------------------
  // Command button: the notification after a press
  // ---------------------------------------------------------------------------

  /** The JSON the server returns for an execution request. */
  datatype ExecResult = ExecResult(
    success: Option<bool>,
    output: Option<string>,
    exitCode: Option<int>,
    error: Option<string>)

  predicate Succeeded(r: ExecResult) {
    r.success == Some(true)
  }

  function NotificationId(uniqueId: string): string {
    Domain + "_" + uniqueId
  }

  /** The body of a success notification: the long form when the stripped
      output is non-empty, else a one-line sentence. Both name the command and
      the exit code. */
  function SuccessMessage(name: string, output: string, exitCode: int): (r: string)
    ensures Contains(r, name) && Contains(r, IntToString(exitCode))
    ensures Strip(output) != "" ==> StartsWith(r, "**Command:** ") && Contains(r, Strip(output))
    ensures Strip(output) == "" ==> StartsWith(r, "Command '")
  {
    var out := Strip(output);
    var code := IntToString(exitCode);
    if out != "" then
      var r := "**Command:** " + name + "\n\n**Output:**\n```\\n" + out + "\\n```\n\n**Exit Code:** " + code;
      ContainsAlternate(r, "**Command:** ", name, "\n\n**Output:**\n```\\n", out, "\\n```\n\n**Exit Code:** ", code);
      r
    else
      var r := "Command '" + name + "' executed successfully with exit code " + code;
      ContainsPair(r, "Command '", name, "' executed successfully with exit code ", code);
      r
  }

  /** The body of a failure notification: it names the error and the command. */
  function FailureMessage(name: string, error: string): (r: string)
    ensures StartsWith(r, "**Error:** ")
    ensures Contains(r, error) && Contains(r, name)
  {
    var r := "**Error:** " + error + "\n\n**Command:** " + name;
    ContainsPair(r, "**Error:** ", error, "\n\n**Command:** ", name);
    r
  }

  /** The notification a command button raises after the server answered `result`. */
  function PressNotification(entryId: string, c: Command, result: ExecResult, options: EntryOptions)
    : (n: Option<Notification>)
    ensures n.Some? <==> NotificationsEnabled(options)
    ensures n.Some? ==> n.value.notificationId == NotificationId(CommandUniqueId(entryId, c.name))
    ensures n.Some? && Succeeded(result) ==>
      && n.value.title == "\U{2705} Command Success: " + c.name
      && n.value.message == SuccessMessage(c.name, result.output.GetOr(""), result.exitCode.GetOr(0))
    ensures n.Some? && !Succeeded(result) ==>
      && n.value.title == "\U{274C} Command Failed: " + c.name
      && n.value.message == FailureMessage(c.name, result.error.GetOr("Unknown error"))
  {
    if !NotificationsEnabled(options) then None
    else
      var id := NotificationId(CommandUniqueId(entryId, c.name));
      if Succeeded(result) then
        Some(Notification("\U{2705} Command Success: " + c.name,
                          SuccessMessage(c.name, result.output.GetOr(""), result.exitCode.GetOr(0)), id))
      else
        Some(Notification("\U{274C} Command Failed: " + c.name,
                          FailureMessage(c.name, result.error.GetOr("Unknown error")), id))
  }

  /** The notifications on screen, keyed by notification id. */
  type NotificationBoard = map<string, Notification>

  function Publish(board: NotificationBoard, n: Option<Notification>): (b: NotificationBoard)
    ensures n.None? ==> b == board
    ensures n.Some? ==> b.Keys == board.Keys + {n.value.notificationId}
    ensures n.Some? ==> b[n.value.notificationId] == n.value
  {
    if n.Some? then board[n.value.notificationId := n.value] else board
  }

  /** Success and failure share one id per button, so a later press of the
      same button replaces the notification of an earlier one. */
  lemma LaterPressReplaces(board: NotificationBoard, entryId: string, c: Command,
                           first: ExecResult, second: ExecResult, options: EntryOptions)
    requires NotificationsEnabled(options)
    ensures var n1 := PressNotification(entryId, c, first, options);
            var n2 := PressNotification(entryId, c, second, options);
      Publish(Publish(board, n1), n2) == Publish(board, n2)
  {
    var n1 := PressNotification(entryId, c, first, options);
    var n2 := PressNotification(entryId, c, second, options);
    assert n1.value.notificationId == n2.value.notificationId;
  }
}
