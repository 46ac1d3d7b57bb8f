/**
 * The menu-bar tray's presentation of the service status: the labels and
 * check marks `apply_status` sets, the directory submenu it rebuilds, the
 * version line, the fallback status used when the first `get_status` fails,
 * and the bridge call each menu entry makes.
 */
module Tray {
  import opened Wrappers
  import opened Json
  import opened Text
  import opened Paths
  import opened Dto
  import opened Commands
  import opened Protocol
  import opened Bridge

  const PAUSE_WATCHING := "Pause Watching"
  const START_WATCHING := "Start Watching"
  const NO_DIRECTORIES_STATUS := "Status: Paused (no directories)"
  const WATCHING_PREFIX := "Status: Watching "
  const PAUSED_STATUS := "Status: Paused"
  const LOADING_STATUS := "Status: Loading\U{2026}"
  const NO_DIRECTORIES_ITEM := "No directories configured"
  const ACTION_FAILED_PREFIX := "Action failed: "

  /** The status the tray starts from when the service cannot be asked. */
  const FALLBACK_STATUS := ServiceStatus(false, [], true, false)

  /** The text of the start/pause entry. */
  function RunLabel(running: bool): string
  {
    if running then PAUSE_WATCHING else START_WATCHING
  }

  /** The text of the status line. */
  function StatusLabel(s: ServiceStatus): string
  {
    var n := |s.directories|;
    if n == 0 then NO_DIRECTORIES_STATUS
    else if s.running then WATCHING_PREFIX + NatToString(n) + " dir" + (if n == 1 then "" else "s")
    else PAUSED_STATUS
  }

  /** What a reader of "Status: Watching N dir(s)" learns: N, and whether the noun is plural. */
  datatype WatchCount = WatchCount(count: nat, plural: bool)

  /** Reads a watching status line back; nothing for any other line. */
  function ReadWatching(line: string): Option<WatchCount>
  {
    var p := |WATCHING_PREFIX|;
    if |line| < p || line[..p] != WATCHING_PREFIX then None
    else
      var rest := line[p..];
      var k := LeadingDigits(rest);
      if k > 0 && (rest[k..] == " dir" || rest[k..] == " dirs") then
        Some(WatchCount(DigitsValue(rest[..k]), rest[k..] == " dirs"))
      else None
  }

  /**
   * The status line: "Status: Paused (no directories)" exactly when the list
   * is empty, whatever `running` says; "Status: Paused" exactly when there are
   * directories and the service is not running; otherwise a watching line
   * that reads back as the number of directories, plural unless it is one.
   */
  lemma {:induction false} StatusLabelMeaning(s: ServiceStatus)
    ensures StatusLabel(s) == NO_DIRECTORIES_STATUS <==> |s.directories| == 0
    ensures StatusLabel(s) == PAUSED_STATUS <==> |s.directories| > 0 && !s.running
    ensures ReadWatching(StatusLabel(s)) ==
      if |s.directories| > 0 && s.running
      then Some(WatchCount(|s.directories|, |s.directories| != 1))
      else None
  {
    var n := |s.directories|;
    var line := StatusLabel(s);
    var p := |WATCHING_PREFIX|;
    if n > 0 && s.running {
      var suffix := " dir" + (if n == 1 then "" else "s");
      assert line == WATCHING_PREFIX + (NatToString(n) + suffix);
      assert line[..p] == WATCHING_PREFIX;
      var rest := line[p..];
      assert rest == NatToString(n) + suffix;
      LeadingDigitsOfNumber(n, suffix);
      var k := |NatToString(n)|;
      assert rest[..k] == NatToString(n);
      assert rest[k..] == suffix;
      DigitsRoundTrip(n);
      assert line != NO_DIRECTORIES_STATUS by { assert line[8] == 'W'; }
      assert line != PAUSED_STATUS by { assert |line| > |PAUSED_STATUS|; }
    } else if n == 0 {
      assert line[..p] != WATCHING_PREFIX by { assert line[8] != WATCHING_PREFIX[8]; }
    } else {
      assert |line| < p;
    }
  }

  /** The start/pause entry offers the opposite of what the service is doing. */
  lemma RunLabelMeaning(running: bool)
    ensures RunLabel(running) == PAUSE_WATCHING <==> running
    ensures RunLabel(running) == START_WATCHING <==> !running
  {
  }

  datatype MenuItem = MenuItem(text: string, enabled: bool)

  /** The directory's file name, or the whole string when it has none. */
  function DisplayName(dir: string): (name: string)
    ensures dir != "" ==> name != ""
    ensures FileName(dir).Some? ==> name == FileName(dir).value && forall i :: 0 <= i < |name| ==> name[i] != '/'
    ensures FileName(dir).None? ==> name == dir
  {
    match FileName(dir)
    case Some(n) => FileNameIsComponent(dir); n
    case None => dir
  }

  /**
   * A directory without a file name is shown whole: the empty string, `.`,
   * `..`, a path of separators only, or one ending in `..`.
   */
  lemma DisplayNameFallback(dir: string, parent: string)
    ensures DisplayName("") == "" && DisplayName(".") == "." && DisplayName("..") == ".."
    ensures (forall i :: 0 <= i < |dir| ==> dir[i] == '/') ==> DisplayName(dir) == dir
    ensures DisplayName(parent + "/..") == parent + "/.."
  {
    NoFileNameOfBareNames();
    NoFileNameOfParentRef(parent);
    if forall i :: 0 <= i < |dir| ==> dir[i] == '/' {
      NoFileNameOfSeparators(dir);
    }
  }

  /** One disabled entry per directory, in order. */
  function DirectoryEntries(dirs: seq<string>): (items: seq<MenuItem>)
    ensures |items| == |dirs|
    ensures forall i :: 0 <= i < |dirs| ==> items[i] == MenuItem(DisplayName(dirs[i]), false)
    decreases |dirs|
  {
    if |dirs| == 0 then [] else [MenuItem(DisplayName(dirs[0]), false)] + DirectoryEntries(dirs[1..])
  }

  /** The directory submenu: a single disabled placeholder when there are none. */
  function DirectoryItems(dirs: seq<string>): seq<MenuItem>
  {
    if |dirs| == 0 then [MenuItem(NO_DIRECTORIES_ITEM, false)] else DirectoryEntries(dirs)
  }

  /**
   * The submenu has one entry per directory in order, each showing the
   * directory's last component, or the placeholder alone; no entry is
   * enabled.
   */
  lemma DirectoryItemsMeaning(dirs: seq<string>)
    ensures |dirs| == 0 ==> DirectoryItems(dirs) == [MenuItem(NO_DIRECTORIES_ITEM, false)]
    ensures |dirs| > 0 ==> |DirectoryItems(dirs)| == |dirs|
    ensures forall i :: 0 <= i < |DirectoryItems(dirs)| ==> !DirectoryItems(dirs)[i].enabled
    ensures forall i, parent, name ::
      (0 <= i < |dirs| && dirs[i] == parent + "/" + name
       && (forall j :: 0 <= j < |name| ==> name[j] != '/') && name != "" && name != "." && name != "..")
      ==> DirectoryItems(dirs)[i].text == name
  {
    forall i, parent, name | 0 <= i < |dirs| && dirs[i] == parent + "/" + name
      && (forall j :: 0 <= j < |name| ==> name[j] != '/') && name != "" && name != "." && name != ".."
      ensures DirectoryItems(dirs)[i].text == name
    {
      FileNameOfChild(parent, name);
    }
  }

  /** The build kind shown after the version. */
  function BuildType(debugAssertions: bool, officialBuild: bool): string
  {
    if debugAssertions then "debug" else if officialBuild then "release" else "local"
  }

  /** `get_version_string`: "v{version} ({build})". */
  function VersionString(version: string, debugAssertions: bool, officialBuild: bool): string
  {
    "v" + version + " (" + BuildType(debugAssertions, officialBuild) + ")"
  }

  predicate EndsWith(s: string, suffix: string)
  {
    |s| >= |suffix| && s[|s| - |suffix|..] == suffix
  }

  /** Reads the build kind back from a version line. */
  function ReadBuildType(line: string): Option<string>
  {
    if EndsWith(line, " (debug)") then Some("debug")
    else if EndsWith(line, " (release)") then Some("release")
    else if EndsWith(line, " (local)") then Some("local")
    else None
  }

  /** Reads the version back from a version line. */
  function ReadVersion(line: string): Option<string>
  {
    match ReadBuildType(line)
    case Some(b) =>
      if |line| >= |b| + 4 && line[0] == 'v' then Some(line[1..|line| - |b| - 3]) else None
    case None => None
  }

  /** The parts of a version line. */
  lemma VersionLineShape(version: string, b: string)
    ensures EndsWith("v" + version + " (" + b + ")", " (" + b + ")")
    ensures ("v" + version + " (" + b + ")")[0] == 'v'
    ensures var line := "v" + version + " (" + b + ")"; line[1..|line| - |b| - 3] == version
  {
    var line := "v" + version + " (" + b + ")";
    var tail := " (" + b + ")";
    assert line == "v" + version + tail;
  }

  /** A line ending in `suffix` shares its next-to-last character. */
  lemma NextToLast(line: string, suffix: string)
    ensures EndsWith(line, suffix) && |suffix| >= 2 ==> line[|line| - 2] == suffix[|suffix| - 2]
  {
    if EndsWith(line, suffix) && |suffix| >= 2 {
      assert line[|line| - |suffix|..][|suffix| - 2] == line[|line| - 2];
    }
  }

  /**
   * The version line names the version and exactly one build kind: debug in
   * a debug build, else release when the official-build flag was set at
   * compile time, else local.
   */
  lemma VersionStringReadsBack(version: string, debugAssertions: bool, officialBuild: bool)
    ensures ReadBuildType(VersionString(version, debugAssertions, officialBuild)) == Some(BuildType(debugAssertions, officialBuild))
    ensures ReadVersion(VersionString(version, debugAssertions, officialBuild)) == Some(version)
    ensures BuildType(debugAssertions, officialBuild) == "debug" <==> debugAssertions
    ensures BuildType(debugAssertions, officialBuild) == "release" <==> !debugAssertions && officialBuild
  {
    var b := BuildType(debugAssertions, officialBuild);
    var line := VersionString(version, debugAssertions, officialBuild);
    VersionLineShape(version, b);
    NextToLast(line, " (" + b + ")");
    NextToLast(line, " (debug)");
    NextToLast(line, " (release)");
  }

  /** The initial status: what `get_status` returned, or the fallback. */
  function InitialStatus(fetched: Result<ServiceStatus>): ServiceStatus
  {
    match fetched
    case Ok(s) => s
    case Err(_) => FALLBACK_STATUS
  }

  /** What a menu entry does. */
  datatype MenuAction = Invoke(command: Command) | ShowMainWindow | Quit | Nothing

  /** The menu handler's dispatch on the entry's id, given the stored status. */
  function MenuCommand(menuId: string, current: ServiceStatus): MenuAction
  {
    match menuId
    case "toggle-running" => Invoke(ToggleRunning(None))
    case "toggle-dry-run" => Invoke(SetDryRun(!current.dryRun))
    case "launch-on-login" => Invoke(SetLaunchOnLogin(!current.launchOnLogin))
    case "undo" => Invoke(Undo)
    case "open-main" => ShowMainWindow
    case "quit" => Quit
    case _ => Nothing
  }

  /**
   * The two check entries ask for the opposite of the stored flag; once the
   * service has applied that, the next click asks for the original value.
   * The run entry lets the service decide.
   */
  lemma MenuTogglesFlip(current: ServiceStatus, after: ServiceStatus)
    ensures MenuCommand("toggle-dry-run", current) == Invoke(SetDryRun(!current.dryRun))
    ensures MenuCommand("launch-on-login", current) == Invoke(SetLaunchOnLogin(!current.launchOnLogin))
    ensures Params(MenuCommand("toggle-dry-run", current).command) == Object(map["enabled" := Bool(!current.dryRun)])
    ensures after.dryRun == MenuCommand("toggle-dry-run", current).command.dryRun ==>
      MenuCommand("toggle-dry-run", after).command.dryRun == current.dryRun
    ensures after.launchOnLogin == MenuCommand("launch-on-login", current).command.launch ==>
      MenuCommand("launch-on-login", after).command.launch == current.launchOnLogin
    ensures Params(MenuCommand("toggle-running", current).command) == Object(map[])
  {
  }

  /**
   * The outcome of a menu action. `reply` is the bridge's raw reply to the
   * invoked command; the wrapper then decodes it as its own result type, so a
   * reply of the wrong shape fails the action too. Other entries succeed.
   */
  function ActionOutcome(action: MenuAction, reply: Result<Value>): (r: Result<Value>)
    ensures r.Err? <==> action.Invoke? && (reply.Err? || !ExpectedShape(action.command, reply.value))
    ensures action.Invoke? && reply.Err? ==> r == reply
    ensures action.Invoke? && reply.Ok? && !ExpectedShape(action.command, reply.value) ==> r == Err(UNEXPECTED_SHAPE)
  {
    if !action.Invoke? then Ok(Null)
    else match reply
      case Err(e) => Err(e)
      case Ok(v) => if ExpectedShape(action.command, v) then Ok(v) else Err(UNEXPECTED_SHAPE)
  }

  /**
   * The worker's well-formed answers to the menu's calls are accepted; a
   * `setLaunchOnLogin` answered by anything but a boolean fails the action.
   */
  lemma MenuRepliesTyped(current: ServiceStatus, s: ServiceStatus, u: UndoResult, v: Value)
    ensures ActionOutcome(MenuCommand("toggle-running", current), Ok(StatusToValue(s))).Ok?
    ensures ActionOutcome(MenuCommand("toggle-dry-run", current), Ok(StatusToValue(s))).Ok?
    ensures ActionOutcome(MenuCommand("launch-on-login", current), Ok(Bool(!current.launchOnLogin))).Ok?
    ensures ActionOutcome(MenuCommand("undo", current), Ok(UndoToValue(u))).Ok?
    ensures !v.Bool? ==> ActionOutcome(MenuCommand("launch-on-login", current), Ok(v)) == Err(UNEXPECTED_SHAPE)
  {
    StatusRoundTrip(s);
    UndoRoundTrip(u);
  }

  /** The toast raised after a failed menu action; nothing after a successful one. */
  function FailureToast(outcome: Result<Value>): (t: Option<Notice>)
    ensures t.Some? <==> outcome.Err?
    ensures outcome.Err? ==> t.value.name == TOAST_EVENT
    ensures outcome.Err? ==> StrField(t.value.payload, "level") == Some("error")
    ensures outcome.Err? ==> StrField(t.value.payload, "message") == Some(ACTION_FAILED_PREFIX + outcome.error)
  {
    match outcome
    case Ok(_) => None
    case Err(e) => Some(Notice(TOAST_EVENT, Object(map["message" := Str(ACTION_FAILED_PREFIX + e), "level" := Str("error")])))
  }

  /** A submenu whose entries are replaced in place. */
  class Submenu {
    var items: seq<MenuItem>

    constructor ()
      ensures items == []
    {
      items := [];
    }

    /** `rebuild_directories`: remove every entry, then append the new ones in order. */
    method Rebuild(dirs: seq<string>)
      modifies this
      ensures items == DirectoryItems(dirs)
    {
      var existing := items;
      var k := 0;
      while k < |existing|
        invariant 0 <= k <= |existing|
        invariant items == existing[k..]
      {
        items := items[1..];
        k := k + 1;
      }
      if |dirs| == 0 {
        items := items + [MenuItem(NO_DIRECTORIES_ITEM, false)];
      } else {
        for i := 0 to |dirs|
          invariant |items| == i
          invariant forall j :: 0 <= j < i ==> items[j] == MenuItem(DisplayName(dirs[j]), false)
        {
          items := items + [MenuItem(DisplayName(dirs[i]), false)];
        }
        assert items == DirectoryEntries(dirs);
      }
    }
  }

  /** The tray's state: the stored status and what the menu shows. */
  class TrayState {
    var currentStatus: ServiceStatus
    var runLabel: string
    var statusLabel: string
    var dryRunChecked: bool
    var launchOnLoginChecked: bool
    const directories: Submenu

    /** The menu shows `s`, and `s` is the stored status. */
    ghost predicate Shows(s: ServiceStatus)
      reads this, directories
    {
      && currentStatus == s
      && runLabel == RunLabel(s.running)
      && statusLabel == StatusLabel(s)
      && dryRunChecked == s.dryRun
      && launchOnLoginChecked == s.launchOnLogin
      && directories.items == DirectoryItems(s.directories)
    }

    /** `init_tray`: start from the fetched status, or the fallback when fetching failed. */
    constructor (fetched: Result<ServiceStatus>)
      ensures Shows(InitialStatus(fetched))
      ensures fresh(directories)
    {
      directories := new Submenu();
      currentStatus := InitialStatus(fetched);
      runLabel := START_WATCHING;
      statusLabel := LOADING_STATUS;
      dryRunChecked := true;
      launchOnLoginChecked := false;
      new;
      ApplyStatus(currentStatus);
    }

    /** `apply_status`: store `s`, then set every line, check mark and directory entry from it. */
    method ApplyStatus(s: ServiceStatus)
      modifies this, directories
      ensures Shows(s)
    {
      currentStatus := s;
      runLabel := RunLabel(s.running);
      dryRunChecked := s.dryRun;
      launchOnLoginChecked := s.launchOnLogin;
      statusLabel := StatusLabel(s);
      directories.Rebuild(s.directories);
    }

    /** `status`: the status last stored. */
    method Status() returns (s: ServiceStatus)
      ensures s == currentStatus
    {
      s := currentStatus;
    }

    /** After a menu action: a fetched status is shown; a failed fetch changes nothing. */
    method Refresh(fetched: Result<ServiceStatus>)
      modifies this, directories
      ensures fetched.Ok? ==> Shows(fetched.value)
      ensures fetched.Err? ==> unchanged(this) && unchanged(directories)
    {
      if fetched.Ok? {
        ApplyStatus(fetched.value);
      }
    }

    /**
     * The status listener: a payload that parses and decodes as a status is
     * shown; any other is ignored.
     */
    method OnStatusEvent(payload: Parse)
      modifies this, directories
      ensures payload.Parsed? && StatusFromValue(payload.message).Some? ==> Shows(StatusFromValue(payload.message).value)
      ensures payload.Unparsable? || StatusFromValue(payload.message).None? ==> unchanged(this) && unchanged(directories)
    {
      if payload.Parsed? {
        match StatusFromValue(payload.message)
        case Some(s) => ApplyStatus(s);
        case None =>
      }
    }

    /**
     * The rest of a menu click, once its action has run: raise a toast if it
     * failed, then show the status fetched afterwards (whatever the action's
     * outcome), or keep the menu as it is when that fetch failed.
     */
    method AfterAction(action: MenuAction, reply: Result<Value>, fetched: Result<ServiceStatus>)
      returns (toast: Option<Notice>)
      modifies this, directories
      ensures toast == FailureToast(ActionOutcome(action, reply))
      ensures fetched.Ok? ==> Shows(fetched.value)
      ensures fetched.Err? ==> unchanged(this) && unchanged(directories)
    {
      toast := FailureToast(ActionOutcome(action, reply));
      Refresh(fetched);
    }

    /** A menu click: the action is chosen from the entry's id and the stored status. */
    method MenuClicked(menuId: string) returns (a: MenuAction)
      ensures a == MenuCommand(menuId, currentStatus)
    {
      var current := Status();
      a := MenuCommand(menuId, current);
    }
  }

  /**
   * When the first `get_status` fails the tray shows: not running, no
   * directories, dry run checked, launch on login unchecked.
   */
  lemma FallbackPresentation(e: string)
    ensures InitialStatus(Err(e)) == FALLBACK_STATUS
    ensures RunLabel(InitialStatus(Err(e)).running) == START_WATCHING
    ensures StatusLabel(InitialStatus(Err(e))) == NO_DIRECTORIES_STATUS
    ensures DirectoryItems(InitialStatus(Err(e)).directories) == [MenuItem(NO_DIRECTORIES_ITEM, false)]
    ensures InitialStatus(Err(e)).dryRun && !InitialStatus(Err(e)).launchOnLogin
  {
  }
}
