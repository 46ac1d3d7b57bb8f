/**
 * The typed wrappers around `invoke`: each names a worker method and shapes
 * its parameters. `ReadCommand` is the worker's reading of an envelope, an
 * independent reference that the shaping is checked against.
 */
module Commands {
  import opened Wrappers
  import opened Json
  import opened Dto
  import opened Protocol

  datatype Command =
    | GetStatus
    | ToggleRunning(desired: Option<bool>)
    | ListDirectories
    | SetLaunchOnLogin(launch: bool)
    | SetDryRun(dryRun: bool)
    | AddWatchDir(addDir: string)
    | RemoveWatchDir(removeDir: string)
    | Undo
    | GetProfiles
    | GetProfile(getId: string)
    | SetProfile(profile: Profile)
    | DeleteProfile(deleteId: string)
    | ToggleProfile(toggleId: string, enabled: Option<bool>)
    | ReorderProfiles(orderedIds: seq<string>)

  function MethodName(c: Command): string
  {
    match c
    case GetStatus => "getStatus"
    case ToggleRunning(_) => "toggleRunning"
    case ListDirectories => "listDirectories"
    case SetLaunchOnLogin(_) => "setLaunchOnLogin"
    case SetDryRun(_) => "setDryRun"
    case AddWatchDir(_) => "addWatchDir"
    case RemoveWatchDir(_) => "removeWatchDir"
    case Undo => "undo"
    case GetProfiles => "getProfiles"
    case GetProfile(_) => "getProfile"
    case SetProfile(_) => "setProfile"
    case DeleteProfile(_) => "deleteProfile"
    case ToggleProfile(_, _) => "toggleProfile"
    case ReorderProfiles(_) => "reorderProfiles"
  }

  /** An `Option<bool>` as `json!` writes it: `null` when absent. */
  function OptionalBool(b: Option<bool>): Value
  {
    match b
    case Some(f) => Bool(f)
    case None => Null
  }

  function Params(c: Command): Value
  {
    match c
    case GetStatus => Null
    // an empty object, not null, when no state is asked for
    case ToggleRunning(desired) =>
      if desired.Some? then Object(map["desired" := Bool(desired.value)]) else Object(map[])
    case ListDirectories => Null
    case SetLaunchOnLogin(enabled) => Object(map["enabled" := Bool(enabled)])
    case SetDryRun(enabled) => Object(map["enabled" := Bool(enabled)])
    case AddWatchDir(directory) => Object(map["directory" := Str(directory)])
    case RemoveWatchDir(directory) => Object(map["directory" := Str(directory)])
    case Undo => Null
    case GetProfiles => Null
    case GetProfile(id) => Object(map["id" := Str(id)])
    case SetProfile(profile) => Object(map["profile" := ProfileToValue(profile)])
    case DeleteProfile(id) => Object(map["id" := Str(id)])
    // here an absent flag IS written, as null
    case ToggleProfile(id, enabled) => Object(map["id" := Str(id), "enabled" := OptionalBool(enabled)])
    case ReorderProfiles(ids) => Object(map["orderedIds" := StringsToValue(ids)])
  }

  /** The worker's reading of a request: the method name selects the command, the params its arguments. */
  function ReadCommand(methodName: string, params: Value): Option<Command>
  {
    match methodName
    case "getStatus" => if params == Null then Some(GetStatus) else None
    case "toggleRunning" =>
      (match Get(params, "desired")
       case None => if params.Object? then Some(ToggleRunning(None)) else None
       case Some(Bool(b)) => Some(ToggleRunning(Some(b)))
       case _ => None)
    case "listDirectories" => if params == Null then Some(ListDirectories) else None
    case "setLaunchOnLogin" => BoolFrom(Get(params, "enabled")).Map(b => SetLaunchOnLogin(b))
    case "setDryRun" => BoolFrom(Get(params, "enabled")).Map(b => SetDryRun(b))
    case "addWatchDir" => StringFrom(Get(params, "directory")).Map(d => AddWatchDir(d))
    case "removeWatchDir" => StringFrom(Get(params, "directory")).Map(d => RemoveWatchDir(d))
    case "undo" => if params == Null then Some(Undo) else None
    case "getProfiles" => if params == Null then Some(GetProfiles) else None
    case "getProfile" => StringFrom(Get(params, "id")).Map(id => GetProfile(id))
    case "setProfile" => ReadSetProfile(params)
    case "deleteProfile" => StringFrom(Get(params, "id")).Map(id => DeleteProfile(id))
    case "toggleProfile" =>
      (match (StringFrom(Get(params, "id")), OptionalBoolFrom(Get(params, "enabled")))
       case (Some(id), Some(enabled)) => Some(ToggleProfile(id, enabled))
       case _ => None)
    case "reorderProfiles" =>
      (match Get(params, "orderedIds")
       case Some(ids) => StringsFromValue(ids).Map(s => ReorderProfiles(s))
       case None => None)
    case _ => None
  }

  predicate IsProfileCommand(c: Command)
  {
    c.GetProfiles? || c.GetProfile? || c.SetProfile? || c.DeleteProfile? || c.ToggleProfile? || c.ReorderProfiles?
  }

  /** The `profile` param of a `setProfile` request. */
  function ReadSetProfile(params: Value): Option<Command>
  {
    match Get(params, "profile")
    case Some(p) => ProfileFromValue(p).Map(q => SetProfile(q))
    case None => None
  }

  lemma SetProfileRoundTrip(p: Profile)
    ensures ReadSetProfile(Params(SetProfile(p))) == Some(SetProfile(p))
  {
    ProfileRoundTrip(p);
  }

  /** Every request the wrappers build is read back by the worker as the command it came from. */
  lemma CommandRoundTrip(c: Command)
    ensures ReadCommand(MethodName(c), Params(c)) == Some(c)
  {
    if IsProfileCommand(c) {
      ProfileCommandRoundTrip(c);
    } else {
      ServiceCommandRoundTrip(c);
    }
  }

  lemma ServiceCommandRoundTrip(c: Command)
    requires !IsProfileCommand(c)
    ensures ReadCommand(MethodName(c), Params(c)) == Some(c)
  {
  }

  lemma ProfileCommandRoundTrip(c: Command)
    requires IsProfileCommand(c)
    ensures ReadCommand(MethodName(c), Params(c)) == Some(c)
  {
    if c.GetProfiles? || c.GetProfile? || c.DeleteProfile? {
      ProfileQueryRoundTrip(c);
    } else {
      ProfileUpdateRoundTrip(c);
    }
  }

  lemma ProfileQueryRoundTrip(c: Command)
    requires c.GetProfiles? || c.GetProfile? || c.DeleteProfile?
    ensures ReadCommand(MethodName(c), Params(c)) == Some(c)
  {
  }

  lemma ProfileUpdateRoundTrip(c: Command)
    requires c.SetProfile? || c.ToggleProfile? || c.ReorderProfiles?
    ensures ReadCommand(MethodName(c), Params(c)) == Some(c)
  {
    match c
    case SetProfile(p) => SetProfileCommandRoundTrip(p);
    case ReorderProfiles(ids) => ReorderCommandRoundTrip(ids);
    case ToggleProfile(id, enabled) => ToggleProfileCommandRoundTrip(id, enabled);
  }

  lemma SetProfileCommandRoundTrip(p: Profile)
    ensures ReadCommand(MethodName(SetProfile(p)), Params(SetProfile(p))) == Some(SetProfile(p))
  {
    SetProfileRoundTrip(p);
  }

  lemma ReorderCommandRoundTrip(ids: seq<string>)
    ensures ReadCommand(MethodName(ReorderProfiles(ids)), Params(ReorderProfiles(ids))) == Some(ReorderProfiles(ids))
  {
    StringsRoundTrip(ids);
  }

  lemma ToggleProfileCommandRoundTrip(id: string, enabled: Option<bool>)
    ensures ReadCommand(MethodName(ToggleProfile(id, enabled)), Params(ToggleProfile(id, enabled)))
      == Some(ToggleProfile(id, enabled))
  {
  }

  /**
   * `toggle_running(None)` sends `{}`, never `null`, so the worker's default
   * applies; `toggle_running(Some(f))` sends `{"desired": f}`. By contrast
   * `toggle_profile` with no flag writes `"enabled": null`.
   */
  lemma OmittedFlagEncodings(id: string, desired: Option<bool>)
    ensures Params(ToggleRunning(desired)) != Null && Params(ToggleRunning(desired)).Object?
    ensures "desired" in Params(ToggleRunning(desired)).fields <==> desired.Some?
    ensures desired.None? ==> Params(ToggleRunning(desired)) == Object(map[])
    ensures desired.Some? ==> Params(ToggleRunning(desired)).fields["desired"] == Bool(desired.value)
    ensures Params(ToggleProfile(id, None)).fields["enabled"] == Null
  {
  }

  /**
   * Whether a successful reply decodes as the type the wrapper for `c` asks
   * `invoke` for: a status, a list of directories, a flag, an undo result, a
   * list of profiles, or an optional profile.
   */
  predicate ExpectedShape(c: Command, v: Value)
  {
    match c
    case GetStatus => StatusFromValue(v).Some?
    case ToggleRunning(_) => StatusFromValue(v).Some?
    case SetDryRun(_) => StatusFromValue(v).Some?
    case ListDirectories => StringsFromValue(v).Some?
    case AddWatchDir(_) => StringsFromValue(v).Some?
    case RemoveWatchDir(_) => StringsFromValue(v).Some?
    case SetLaunchOnLogin(_) => v.Bool?
    case Undo => UndoFromValue(v).Some?
    case GetProfile(_) => v == Null || ProfileFromValue(v).Some?
    case GetProfiles => IsProfileList(v)
    case SetProfile(_) => IsProfileList(v)
    case DeleteProfile(_) => IsProfileList(v)
    case ToggleProfile(_, _) => IsProfileList(v)
    case ReorderProfiles(_) => IsProfileList(v)
  }

  /**
   * The request line `invoke` writes for a wrapper's call carries the id as a
   * `u64`, the method name, and params the worker reads back as that call.
   */
  lemma RequestReadBack(id: nat, c: Command)
    requires id < U64_LIMIT
    ensures U64Field(RequestToValue(Envelope(id, MethodName(c), Params(c))), "id") == Some(id)
    ensures StrField(RequestToValue(Envelope(id, MethodName(c), Params(c))), "method") == Some(MethodName(c))
    ensures ReadCommand(MethodName(c), FieldOrNull(RequestToValue(Envelope(id, MethodName(c), Params(c))), "params")) == Some(c)
  {
    CommandRoundTrip(c);
  }
}
