/**
 * The records the bridge hands upward (`ServiceStatus`, `Profile`,
 * `UndoResult`, and the `Vec<String>` of directories), with their
 * JSON encodings as serde's derived `Serialize` writes them (field renames
 * included) and the decoders serde's derived `Deserialize` applies to a
 * JSON object.
 */
module Dto {
  import opened Wrappers
  import opened Json

  /** Rust's `i32`. */
  newtype i32 = x: int | -0x8000_0000 <= x < 0x8000_0000

  datatype ServiceStatus = ServiceStatus(
    running: bool,
    directories: seq<string>,
    dryRun: bool,
    launchOnLogin: bool)

  datatype Profile = Profile(
    id: string,
    name: string,
    enabled: bool,
    pattern: string,
    isRegex: Option<bool>,
    template: string,
    prefix: string,
    priority: i32,
    action: Option<string>)

  /** A `Vec<String>` as a JSON array of strings. */
  function StringsToValue(ss: seq<string>): (v: Value)
    ensures v.Array? && |v.items| == |ss|
    ensures forall i :: 0 <= i < |ss| ==> v.items[i] == Str(ss[i])
  {
    Array(seq(|ss|, i requires 0 <= i < |ss| => Str(ss[i])))
  }

  /** A JSON array decodes to a `Vec<String>` when every item is a string. */
  function StringsFromItems(items: seq<Value>): (r: Option<seq<string>>)
    ensures r.Some? <==> forall i :: 0 <= i < |items| ==> items[i].Str?
    ensures r.Some? ==> |r.value| == |items| && forall i :: 0 <= i < |items| ==> items[i] == Str(r.value[i])
    decreases |items|
  {
    if |items| == 0 then Some([])
    else match (items[0], StringsFromItems(items[1..]))
      case (Str(s), Some(rest)) => Some([s] + rest)
      case _ => None
  }

  function StringsFromValue(v: Value): Option<seq<string>>
  {
    if v.Array? then StringsFromItems(v.items) else None
  }

  function BoolFrom(f: Option<Value>): Option<bool>
  {
    match f
    case Some(Bool(b)) => Some(b)
    case _ => None
  }

  function StringFrom(f: Option<Value>): Option<string>
  {
    match f
    case Some(Str(s)) => Some(s)
    case _ => None
  }

  /** An `Option<T>` field: missing or `null` is `None`. */
  function OptionalBoolFrom(f: Option<Value>): Option<Option<bool>>
  {
    match f
    case None => Some(None)
    case Some(Null) => Some(None)
    case Some(Bool(b)) => Some(Some(b))
    case _ => None
  }

  function OptionalStringFrom(f: Option<Value>): Option<Option<string>>
  {
    match f
    case None => Some(None)
    case Some(Null) => Some(None)
    case Some(Str(s)) => Some(Some(s))
    case _ => None
  }

  function I32From(f: Option<Value>): Option<i32>
  {
    match f
    case Some(Int(i)) => if -0x8000_0000 <= i < 0x8000_0000 then Some(i as i32) else None
    case _ => None
  }

  /** `ServiceStatus` as serde writes it: keys `running`, `directories`, `dryRun`, `launchOnLogin`. */
  function StatusToValue(s: ServiceStatus): Value
  {
    Object(map[
      "running" := Bool(s.running),
      "directories" := StringsToValue(s.directories),
      "dryRun" := Bool(s.dryRun),
      "launchOnLogin" := Bool(s.launchOnLogin)])
  }

  /** `serde_json::from_value::<ServiceStatus>`: all four fields required, other keys ignored. */
  function StatusFromValue(v: Value): Option<ServiceStatus>
  {
    if !v.Object? then None
    else
      var running := BoolFrom(Get(v, "running"));
      var directories := match Get(v, "directories")
        case Some(d) => StringsFromValue(d)
        case None => None;
      var dryRun := BoolFrom(Get(v, "dryRun"));
      var launchOnLogin := BoolFrom(Get(v, "launchOnLogin"));
      if running.Some? && directories.Some? && dryRun.Some? && launchOnLogin.Some? then
        Some(ServiceStatus(running.value, directories.value, dryRun.value, launchOnLogin.value))
      else None
  }

  lemma StringsRoundTrip(ss: seq<string>)
    ensures StringsFromValue(StringsToValue(ss)) == Some(ss)
  {
    var r := StringsFromItems(StringsToValue(ss).items);
    assert r.Some?;
    assert r.value == ss;
  }

  /** Decoding what was encoded gives the status back. */
  lemma StatusRoundTrip(s: ServiceStatus)
    ensures StatusFromValue(StatusToValue(s)) == Some(s)
  {
    StringsRoundTrip(s.directories);
  }

  /** `Profile` as serde writes it: `isRegex` is always written (`null` when absent); `action` only when present. */
  function ProfileToValue(p: Profile): Value
  {
    var fields := map[
      "id" := Str(p.id),
      "name" := Str(p.name),
      "enabled" := Bool(p.enabled),
      "pattern" := Str(p.pattern),
      "isRegex" := (match p.isRegex case Some(b) => Bool(b) case None => Null),
      "template" := Str(p.template),
      "prefix" := Str(p.prefix),
      "priority" := Int(p.priority as int)];
    Object(if p.action.Some? then fields["action" := Str(p.action.value)] else fields)
  }

  /** `serde_json::from_value::<Profile>`: `isRegex` and `action` may be missing or `null`. */
  function ProfileFromValue(v: Value): Option<Profile>
  {
    if !v.Object? then None
    else
      var id := StringFrom(Get(v, "id"));
      var name := StringFrom(Get(v, "name"));
      var enabled := BoolFrom(Get(v, "enabled"));
      var pattern := StringFrom(Get(v, "pattern"));
      var isRegex := OptionalBoolFrom(Get(v, "isRegex"));
      var template := StringFrom(Get(v, "template"));
      var prefix := StringFrom(Get(v, "prefix"));
      var priority := I32From(Get(v, "priority"));
      var action := OptionalStringFrom(Get(v, "action"));
      if id.Some? && name.Some? && enabled.Some? && pattern.Some? && isRegex.Some?
        && template.Some? && prefix.Some? && priority.Some? && action.Some?
      then
        Some(Profile(id.value, name.value, enabled.value, pattern.value, isRegex.value,
          template.value, prefix.value, priority.value, action.value))
      else None
  }

  /** Decoding what was encoded gives the profile back, with or without an action. */
  lemma ProfileRoundTrip(p: Profile)
    ensures ProfileFromValue(ProfileToValue(p)) == Some(p)
  {
    ProfileTextFields(p);
    ProfileOtherFields(p);
  }

  lemma ProfileTextFields(p: Profile)
    ensures Get(ProfileToValue(p), "id") == Some(Str(p.id))
    ensures Get(ProfileToValue(p), "name") == Some(Str(p.name))
    ensures Get(ProfileToValue(p), "pattern") == Some(Str(p.pattern))
    ensures Get(ProfileToValue(p), "template") == Some(Str(p.template))
    ensures Get(ProfileToValue(p), "prefix") == Some(Str(p.prefix))
  {
  }

  lemma ProfileOtherFields(p: Profile)
    ensures Get(ProfileToValue(p), "enabled") == Some(Bool(p.enabled))
    ensures OptionalBoolFrom(Get(ProfileToValue(p), "isRegex")) == Some(p.isRegex)
    ensures Get(ProfileToValue(p), "priority") == Some(Int(p.priority as int))
    ensures OptionalStringFrom(Get(ProfileToValue(p), "action")) == Some(p.action)
  {
  }

  /** A profile without an action is written without an `action` key at all. */
  lemma AbsentActionIsOmitted(p: Profile)
    ensures p.action.None? <==> "action" !in ProfileToValue(p).fields
  {
  }

  /** `UndoResult`: whether the last rename was undone, and why not. */
  datatype UndoResult = UndoResult(ok: bool, reason: Option<string>)

  /** `UndoResult` as serde writes it: `reason` is written as `null` when absent. */
  function UndoToValue(u: UndoResult): Value
  {
    Object(map["ok" := Bool(u.ok), "reason" := (match u.reason case Some(t) => Str(t) case None => Null)])
  }

  /** `serde_json::from_value::<UndoResult>`: `ok` required, `reason` may be missing or `null`. */
  function UndoFromValue(v: Value): Option<UndoResult>
  {
    if !v.Object? then None
    else
      var ok := BoolFrom(Get(v, "ok"));
      var reason := OptionalStringFrom(Get(v, "reason"));
      if ok.Some? && reason.Some? then Some(UndoResult(ok.value, reason.value)) else None
  }

  /** Decoding what was encoded gives the undo result back. */
  lemma UndoRoundTrip(u: UndoResult)
    ensures UndoFromValue(UndoToValue(u)) == Some(u)
  {
  }

  /** A JSON value decodes as `Vec<Profile>`. */
  predicate IsProfileList(v: Value)
  {
    v.Array? && forall i :: 0 <= i < |v.items| ==> ProfileFromValue(v.items[i]).Some?
  }
}
