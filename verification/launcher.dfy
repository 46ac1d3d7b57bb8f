/**
 * How the bridge finds what it launches: the Node.js binary (`node_command`)
 * and the bridge script (`resolve_bridge_script`). The environment, the
 * `which` search and the file system are parameters: `present(p)` stands for
 * `Path::new(p).exists()`.
 */
module Launcher {
  import opened Wrappers
  import opened Paths

  /** The fixed install locations tried when neither the override nor `which` finds Node. */
  const NODE_FALLBACKS: seq<string> := ["/usr/local/bin/node", "/opt/homebrew/bin/node", "/usr/bin/node"]
  const VOLTA_NODE := ".volta/bin/node"
  const NODE_NOT_FOUND := "Node.js binary not found. Ensure Node is installed or set NAMEFIX_NODE."

  const SCRIPT_RESOURCES: seq<string> := ["service-bridge.mjs", "resources/service-bridge.mjs"]
  const SCRIPT_FALLBACK := "resources/service-bridge.mjs"
  const SCRIPT_NOT_FOUND := "service bridge script not found"

  /** The index of the first path that exists, if any. */
  function FirstPresent(paths: seq<string>, present: string -> bool): (r: Option<nat>)
    ensures r.Some? ==> r.value < |paths| && present(paths[r.value])
    ensures r.Some? ==> forall j :: 0 <= j < r.value ==> !present(paths[j])
    ensures r.None? ==> forall j :: 0 <= j < |paths| ==> !present(paths[j])
    decreases |paths|
  {
    if |paths| == 0 then None
    else if present(paths[0]) then Some(0)
    else match FirstPresent(paths[1..], present)
      case Some(i) => Some(i + 1)
      case None => None
  }

  /** The fallback locations in order; the Volta one only when `HOME` is set. */
  function NodeCandidates(home: Option<string>): seq<string>
  {
    NODE_FALLBACKS + (if home.Some? then [Join(home.value, VOLTA_NODE)] else [])
  }

  /**
   * `node_command`: the `NAMEFIX_NODE` variable if set, else what `which node`
   * finds, else the first existing fallback location, else an error.
   */
  function NodeCommand(nodeEnv: Option<string>, whichNode: Option<string>, home: Option<string>,
                       present: string -> bool): Result<string>
  {
    if nodeEnv.Some? then Ok(nodeEnv.value)
    else if whichNode.Some? then Ok(whichNode.value)
    else
      var candidates := NodeCandidates(home);
      match FirstPresent(candidates, present)
      case Some(i) => Ok(candidates[i])
      case None => Err(NODE_NOT_FOUND)
  }

  /** The resolution order of `node_command`, with the failure case. */
  lemma NodeCommandOrder(nodeEnv: Option<string>, whichNode: Option<string>, home: Option<string>,
                         present: string -> bool)
    ensures nodeEnv.Some? ==> NodeCommand(nodeEnv, whichNode, home, present) == Ok(nodeEnv.value)
    ensures nodeEnv.None? && whichNode.Some? ==> NodeCommand(nodeEnv, whichNode, home, present) == Ok(whichNode.value)
    ensures nodeEnv.None? && whichNode.None? ==>
      var cs := NodeCandidates(home);
      && (NodeCommand(nodeEnv, whichNode, home, present).Err? <==> forall j :: 0 <= j < |cs| ==> !present(cs[j]))
      && (NodeCommand(nodeEnv, whichNode, home, present).Err? ==> NodeCommand(nodeEnv, whichNode, home, present).error == NODE_NOT_FOUND)
      && (NodeCommand(nodeEnv, whichNode, home, present).Ok? ==>
            exists k :: 0 <= k < |cs| && NodeCommand(nodeEnv, whichNode, home, present).value == cs[k]
              && present(cs[k]) && forall j :: 0 <= j < k ==> !present(cs[j]))
  {
    if nodeEnv.None? && whichNode.None? {
      var cs := NodeCandidates(home);
      var r := FirstPresent(cs, present);
      if r.Some? {
        assert NodeCommand(nodeEnv, whichNode, home, present).value == cs[r.value];
      }
    }
  }

  /** The candidate list is the three fixed locations, then `$HOME/.volta/bin/node`. */
  lemma NodeCandidatesOrder(home: Option<string>)
    ensures NodeCandidates(home)[..3] == ["/usr/local/bin/node", "/opt/homebrew/bin/node", "/usr/bin/node"]
    ensures home.None? ==> |NodeCandidates(home)| == 3
    ensures home.Some? ==> |NodeCandidates(home)| == 4 && NodeCandidates(home)[3] == Join(home.value, VOLTA_NODE)
    ensures home.Some? && home.value != "" && home.value[|home.value| - 1] != '/' ==>
      NodeCandidates(home)[3] == home.value + "/.volta/bin/node"
  {
  }

  /** A resource candidate is usable when it resolves to a path that exists. */
  predicate Usable(name: string, resolve: string -> Option<string>, present: string -> bool)
  {
    resolve(name).Some? && present(resolve(name).value)
  }

  /** `names[k]` is the first usable candidate. */
  predicate FirstUsableAt(names: seq<string>, k: nat, resolve: string -> Option<string>, present: string -> bool)
  {
    k < |names| && Usable(names[k], resolve, present)
    && forall j :: 0 <= j < k ==> !Usable(names[j], resolve, present)
  }

  /** The path of the first usable resource candidate, if any. */
  function FirstResolved(names: seq<string>, resolve: string -> Option<string>,
                         present: string -> bool): (r: Option<string>)
    ensures r.Some? ==> exists k: nat :: FirstUsableAt(names, k, resolve, present) && resolve(names[k]) == Some(r.value)
    ensures r.None? ==> forall k :: 0 <= k < |names| ==> !Usable(names[k], resolve, present)
    decreases |names|
  {
    if |names| == 0 then None
    else
      var p := resolve(names[0]);
      if Usable(names[0], resolve, present) then p
      else
        var r := FirstResolved(names[1..], resolve, present);
        assert r.Some? ==> exists k: nat :: FirstUsableAt(names, k, resolve, present) && resolve(names[k]) == Some(r.value) by {
          if r.Some? {
            var k: nat :| FirstUsableAt(names[1..], k, resolve, present) && resolve(names[1..][k]) == Some(r.value);
            assert names[k + 1] == names[1..][k];
            forall j | 0 <= j < k + 1 ensures !Usable(names[j], resolve, present) {
              if j > 0 { assert names[j] == names[1..][j - 1]; }
            }
            assert FirstUsableAt(names, k + 1, resolve, present);
          }
        }
        assert r.None? ==> forall k :: 1 <= k < |names| ==> !Usable(names[k], resolve, present) by {
          if r.None? {
            forall k | 1 <= k < |names| ensures !Usable(names[k], resolve, present) {
              assert names[k] == names[1..][k - 1];
            }
          }
        }
        r
  }

  /**
   * `resolve_bridge_script`: the packaged resource `service-bridge.mjs`, then
   * `resources/service-bridge.mjs`, each only if it resolves and exists; then
   * `resources/service-bridge.mjs` under the crate's manifest directory; else
   * an error. `resolve` stands for the host's resource-path lookup.
   */
  function ResolveBridgeScript(resolve: string -> Option<string>, manifestDir: string,
                               present: string -> bool): (r: Result<string>)
    // a usable resource wins, and the first one in order
    ensures (exists k :: 0 <= k < |SCRIPT_RESOURCES| && Usable(SCRIPT_RESOURCES[k], resolve, present)) ==>
      exists k: nat :: FirstUsableAt(SCRIPT_RESOURCES, k, resolve, present) && r == Ok(resolve(SCRIPT_RESOURCES[k]).value)
    // the fallback is consulted only when no resource is usable
    ensures (forall k :: 0 <= k < |SCRIPT_RESOURCES| ==> !Usable(SCRIPT_RESOURCES[k], resolve, present)) ==>
      (present(Join(manifestDir, SCRIPT_FALLBACK)) ==> r == Ok(Join(manifestDir, SCRIPT_FALLBACK)))
      && (!present(Join(manifestDir, SCRIPT_FALLBACK)) ==> r == Err(SCRIPT_NOT_FOUND))
    ensures r.Ok? ==> present(r.value)
  {
    match FirstResolved(SCRIPT_RESOURCES, resolve, present)
    case Some(p) => Ok(p)
    case None =>
      var fallback := Join(manifestDir, SCRIPT_FALLBACK);
      if present(fallback) then Ok(fallback) else Err(SCRIPT_NOT_FOUND)
  }
}
