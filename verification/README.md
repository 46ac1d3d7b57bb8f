# namefix menu-bar bridge and tray, modelled in Dafny

The namefix menu-bar application is a Tauri host that never renames
anything itself. It launches a Node.js worker (`service-bridge.mjs`) and
talks to it over newline-delimited JSON on the worker's standard streams.
It calls the worker with `{"id", "method", "params"}` requests, routes
`{"id", "result"|"error"}` responses back to the waiting callers, and
re-broadcasts `{"event", "payload"}` notifications. The tray menu shows the
service status it obtains through that bridge and turns clicks into bridge
calls.

This project models both halves.

- **Bridge** (`bridge.rs`)
  - The correlation table of pending calls and the id counter.
  - The one-way "dead" fuse.
  - The reader loop's handling of each line.
  - Timeouts, write failures and the end-of-stream drain.
  - The event broadcast.
  - The typed request wrappers and their JSON encodings.
  - How the Node binary and the bridge script are located.
- **Tray** (`tray.rs`)
  - The labels, check marks and directory submenu derived from a `ServiceStatus`.
  - The version line.
  - The fallback status when the first `getStatus` fails.
  - The menu dispatch, the failure toast and the post-action refresh.
  - The status listener.

Modules:

| file | module | models |
|---|---|---|
| `wrappers.dfy` | `Wrappers` | `Option`, `Result` |
| `json.dfy` | `Json` | JSON values (`serde_json::Value`) and field access |
| `text.dfy` | `Text` | Rust's `char::is_whitespace`, decimal `format!` of a count, and reading digits back |
| `paths.dfy` | `Paths` | `Path::file_name` and `PathBuf::join` on `/`-separated strings |
| `dto.dfy` | `Dto` | `ServiceStatus`, `Profile`, `UndoResult` and `Vec<String>` with their serde encodings |
| `protocol.dfy` | `Protocol` | the wire format and the reader loop's decision on one line |
| `commands.dfy` | `Commands` | the typed wrappers' method names and params |
| `launcher.dfy` | `Launcher` | `node_command` and `resolve_bridge_script` |
| `bridge.dfy` | `Bridge` | `NodeBridge`: the table, the counter, the fuse, the reader, timeouts |
| `scenarios.dfy` | `Scenarios` | whole interleavings of calls, reader steps and timeouts |
| `tray.dfy` | `Tray` | the tray menu's state and its dispatch |

`NodeBridge` is a class. Its methods are the steps the concurrent tasks take:
- `Register`, then `Write`, then `Receive` or `Timeout`, for a call;
- `HandleLine` and `ReaderExit` for the reader.

Each step keeps `Valid()` and leaves the registrations of other calls in place, so the steps can run in any order their preconditions allow. `Valid()` says the following:
- every id is below the counter;
- no id is answered twice;
- nothing still in the table has been answered;
- every call that is registered or waiting either still has its slot or has been answered;
- every request line was written once, and is exactly the request its call registered (a ghost map `registered` records each call's request by id);
- once the reader has ended, the fuse is set and the table is empty.

Replies are kept in a log (`delivered`), and a call takes its reply from it.

## Model

| member | source | states |
|---|---|---|
| `Bridge.NodeBridge.constructor` | apps/menu-bar/src-tauri/src/bridge.rs:47-55 | a new bridge has an empty table, a counter starting at 1 and an intact fuse |
| `Bridge.NodeBridge.Register` | apps/menu-bar/src-tauri/src/bridge.rs:168-182 | a blown fuse fails the call at once with the "Background service disconnected" text and changes nothing; otherwise the call takes the current counter value as its id, the counter goes up by one, and the id, new to the table and to every log, gets a slot; the request built from that id, method and params is recorded as the call's own |
| `Bridge.NodeBridge.Write` | apps/menu-bar/src-tauri/src/bridge.rs:183-191 | only the request its own call registered can be written; a successful write appends that request and the call goes on to wait; a failed write sets the fuse, removes and fails only the call's own slot with the disconnect text, and leaves every other slot in place |
| `Bridge.NodeBridge.Timeout` | apps/menu-bar/src-tauri/src/bridge.rs:207-212 | a timed-out call removes only its own slot, returns "Bridge request timed out" and does not touch the fuse |
| `Bridge.NodeBridge.Receive` | apps/menu-bar/src-tauri/src/bridge.rs:194-202 | a waiting call whose slot was answered gets exactly the reply logged for its id |
| `Bridge.NodeBridge.HandleLine` | apps/menu-bar/src-tauri/src/bridge.rs:69-130 | one reader step, by the line's class. Blank and unroutable lines change nothing. An event is appended to the broadcast. A response removes its id's slot and delivers its reply, or is dropped when no slot is left. An unparsable line fails every pending call with "bridge parse error: …". The fuse and the counter never change |
| `Bridge.NodeBridge.Sent` | apps/menu-bar/src-tauri/src/bridge.rs:183-192 | a written request is appended to the request log once, and its call moves from "registered" to "waiting" |
| `Bridge.NodeBridge.Broadcast` | apps/menu-bar/src-tauri/src/bridge.rs:102-105 | an event is appended to the broadcast, and the table, the replies and the fuse stay as they were |
| `Bridge.NodeBridge.Deliver` | apps/menu-bar/src-tauri/src/bridge.rs:113-119 | a response takes its id's slot out of the table and delivers its reply there once; with no slot left the reply is dropped and nothing changes |
| `Bridge.NodeBridge.DrainPending` | apps/menu-bar/src-tauri/src/bridge.rs:123-128 | the table ends empty and every id that was pending gets exactly one failure reply with the given text |
| `Bridge.NodeBridge.ReaderExit` | apps/menu-bar/src-tauri/src/bridge.rs:133-154 | the fuse is set; every pending call fails with "Bridge sidecar disconnected"; one error toast "Background service disconnected. Please restart the app." is emitted |
| `Bridge.NodeBridge.Subscribe` | apps/menu-bar/src-tauri/src/bridge.rs:216-218 | a receiver starts at the current end of the broadcast, so it sees nothing published before it subscribed |
| `Bridge.DrainReplies` | apps/menu-bar/src-tauri/src/bridge.rs:124-127 | draining a table yields exactly one reply per id in it, all failures with the same text, none repeated, in any order |
| `Bridge.AppendDeliveries` | apps/menu-bar/src-tauri/src/bridge.rs:113-119 | appending replies for ids not yet answered keeps the rule that each id is answered at most once |
| `Bridge.AppendWritten` | apps/menu-bar/src-tauri/src/bridge.rs:178-183 | writing a request whose id is new to the log keeps every id written at most once |
| `Bridge.DrainKeepsTable` | apps/menu-bar/src-tauri/src/bridge.rs:123-128 | after a drain the table invariant still holds with an empty table: no call loses track of its reply |
| `Bridge.ReplyTo` | apps/menu-bar/src-tauri/src/bridge.rs:117-119 | the reply looked up for an id is one that was logged for that id, and there is one exactly when the id was answered |
| `Bridge.StatusReply` | apps/menu-bar/src-tauri/src/bridge.rs:195-202 | `get_status`'s typed result: a worker error passes through unchanged; a success is a status exactly when the value decodes as one, and then it is that decoded status |
| `Protocol.EventRoundTrip` | apps/menu-bar/src-tauri/src/bridge.rs:75-105 | every event line the worker writes is published with its name and payload unchanged |
| `Protocol.ResponseRoundTrip` | apps/menu-bar/src-tauri/src/bridge.rs:106-111 | every response the worker writes for an id that fits in a u64 routes that id with that reply |
| `Protocol.BlankLineIgnored` | apps/menu-bar/src-tauri/src/bridge.rs:70-72 | a whitespace-only line is skipped, whatever a parser would make of it |
| `Protocol.EventTakesPrecedence` | apps/menu-bar/src-tauri/src/bridge.rs:75-76 | a string `event` is looked at before `id`, and a missing payload becomes `null` |
| `Protocol.ResponseReply` | apps/menu-bar/src-tauri/src/bridge.rs:106-111 | a response fails exactly when it has an `error` key: with the error's text if it is a string, else with "unknown bridge error"; otherwise it succeeds with `result`, or `null` when that is missing |
| `Protocol.UnparsableFailsAll` | apps/menu-bar/src-tauri/src/bridge.rs:122-128 | a nonblank line that does not parse fails every pending call with the parser's message after "bridge parse error: " |
| `Protocol.UnroutedExactly` | apps/menu-bar/src-tauri/src/bridge.rs:75-120 | valid JSON is dropped exactly when it has neither a string `event` nor a u64 `id`; a negative id, for example, routes nowhere |
| `Dto.StatusRoundTrip` | apps/menu-bar/src-tauri/src/bridge.rs:302-310 | decoding the encoding of a `ServiceStatus`, with the `dryRun` and `launchOnLogin` renames, gives the status back |
| `Dto.StringsRoundTrip` | apps/menu-bar/src-tauri/src/bridge.rs:324-326 | a list of strings decodes back to itself |
| `Dto.StringsFromItems` | apps/menu-bar/src-tauri/src/bridge.rs:324-326 | decoding a JSON array as `Vec<String>` succeeds exactly when every item is a string, and keeps their order |
| `Dto.ProfileRoundTrip` | apps/menu-bar/src-tauri/src/bridge.rs:358-371 | decoding the encoding of a `Profile` gives it back, whether or not `isRegex` and `action` are present |
| `Dto.UndoRoundTrip` | apps/menu-bar/src-tauri/src/bridge.rs:348-356 | an `UndoResult` decodes back from its encoding, with or without a reason |
| `Dto.AbsentActionIsOmitted` | apps/menu-bar/src-tauri/src/bridge.rs:369-370 | a profile without an action is written with no `action` key at all |
| `Commands.CommandRoundTrip` | apps/menu-bar/src-tauri/src/bridge.rs:312-400 | every request the fourteen typed wrappers build reads back, by method name and params, as the call it came from |
| `Commands.RequestReadBack` | apps/menu-bar/src-tauri/src/bridge.rs:178-182 | the request line built for a call carries its id, its method name and params from which the worker reads back the same call |
| `Commands.OmittedFlagEncodings` | apps/menu-bar/src-tauri/src/bridge.rs:316-322 | `toggle_running(None)` sends `{}`, never `null`; `toggle_running(Some(f))` sends `{"desired": f}`; `toggle_profile` with no flag sends `"enabled": null` (bridge.rs:392-395) |
| `Launcher.NodeCommandOrder` | apps/menu-bar/src-tauri/src/bridge.rs:257-285 | the command is `NAMEFIX_NODE` if set, else what `which node` found, else the first existing fallback location; it fails with the "Node.js binary not found" text exactly when none exists |
| `Launcher.NodeCandidatesOrder` | apps/menu-bar/src-tauri/src/bridge.rs:267-276 | the fallbacks are /usr/local/bin/node, /opt/homebrew/bin/node, /usr/bin/node and, only when HOME is set, `$HOME/.volta/bin/node` |
| `Launcher.FirstPresent` | apps/menu-bar/src-tauri/src/bridge.rs:278-282 | the index found is that of an existing path with no existing path before it; none is found exactly when no path exists |
| `Launcher.FirstResolved` | apps/menu-bar/src-tauri/src/bridge.rs:241-247 | the script found is the resolution of the first candidate, in the listed order, that both resolves and exists; none is found exactly when no candidate does |
| `Launcher.ResolveBridgeScript` | apps/menu-bar/src-tauri/src/bridge.rs:235-255 | the script is the first resource, in the listed order, that resolves and exists; only when there is none is it the manifest-directory fallback, if that exists; it fails with "service bridge script not found" exactly when neither exists |
| `Paths.FileNameOfChild` | apps/menu-bar/src-tauri/src/tray.rs:234-239 | a directory `parent/name` is shown as `name` |
| `Paths.FileNameIsComponent` | apps/menu-bar/src-tauri/src/tray.rs:234-239 | a file name that is found is a nonempty segment without a separator, and not `.` or `..` |
| `Paths.TrailingSeparatorIgnored` | apps/menu-bar/src-tauri/src/tray.rs:234-239 | a trailing `/` does not change the file name |
| `Paths.Join` | apps/menu-bar/src-tauri/src/bridge.rs:275 | joining keeps the base as a prefix and the relative path as a suffix; a `/` is put between them exactly when the base is nonempty and does not already end in `/`, and nothing else is added |
| `Paths.NoFileNameOfBareNames` | apps/menu-bar/src-tauri/src/tray.rs:234-239 | the empty path, `.` and `..` have no file name |
| `Paths.NoFileNameOfSeparators` | apps/menu-bar/src-tauri/src/tray.rs:234-239 | a path made only of separators, such as `/`, has no file name |
| `Paths.NoFileNameOfParentRef` | apps/menu-bar/src-tauri/src/tray.rs:234-239 | a path ending in `/..` has no file name |
| `Paths.CurrentDirSkipped` | apps/menu-bar/src-tauri/src/tray.rs:234-239 | a trailing `/.` is skipped: `dir/.` has the file name of `dir` |
| `Text.DigitsRoundTrip` | apps/menu-bar/src-tauri/src/tray.rs:61 | the decimal text of a count reads back as that count |
| `Text.NatToString` | apps/menu-bar/src-tauri/src/tray.rs:61 | a count is written as a nonempty string of digits without a leading zero |
| `Tray.StatusLabelMeaning` | apps/menu-bar/src-tauri/src/tray.rs:58-65 | the status line reads "Paused (no directories)" exactly when the list is empty, whatever `running` says; "Paused" exactly when there are directories but the service is not running; otherwise "Watching N dir(s)", read back as the number of directories, with the plural unless N is 1 |
| `Tray.RunLabelMeaning` | apps/menu-bar/src-tauri/src/tray.rs:53-54 | the run entry reads "Pause Watching" exactly when the service is running |
| `Tray.DirectoryEntries` | apps/menu-bar/src-tauri/src/tray.rs:233-243 | one disabled entry per directory, in order, showing its file name, or the whole string when it has none |
| `Tray.DirectoryItemsMeaning` | apps/menu-bar/src-tauri/src/tray.rs:228-244 | an empty list gives the single disabled "No directories configured" entry; otherwise there is one entry per directory, none enabled, and `parent/name` shows as `name` |
| `Tray.DisplayName` | apps/menu-bar/src-tauri/src/tray.rs:234-239 | a directory with a file name shows as that name, which holds no separator; one without shows as the whole string; a nonempty directory never shows as an empty entry |
| `Tray.DisplayNameFallback` | apps/menu-bar/src-tauri/src/tray.rs:234-239 | the empty string, `.`, `..`, `/` (or any run of separators) and `parent/..` are shown whole |
| `Tray.VersionStringReadsBack` | apps/menu-bar/src-tauri/src/tray.rs:24-34 | the version line "v{version} ({build})" reads back as the version and the build kind; the build is "debug" exactly in a debug build, and "release" exactly in a non-debug build with the official-build flag set |
| `Tray.FallbackPresentation` | apps/menu-bar/src-tauri/src/tray.rs:189-190 | when the first `getStatus` fails, the tray shows not running, no directories, dry run checked and launch on login unchecked |
| `Tray.MenuTogglesFlip` | apps/menu-bar/src-tauri/src/tray.rs:122-141 | the dry-run and launch-on-login entries ask for the opposite of the stored flag, so a second click after the service applied the first asks for the original value; the run entry sends `{}` and lets the service decide |
| `Tray.ActionOutcome` | apps/menu-bar/src-tauri/src/tray.rs:122-154 | only an entry that invokes a bridge call can fail; it fails exactly when the worker answered with an error, which passes through unchanged, or with a value that does not decode as the wrapper's return type (bridge.rs:197), which fails with a fixed decoding-error text (serde's own message is not modelled) |
| `Tray.MenuRepliesTyped` | apps/menu-bar/src-tauri/src/tray.rs:122-141 | well-typed replies to the run, dry-run and undo entries succeed, and a non-boolean reply to the launch-on-login entry fails |
| `Tray.FailureToast` | apps/menu-bar/src-tauri/src/tray.rs:156-163 | a toast is raised exactly when the action failed; it is an error-level `service://toast` whose message is "Action failed: " followed by the error |
| `Tray.Submenu.Rebuild` | apps/menu-bar/src-tauri/src/tray.rs:222-247 | after every old entry is removed, the submenu holds exactly the entries for the new list |
| `Tray.TrayState.constructor` | apps/menu-bar/src-tauri/src/tray.rs:76-206 | the new tray shows the fetched status, or the fallback status when fetching failed |
| `Tray.TrayState.ApplyStatus` | apps/menu-bar/src-tauri/src/tray.rs:49-69 | the stored status, the run label, both check marks, the status line and the directory submenu all agree with the new status |
| `Tray.TrayState.Status` | apps/menu-bar/src-tauri/src/tray.rs:71-73 | returns the status stored last |
| `Tray.TrayState.Refresh` | apps/menu-bar/src-tauri/src/tray.rs:168-184 | a fetched status is shown; a failed fetch leaves the menu untouched |
| `Tray.TrayState.AfterAction` | apps/menu-bar/src-tauri/src/tray.rs:156-184 | after any click, a failed action raises its toast, and the status is then refetched and shown whatever the action's outcome |
| `Tray.TrayState.OnStatusEvent` | apps/menu-bar/src-tauri/src/tray.rs:208-220 | a `service://status` payload that parses and decodes as a status is shown; any other payload is ignored |
| `Tray.TrayState.MenuClicked` | apps/menu-bar/src-tauri/src/tray.rs:122-154 | the action is chosen from the entry's id and the status stored at the time of the click |
| `Scenarios.GetStatusAnswered` | apps/menu-bar/src-tauri/src/bridge.rs:312-314 | `getStatus` answered with a status's encoding yields that status |
| `Scenarios.ToggleRunningRejected` | apps/menu-bar/src-tauri/src/bridge.rs:106-119 | an error response fails only its own call, with the worker's text; the other call in flight keeps its slot |
| `Scenarios.EndOfStream` | apps/menu-bar/src-tauri/src/bridge.rs:133-145 | at end of stream both waiting calls fail with "Bridge sidecar disconnected", and a later call fails at once without writing anything |
| `Scenarios.ParseFault` | apps/menu-bar/src-tauri/src/bridge.rs:122-129 | a parse error fails the call in flight with the parser's message, but does not set the fuse, so the next call is accepted |
| `Scenarios.LateReplyDropped` | apps/menu-bar/src-tauri/src/bridge.rs:207-212 | a reply that arrives after its call timed out is dropped, and the other call still gets its own reply |
| `Scenarios.WriteFailure` | apps/menu-bar/src-tauri/src/bridge.rs:183-191 | a failed write sets the fuse and fails only its own call; the call already waiting can still be answered, and later calls fail at once |
| `Scenarios.ReaderBetweenRegisterAndWrite` | apps/menu-bar/src-tauri/src/bridge.rs:167-199 | a call registered before the reader ended still writes: a failed write fails it with the disconnect text, and a successful write finds its slot already failed with "Bridge sidecar disconnected"; the fuse is set either way |
| `Scenarios.NoReplay` | apps/menu-bar/src-tauri/src/bridge.rs:216-218 | a receiver sees the events published after it subscribed, and none from before |

## Left out

- JSON text is not modelled. Serializing a request to a line, and parsing a line into a `Value` or a parser error, are inputs of the model (`Parse`). So is the text of serde's error messages.
- Process spawning, the pipes, the 10-second clock and logging become steps and parameters:
  - `Write`'s `ok` flag says whether the write succeeded;
  - `Timeout` may happen to any waiting call;
  - reading a line, end of stream and a read error become the arguments of `HandleLine` and `ReaderExit`.
- The file system and environment are parameters of `NodeCommand` and `ResolveBridgeScript`: path existence, `NAMEFIX_NODE`, `HOME`, `which node` and the host's resource lookup.
- `Bridge.NodeBridge.Register`: the `fetch_add` on a 64-bit counter does not wrap in the model. Ids are unbounded naturals, because 2^64 calls are out of reach.
- `Bridge.NodeBridge.Register`: the fuse check (bridge.rs:168) and the slot insertion (bridge.rs:175-176) are one atomic step here. In the source they are separated by `pending.lock().await`.
  - So in the source a call can pass the check, and then insert its slot after `ReaderExit` has drained the table. That slot stays until the call times out or its write fails.
  - The model does not capture that race. Its invariant "once the reader has ended, the table is empty" holds only because `Register` is atomic.
  - A call that registered before the fuse was set can still write afterwards, in the model as in the source, because `Write` is a separate step (`Scenarios.ReaderBetweenRegisterAndWrite`).
- `Bridge.NodeBridge.Timeout`: this is allowed for any waiting call, including one whose reply was delivered just before the deadline's removal. That reply is then lost, as in the source.
- The "bridge channel closed" outcome cannot happen in the model. A slot is only ever removed together with sending on it, or by its own call.
- Broadcast details are not modelled:
  - the channel's capacity of 32 and the lag error a slow receiver gets;
  - the `init_bridge` task that re-emits every event as `service://<name>`.
- `shutdown`: the graceful `shutdown` request (bridge.rs:224) is an ordinary call, covered by `Register`, `Write`, `Receive` and `Timeout` with its result ignored; on a dead bridge it fails at once. Only the 200 ms sleep and the kill of the child process (bridge.rs:227-231) are left out, as process I/O.
- Typed decoding is modelled for every wrapper's return type (`Commands.ExpectedShape`): `ServiceStatus`, `Vec<String>`, `bool`, `UndoResult`, `Option<Profile>` and `Vec<Profile>`. Left out of it:
  - serde's alternative array form for structs;
  - rejection of duplicate keys.
- `Commands.ReadCommand` is a reference decoder that stands for the worker's reading of requests. The worker script is not part of this model.
- The tray's use of the host toolkit is not modelled. The menu builder, the icon, window showing and `exit(0)` are left out, and so are errors from `set_text`/`append`. `Tray.TrayState.ApplyStatus` assumes every menu update succeeds.
- The `app_handle.state::<TrayState>()` lookups in the menu handler are not modelled: the model assumes the tray is managed once built. `MenuCommand` dispatches on the ids as written, including `"quit"`.
- `tray_icon_image` is not modelled: it is floating-point pixel drawing with no behaviour to state.
- `ipc.rs`, `main.rs` and `build.rs` are not part of this model.
