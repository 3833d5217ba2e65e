# Keyboard helper (nvidia-cc-rs) in Dafny

The helper process `nvidia-cc-rs` is spawned by a desktop app. Run as
`<program> listen`, it finds every keyboard under `/dev/input` and monitors
each one. It prints one JSON record per key press and key release on
standard output, naming keys the way the rdev library does ("ControlLeft",
"KeyA", ...). Run as `<program> write <text>`, it types the text through an
accessibility API.

This project models the Linux side of that helper:

- the key-name translator (`KeyNames`), whose fixed table the desktop app
  matches on;
- the output record (`Events`): its `event_type` and `name` fields, and the
  nested `data` string modelled as the payload it encodes;
- the per-device monitor loop (`Monitor`);
- keyboard discovery and the choice of discovery error (`Discovery`);
- the listener's one-device and several-device strategies, with the shared
  counter of active devices (`Listener`);
- argument dispatch and exit codes (`Cli`).

Devices, the directory listing and the accessibility API are inputs:

- a directory listing is a sequence of entries, each carrying what opening
  it returns;
- each keyboard, in discovery order, comes with the fetch results its
  monitor loop will see;
- a write is the outcome the accessibility API returned.

The translator's table is kept in the groups the source lists it in
(modifiers, letters, number row, function keys, special keys, arrows,
punctuation, keypad, others). A key is one of those groups' keys, or `Other`
with its debug identifier.

The monitor loop and the enumeration loop are methods with loop invariants.
Each is proved against a specification function (`Monitor.Run`,
`Discovery.Accepted`, `Discovery.LastPermissionError`), and lemmas about
those functions state the source's promises. The counter of active devices
is a class whose `Valid()` ties the count to the set of devices still running
and to the error record written.

Four behaviours of the code worth knowing, all kept in the model:

- The keyboard test probes only the left Control and left Alt keys (besides A
  and space), not "either control key, either alt key".
- The PermissionDenied / NoKeyboardFound choice is made when no *keyboard* was
  accepted, not only when no device opened. A remembered permission failure
  therefore wins even when other devices opened and were not keyboards.
- A translated name is non-empty for every key except the two degenerate
  debug identifiers "" and "KEY_", whose fallback is the empty string.
- When the only keyboard's monitor fails, the session ends with that error
  but writes no error record to standard output. The desktop app reads
  standard output (main.rs:204-205). With several keyboards, the last failure
  does write the AllDevicesFailed record
  (`Listener.OnlyKeyboardFailureWritesNoErrorRecord`,
  `Listener.AllKeyboardsFailingWritesRecord`). The model keeps this
  asymmetry as written. Whether the app notices the single-keyboard case by
  other means (the exit status, standard error) is outside this model.

## Model

| member | source | states |
|---|---|---|
| KeyNames.RdevName | apps/desktop/nvidia-cc-rs/src/main.rs:67-202 | total translation; for a key outside the table, "KEY_" + name is the debug identifier when it has that prefix, and the name is the identifier itself otherwise |
| KeyNames.RdevNameEmptyIff | apps/desktop/nvidia-cc-rs/src/main.rs:193-200 | the name is empty exactly when the key is untabulated and its debug identifier is "" or "KEY_" (both directions); every tabulated key has a non-empty name |
| KeyNames.IrregularNames | apps/desktop/nvidia-cc-rs/src/main.rs:75-190 | the six irregular names: left Alt is "Alt", right Alt is "AltRight", Enter is "Return", Backspace is "BackSpace", the apostrophe is "Quote" and Fn is "Function" |
| Monitor.EventTypeOf | apps/desktop/nvidia-cc-rs/src/main.rs:328-333 | value 1 gives KeyPress and only 1 does; value 0 gives KeyRelease and only 0 does; every other value (auto-repeat 2 included) gives nothing |
| Monitor.RecordOf | apps/desktop/nvidia-cc-rs/src/main.rs:327-343 | a record exists exactly for key events of value 0 or 1; it is a key record whose name is the key's translation and matches its data key, and it is a press exactly for value 1 |
| Monitor.Emitted | apps/desktop/nvidia-cc-rs/src/main.rs:326-346 | a batch prints at most one record per event, and every record printed is a press or release whose `name` equals its `data` key |
| Monitor.PrintBatch | apps/desktop/nvidia-cc-rs/src/main.rs:326-347 | the inner loop over a fetched batch prints exactly `Emitted` of the batch |
| Monitor.Listen | apps/desktop/nvidia-cc-rs/src/main.rs:322-349 | the monitor loop prints and ends exactly as `Run` of the device's fetches: batch after batch, stopping at the first fetch error with that error |
| Monitor.EmittedAppend | apps/desktop/nvidia-cc-rs/src/main.rs:326-346 | order is kept: the records for a + b are those for a followed by those for b |
| Monitor.SkippedEventVanishes | apps/desktop/nvidia-cc-rs/src/main.rs:327-333 | removing an event that prints nothing (repeat, other value, non-key) leaves the output unchanged |
| Monitor.EveryPressAndReleasePrinted | apps/desktop/nvidia-cc-rs/src/main.rs:327-345 | when every event is a press or release, record i is event i's record |
| Monitor.RunWithoutErrors | apps/desktop/nvidia-cc-rs/src/main.rs:325-348 | while fetches succeed the loop keeps running and prints the records of all events in order across batches |
| Monitor.RunStopsAtFirstError | apps/desktop/nvidia-cc-rs/src/main.rs:326 | the first failed fetch ends the loop with its error after the records of the earlier batches; later fetches are never read |
| Monitor.RunPrintsKeyRecords | apps/desktop/nvidia-cc-rs/src/main.rs:325-348 | everything the monitor loop prints is a press or release record whose name equals its data key |
| Monitor.PressThenReleaseOfA | apps/desktop/nvidia-cc-rs/src/main.rs:329-342 | a press then a release of A print KeyPress then KeyRelease, both named "KeyA" |
| Discovery.IsKeyboardIffProbeKey | apps/desktop/nvidia-cc-rs/src/main.rs:250-253 | a device is a keyboard exactly when its key set is present and contains A, space, left Control or left Alt |
| Discovery.KeyboardExamples | apps/desktop/nvidia-cc-rs/src/main.rs:250-253 | a pointing device, a device with only right-hand modifiers and a device without a key set are not keyboards; space plus left Control is |
| Discovery.Accepted | apps/desktop/nvidia-cc-rs/src/main.rs:237-258 | at most one keyboard per directory entry |
| Discovery.ScanDevices | apps/desktop/nvidia-cc-rs/src/main.rs:237-266 | the enumeration loop yields exactly `Accepted` and `LastPermissionError` of the listing |
| Discovery.AcceptedAppend | apps/desktop/nvidia-cc-rs/src/main.rs:237-258 | keyboards keep enumeration order |
| Discovery.AcceptedMembers | apps/desktop/nvidia-cc-rs/src/main.rs:241-258 | a path is accepted exactly when some entry is an "event" node that opened as a keyboard at that path |
| Discovery.FailedOpenNotFatal | apps/desktop/nvidia-cc-rs/src/main.rs:260-264 | a failed open adds no keyboard and stops nothing; only a permission failure on an event node changes the remembered error, replacing the previous one |
| Discovery.LastPermissionErrorIsLast | apps/desktop/nvidia-cc-rs/src/main.rs:260-264 | an error is remembered exactly when some event node was refused permission, and it names the last such node |
| Discovery.Discover | apps/desktop/nvidia-cc-rs/src/main.rs:229-278 | discovery returns `DiscoveryResult` of the listing and writes the PermissionDenied or NoKeyboardFound record exactly when it fails that way |
| Discovery.PermissionDeniedIff | apps/desktop/nvidia-cc-rs/src/main.rs:269-278 | failure iff no keyboard; PermissionDenied iff no keyboard and some event node was refused permission; NoKeyboardFound iff no keyboard and none was |
| Listener.ActiveCounter.constructor | apps/desktop/nvidia-cc-rs/src/main.rs:290 | the counter starts at the number of keyboards, all running, nothing written |
| Listener.ActiveCounter.DeviceFailed | apps/desktop/nvidia-cc-rs/src/main.rs:296-306 | a failure lowers the counter by exactly one and writes AllDevicesFailed exactly when it reaches zero; the invariant keeps count = devices running |
| Listener.ActiveCounter.AllFailed | apps/desktop/nvidia-cc-rs/src/main.rs:312-317 | the main thread's check is true exactly when no device is running, and then AllDevicesFailed has been written once |
| Listener.Supervise | apps/desktop/nvidia-cc-rs/src/main.rs:288-318 | with n devices failing one by one in any order, the check is false after every failure but the n-th; AllDevicesFailed is written once, only when all have failed |
| Listener.MonitorAll | apps/desktop/nvidia-cc-rs/src/main.rs:288-318 | with several keyboards the session ends, after one AllDevicesFailed record, exactly when every keyboard's monitor loop fails |
| Listener.RunMonitors | apps/desktop/nvidia-cc-rs/src/main.rs:292-308 | after one monitoring thread per keyboard, the devices still counted as running are the survivors of how each monitor loop ended |
| Listener.MonitorThread | apps/desktop/nvidia-cc-rs/src/main.rs:295-306 | a thread runs its device's monitor loop, ending as `Run` of its fetches, and removes the device from the running set exactly when that loop failed |
| Listener.SurvivorsMembers | apps/desktop/nvidia-cc-rs/src/main.rs:296-302 | a device survives exactly when it is one of the keyboards and its monitor has not ended or did not fail |
| Listener.NoneRunningIffAllFail | apps/desktop/nvidia-cc-rs/src/main.rs:312-317 | once every monitor has run, the running set is empty exactly when every keyboard's monitor failed |
| Listener.FatesAt | apps/desktop/nvidia-cc-rs/src/main.rs:292-296 | the recorded endings list each keyboard's own monitor ending, in order |
| Listener.StartKeyboardListener | apps/desktop/nvidia-cc-rs/src/main.rs:221-318 | the listener's records and ending are `SessionOutcome`: the discovery error; with one keyboard, its monitor's key records and error as `Monitor.Listen` produces them; with several, the all-failed error |
| Listener.SessionEndsIff | apps/desktop/nvidia-cc-rs/src/main.rs:269-318 | the session ends exactly on a discovery failure, on the only keyboard's failure, or when all of several keyboards failed; with several keyboards at most the AllDevicesFailed record is written |
| Listener.OneKeyboardPrintsEveryKey | apps/desktop/nvidia-cc-rs/src/main.rs:283-286 | with one keyboard whose fetches succeed, the listener prints a record for every press and release in order across batches and keeps running |
| Listener.OnlyKeyboardFailureWritesNoErrorRecord | apps/desktop/nvidia-cc-rs/src/main.rs:283-286 | when the only keyboard fails, the session ends with that device's error and everything written is a key record, none of type "Error" |
| Listener.AllKeyboardsFailingWritesRecord | apps/desktop/nvidia-cc-rs/src/main.rs:301-305 | when several keyboards all fail, the AllDevicesFailed error record is written and the session ends with "All keyboard devices have stopped" |
| Cli.ParseArgs | apps/desktop/nvidia-cc-rs/src/main.rs:376-394 | listen iff args[1] is "listen"; write iff there are 3+ args and args[1] is "write", with text args[2]; usage otherwise, named args[0] or "speakmcp-rs" |
| Cli.UsageNamesCommands | apps/desktop/nvidia-cc-rs/src/main.rs:394-398 | the usage line names "listen" and "write <text>" for any program name |
| Cli.ExitCode | apps/desktop/nvidia-cc-rs/src/main.rs:376-400 | exit 0 iff a write succeeded, 101 iff it failed, 1 iff usage or a failed listener; no exit while the listener runs |
| Cli.ListenPrintsPressThenReleaseOfA | apps/desktop/nvidia-cc-rs/src/main.rs:376-380 | `<program> listen` with one keyboard reporting a press then a release of A prints KeyPress then KeyRelease, both named "KeyA", and does not exit |
| Cli.Invoke | apps/desktop/nvidia-cc-rs/src/main.rs:373-400 | an invocation writes the listener's records (key records included, with one keyboard) and exits with `ExitCode`, writing usage, "!error: ..." or "Write command failed: ..." to standard error |

## Left out

- The non-Linux path through the rdev library (main.rs:17-58): it depends on that library's event type and debug formatting.
- `write_text` (main.rs:353-371), a thin wrapper over the accessibility library: its outcome is an input of `Cli.Invoke`.
- Device and filesystem I/O: listing `/dev/input`, opening devices, querying supported keys and names, fetching events. These are inputs, not calls. A key outside the table carries its debug identifier as an opaque string.
- Threads, `Arc<AtomicUsize>` and memory orderings: each decrement-and-test of the counter is one indivisible step, applied in any order (`Listener.Supervise`).
- The main thread's 60-second sleep between checks: only the check itself is modelled.
- JSON serialisation and timestamps: a record is its `event_type`, `name` and the payload its `data` string encodes.
- Diagnostic lines on standard error other than those `main` writes: "Found keyboard", "Listening on", "Device ... stopped" and the "!error:" echo of error records.
- Listener.MonitorAll: with several keyboards, the key records each monitoring thread prints are not collected, because their interleaving on standard output depends on thread scheduling. Each monitor's ending is modelled, through `Listener.MonitorThread`, and so is the AllDevicesFailed record.
- Cli.Invoke: with several keyboards, its standard output holds only the AllDevicesFailed record, for the same reason.
- Listener.RunMonitors: the threads run one after another in device order. `Listener.Supervise` covers failures in any order.
- Listener.StartKeyboardListener: a listener that returns success is not represented, because in the source neither strategy returns `Ok`; a session that has not ended is `Running`.
