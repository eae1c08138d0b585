# update-broker, modelled in Dafny

A model of the core of `update-broker`, a daemon that tells other processes on the
host whether a pending update needs a reboot. The signal it watches is a sentinel
file (by default `/var/run/reboot-required`): while the file exists a reboot is
needed. The daemon publishes that fact on the D-Bus system bus under
`com.coreos.update1`. It answers `GetStatus` calls and broadcasts a `StatusUpdate`
signal whenever inotify reports the file created or deleted.

The model is pure and functional. Everything the daemon reads from outside
becomes an input:

- The wall clock and the `lsb_release -r -s` result are a per-snapshot `Env`.
- The existence of the sentinel file at query time is a boolean.
- The answers of the bus, the event loop and inotify during start-up are a `Platform` record of outcomes.
- The interleaving of the run phase is a trace of `Happening`s, folded by a pure step function.

| file | module | models |
|---|---|---|
| `wrappers.dfy` | `Wrappers` | `Option`, `Result`, `Outcome` |
| `io.dfy` | `Io` | the kind and message of `std::io::Error` |
| `paths.dfy` | `Paths` | `Path::file_name`, `Path::parent`, the default sentinel path |
| `status.dfy` | `Status` | `UpdateStatus` and its wire strings, plus a client-side parser as their inverse |
| `clock.dfy` | `Clock` | the epoch-millisecond conversion, both as written and corrected |
| `release.dfy` | `Release` | `version()`: right-trimming `lsb_release` output, with the `"0.0.0"` fallback |
| `indications.dfy` | `Indications` | `UpdateStatusIndication` and `new`, `from_inotify_event`, `from_path` |
| `notifier.dfy` | `Notifier` | watch set-up and the filter / map / for_each event pipeline |
| `server.dfy` | `Server` | the status payload, `status_changed`, the three method handlers |
| `engine.dfy` | `Engine` | the start-up sequence, the run-phase race, and the exit status |

## Model

| member | source | states |
|---|---|---|
| Status.WireName | src/update_status.rs:37-48 | every status dereferences to a fixed string that starts with `UPDATE_STATUS_` |
| Status.WireNameRoundTrip | src/update_status.rs:37-48 | a client that parses a wire string gets back exactly the status that produced it |
| Status.WireNameInjective | src/update_status.rs:37-48 | two statuses with the same wire string are the same status |
| Status.WireNamesPairwiseDistinct | src/update_status.rs:23-48 | the enumeration has exactly eight variants, each of which is in the mapping, and their eight strings are pairwise distinct |
| Indications.New | src/update_status.rs:61-69 | a new snapshot has progress 0 and size 0, the requested status, the clock reading and the release version |
| Indications.FromInotifyEvent | src/update_status.rs:91-101 | there is a snapshot exactly for create or delete events; it reports a reboot as needed exactly for a create, so create wins when both flags are set; it always reports `Idle` or `UpdatedNeedReboot` |
| Indications.FromPath | src/update_status.rs:103-111 | the snapshot reports `UpdatedNeedReboot` exactly when the sentinel file exists, and `Idle` otherwise |
| Indications.EventAgreesWithPath | src/update_status.rs:91-111 | the snapshot for a create equals `from_path` with the file present; for a delete, with the file absent; any other event gives none |
| Indications.CreateTakesPrecedence | src/update_status.rs:93-99 | an event that is both a creation and a deletion yields `UpdatedNeedReboot` |
| Indications.LastCheckedTimeMillis | src/update_status.rs:86-90 | the result is the number of whole milliseconds in the time since the epoch, and it fits in an i64 |
| Clock.Millis | src/update_status.rs:86-90 | the millisecond count is the floor of the elapsed nanoseconds divided by 10^6, within the i64 range |
| Clock.MillisMonotone | src/update_status.rs:86-90 | a later clock reading never gives fewer milliseconds |
| Clock.MillisAsWritten | src/update_status.rs:86-90 | the code as written forms the nanosecond count in wrapping u64 arithmetic; its result stays below 2^64 / 10^6 |
| Clock.MillisAsWrittenAgreesBeforeWrap | src/update_status.rs:86-90 | while the nanosecond count is below 2^64, the code as written equals secs * 1000 + nanos div 10^6 |
| Clock.MillisAsWrittenRunsBackwards | src/update_status.rs:86-90 | at second 18446744074 the code as written drops from 18446744073709 ms to 290 ms |
| Release.TrimEnd | src/update_status.rs:79-81 | trimming keeps a prefix that does not end in whitespace and cuts off only whitespace |
| Release.TrimEndUnique | src/update_status.rs:79-81 | those three properties determine the trimmed string |
| Release.TrimEndIdempotent | src/update_status.rs:79-81 | trimming twice is the same as trimming once |
| Release.Version | src/update_status.rs:71-84 | if the command cannot run or its output is not UTF-8, the version is `"0.0.0"`; otherwise it is the output with trailing whitespace removed |
| Release.VersionExamples | src/update_status.rs:71-84 | `"16.04\n"` gives `"16.04"`; whitespace-only output gives the empty string; both failures give `"0.0.0"` |
| Release.ComputeVersion | src/update_status.rs:76-83 | measuring the trimmed length and truncating to it computes `Version` |
| Paths.FileName | src/update_status.rs:136-138 | there is a file name exactly when the last component is a normal name, and it is that name |
| Paths.Parent | src/update_status.rs:123 | the parent exists exactly when there is a component to strip, and adding that component back gives the path |
| Paths.FileNameHasParent | src/update_status.rs:122-146 | a path with a file name always has a parent, so for such a path the `add_watch` parent check cannot fail |
| Paths.DefaultSentinelIsValid | src/main.rs:34 | the default path `/var/run/reboot-required` has file name `reboot-required` and parent `/var/run` |
| Notifier.AddWatch | src/update_status.rs:122-134 | with no parent the result is `NotFound` "Invalid path to reboot sentinel file"; otherwise it watches exactly the parent directory, or returns the inotify error |
| Notifier.NewWatch | src/update_status.rs:140-171 | with no file name the result is the invalid-path error; otherwise it fails with the init error or the add-watch error, in that order; on success it watches the parent for create and delete, filtered by the file name |
| Notifier.NoParentIsRejected | src/update_status.rs:122-171 | a path without a parent directory is always rejected with the invalid-path error |
| Notifier.FilterByName | src/update_status.rs:150 | the filter keeps every event whose name is the sentinel's file name and only those, all from the input; a stream of only such events is kept whole |
| Notifier.ToIndications | src/update_status.rs:152-153 | each event is mapped, in position, to its `from_inotify_event` result |
| Notifier.Delivered | src/update_status.rs:159-164 | the consumer receives every present snapshot and nothing else; with no absent one, one call per event |
| Notifier.Notify | src/update_status.rs:150-164 | every snapshot handed to the consumer is `Idle` or `UpdatedNeedReboot`, with zero progress and size |
| Notifier.FilterByNameAppend | src/update_status.rs:150 | the filter keeps order: filtering two stretches of events is filtering each and concatenating |
| Notifier.DeliveredAppend | src/update_status.rs:159-164 | the consumer is called in stream order: the calls for two stretches are the first's followed by the second's |
| Notifier.NotifyAppend | src/update_status.rs:150-164 | the pipeline preserves order: the calls for two stretches of events are the calls for the first followed by those for the second |
| Notifier.NotifySingle | src/update_status.rs:150-164 | one event gives one call if it names the sentinel and is a create or a delete, and no call otherwise |
| Notifier.NotifyIgnoresSiblings | src/update_status.rs:150 | inserting an event for another entry of the directory anywhere in the stream changes no call |
| Notifier.NotifyCount | src/update_status.rs:150-164 | the consumer is called exactly once per retained create or delete event |
| Notifier.NotifyOnlySentinel | src/update_status.rs:150 | a stream with no event for the sentinel's name never reaches the consumer |
| Notifier.DriveWatch | src/update_status.rs:158-164 | the loop over the stream makes the pipeline's calls; the future fails exactly when the stream fails, and with that error |
| Server.StatusArgs | src/server.rs:96-110 | the five payload values have the declared types `xdssx` of both the reply and the signal, every integer fits an i64, and a client decodes the snapshot from them |
| Server.StatusChanged | src/server.rs:30-41 | the broadcast is a `StatusUpdate` signal from `/com/coreos/update1` on `com.coreos.update1.Manager`, and a client decodes the snapshot from it |
| Server.Broadcast | src/server.rs:42-45 | a broadcast always completes; it sends the `status_changed` signal and only records whether the send succeeded |
| Server.Handle | src/server.rs:81-117 | `GetStatus` replies with the payload of `from_path`; `AttemptUpdate` and `ResetStatus` fail with `Failed` "Not implemented"; nothing else is handled |
| Server.GetStatusReportsSentinel | src/server.rs:88-110 | the reply has the declared signature and reports `UpdatedNeedReboot` exactly when the file exists at call time |
| Server.SignalMatchesReplyDeclaration | src/server.rs:70-110 | the signal and the reply declare the same five arguments, of types i64, f64, string, string, i64, in the same order |
| Engine.RunStep | src/server.rs:51-176 | each step succeeds exactly when its call does; a failed connection, name or tree registration, or watch scheduling returns an `Other` error with the step's context prepended; a failure to create the first event loop or to set up the watch returns that error unchanged; a failed second event loop, attach or message stream panics |
| Engine.RunSteps | src/server.rs:51-176 | the steps run in order, and the steps that ran are a prefix; every step but the last succeeded, the last one's result is the outcome, and success means all steps ran |
| Engine.StartupFailureStopsEverything | src/server.rs:51-176 | when step k is the first to fail, `engine` returns that step's error, steps after k never run, and nothing is served or broadcast |
| Engine.StoppedAtFirstFailure | src/server.rs:51-176 | the start-up stops exactly at the first step that does not succeed |
| Engine.Engine | src/server.rs:49-188 | a start-up error is returned with nothing served; a start-up panic stops; otherwise the run phase watches the sentinel's file name |
| Engine.Advance | src/server.rs:139-186 | once the run has ended nothing changes; replies and broadcasts are only appended; a closed watch never reopens; the run ends exactly on a SIGTERM, a signal or bus stream end, or a watch failure while watching, with `Ok`, "Error running server" or exit 1 accordingly; only calls reply and only inotify events broadcast |
| Engine.Run | src/server.rs:139-186 | over any trace, a decided run stays as it is, replies and broadcasts only grow, and a closed watch stays closed |
| Engine.DecidedIsFinal | src/server.rs:177-186 | once the run has ended, no later event changes anything: no second SIGTERM, no reply, no signal |
| Engine.QuietKeepsServing | src/server.rs:139-142 | bus messages and sentinel events alone never end the run or stop the watch |
| Engine.UndecidedKeepsServing | src/server.rs:161-186 | without a SIGTERM, an end of the bus stream or a watch failure, the broker keeps serving, even after the inotify stream has closed quietly |
| Engine.FirstOfRaceDecides | src/server.rs:177-186 | the first of a SIGTERM and the end of the bus stream decides the run, whether or not the inotify stream closed quietly before: a SIGTERM or a closed stream returns `Ok`; a failure returns "Error running server" |
| Engine.WatchFailureExits | src/server.rs:161-168 | if the watch stream fails while the daemon is still serving, the process exits with status 1 |
| Engine.RunEndsAreReachable | src/server.rs:161-186 | a run only exits with status 1, and only ever returns `Ok` or "Error running server" |
| Engine.EmissionsFollowNotify | src/server.rs:144-161 | the signals broadcast are exactly those for the notifier pipeline's snapshots of the events taken, in order |
| Engine.SendFailuresAreSwallowed | src/server.rs:42-45 | whether sends succeed changes neither the replies, nor the signals attempted, nor how the run ends |
| Engine.CallsOnlyReply | src/server.rs:136-142 | bus messages never end the server loop and never broadcast; each handled message is answered, in order |
| Engine.ExitCode | src/main.rs:52-62 | exit status 0 exactly when `engine` returned `Ok`; 1 when it returned an error; none while still serving |
| Engine.CleanShutdownOnSigTerm | src/server.rs:177-186 | after a successful start-up, a SIGTERM that comes before any other end of the run or watch failure makes the process exit with 0, also after the inotify stream closed |
| Engine.ExitCodes | src/main.rs:52-59 | every modelled execution that stops exits with 0, 1, or 101 for a start-up panic; a SIGTERM before the handler is installed is outside the model |

## Findings

| source | as written | input that shows it | evidently intended | confidence | as-written member | corrected member |
|---|---|---|---|---|---|---|
| src/update_status.rs:86-90 | `last_checked_time_millis` computes `10^9 * secs + nanos` in `u64`. A release build wraps that modulo 2^64; a debug build panics. | At 18446744074 s after the epoch (in the year 2554) the result is 290 ms. One nanosecond earlier it is 18446744073709 ms (`Clock.MillisAsWrittenRunsBackwards`). | The whole milliseconds since the epoch: `secs * 1000 + nanos div 10^6`, never decreasing (`Clock.MillisMonotone`). | medium; not executed | Clock.MillisAsWritten | Clock.Millis |

The snapshots and payloads in the rest of the model use `Clock.Millis`. The two
versions agree on every reading before the wrap point
(`Clock.MillisAsWrittenAgreesBeforeWrap`).

## Behaviour of the code worth knowing


- The watch task exits the process only when the inotify stream fails. The stream is wrapped only by a `map_err`, so if it ends without error the task just finishes and the daemon keeps serving (`Engine.UndecidedKeepsServing`). A later SIGTERM still shuts it down cleanly (`Engine.CleanShutdownOnSigTerm`).
- The bus name is requested with the replace-existing flag. Only an error from the call itself stops start-up. A reply of `RequestNameReply::InQueue` or `RequestNameReply::Exists` counts as success, so the daemon can run without owning `com.coreos.update1`.
- For a path that has a file name, the parent check in `add_watch` cannot fail. The file name is checked first, and a path that ends in a normal name always has a parent.
- The exit status of `lsb_release` is never looked at. If it runs and prints nothing, the version is the empty string, not `"0.0.0"`.
- The event loop is created twice. Only the first failure is returned as an error. The second creation, attaching the connection and opening the message stream use `unwrap` and panic on failure. Their failures are modelled as `Panic`.

## Left out

- `src/apt.rs`, `c-wrap/lib.cpp`: the libapt-pkg lock and configuration wrapper. It is foreign code behind raw pointers, and `engine` does not use it.
- `build.rs`, and the command-line and log-sink set-up in `src/main.rs`. Only the default sentinel path and the exit status are modelled.
- Real D-Bus, inotify, the tokio reactor, signal delivery and the 200 ms sleeps before exiting. These are I/O and scheduling. Their results are inputs (`Platform`), and the order of events is an input trace (`Happening`).
- `SystemTime::now()` and the `lsb_release` subprocess are inputs (`Env`). UTF-8 decoding of the command's output is not modelled; its failure is the `NotUtf8` case.
- Clock readings before the epoch, where `duration_since(UNIX_EPOCH).unwrap()` panics, are excluded by the `Timestamp` type.
- Clock.Millis: defined only for readings up to `MaxEpochSeconds` (about 292 million years after the epoch), so that the count fits in an i64.
- The `f64` `progress` field is a `real` that is always 0. There is no floating-point reasoning.
- Parsing a path string into components (Rust's `std::path`) is not modelled. Paths are given already split.
- Replies that dbus-rs itself sends are not modelled. This covers introspection and unknown members on the object. Every message that the three handlers do not take is modelled as passed on to the server loop.
- A SIGTERM stream that ends without delivering a signal resolves the race with `Ok`, like a SIGTERM. It is not modelled, because a Unix signal stream does not end.
- Engine.ExitCodes: a SIGTERM delivered before `USignal::new` installs the handler (src/server.rs:177), that is during start-up, kills the process by the signal's default action with no exit status from `main`. Start-up is modelled as running to its end uninterrupted.
- The exit status 101 for a panic is Rust's runtime convention; the source does not state it.
- Log messages are not modelled.
