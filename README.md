# ADB Push: device selection and file transfer

ADB Push is a small desktop window in front of the `adb` command-line tool.
The user drops files onto it, types a target path, and presses Send. Each
dropped file is then copied onto the connected Android device with
`adb push <file> /storage/emulated/0/<target path>`. This project models the
logic under the window:

- **`DeviceList`** (`device_list.dfy`) models how `refresh_device` turns the
  output of `adb devices` into a device identifier. It covers Rust's
  `str::lines`, `str::split_whitespace().next()` with `unwrap_or`, and the two
  sentinel strings `"No devices found"` and `"No valid device"`. This part is
  pure, so it is written as functions and lemmas.
- **`App`** (`app.dfy`) models the `AdbPush` state. `AdbPush` is a class with
  the source's five fields: the pending list, the target path, the device,
  the init flag and the output log. Its methods are the handlers that
  `update` and `send_files` run: first-update device initialisation, the
  Refresh button, the target-path text field, drop ingestion, the Send gate,
  the batch push, and the two clear buttons. Drop ingestion and the batch
  push are loops with invariants. Each of those methods is proved against a
  specification function of its input (`Admitted`, `DirectoryNotices`,
  `SendLog`, `PushCalls`), and the lemmas state the properties of those
  functions.
- **`Scenario`** (at the end of `app.dfy`) is a client session: a drop
  followed by Send. It is proved from the method contracts alone.

Two calls into the outside world are parameters:

- `isDir: Path -> bool` stands for the filesystem's `is_dir` query.
- `push: (Path, string) -> PushOutcome` stands for running `adb push`. Its
  result is `Launched(stdout)` when the process ran (whatever its exit
  status) and `LaunchFailed(reason)` when it could not be started.

The standard output of `adb devices` is a string parameter. Log lines are
tagged records (`Sent`, `FailedToSend`, `IsDirectory`, `NoFilesToSend`,
`NoValidDeviceConnected`, `FilePathNotFound`), not formatted text. `Send` and
`SendFiles` also return the `adb push` calls they made, in order. That makes
two properties statable: a blocked Send starts no process, and every push in a
batch uses the same destination.

**The Send gate never blocks.** The gate at `src/main.rs:103` compares the
device with `"No valid device."`, which has a trailing period.
`refresh_device` only ever returns one of these:

- `"No valid device"` or `"No devices found"` (no period);
- a token that contains no whitespace.

None of them equals the gate's string (`App.GateNeverMatchesRefresh`). The
model keeps the comparison exactly as written. The class invariant
`Reachable()` records that the device never equals that string.
`AdbPush.Send` proves that, from any reachable state, the "No valid device
connected." line is never logged. So with a blank device line the batch is
still attempted. That blank line is what `adb devices` prints when nothing
is attached (`DeviceList.NothingAttached`).

Two behaviours of the code are easy to misread. The model keeps both:

- "Fewer than two lines" is counted after `str::lines`. A header followed by
  an empty line therefore gives `"No valid device"`, not `"No devices found"`.
- The Send gate does not recognise either sentinel (see above).

`str::lines` is modelled as the current Rust standard library defines it. The
text is cut after each `'\n'`. A piece that ended in `'\n'` loses it and then
one `'\r'`. A last piece with no `'\n'` keeps any `'\r'`. Because `'\r'` is
whitespace, this never changes the device token
(`DeviceList.StripCarriageReturnKeepsToken`).

## Model

| member | source | states |
|---|---|---|
| `DeviceList.LineEnd` | src/main.rs:194 | the returned index is the first `'\n'` of the text, or its length when there is none |
| `DeviceList.Lines` | src/main.rs:194 | no line contains `'\n'`, and there are no lines exactly when the text is empty |
| `DeviceList.Run` | src/main.rs:198 | the returned length is the longest prefix that is all whitespace (or all non-whitespace) |
| `DeviceList.SplitWhitespace` | src/main.rs:198 | every token is non-empty and contains no whitespace |
| `DeviceList.IsWhitespace` | src/main.rs:198 | Rust's `char::is_whitespace`: exactly the characters with the Unicode White_Space property, which `split_whitespace` splits on |
| `DeviceList.StripCarriageReturn` | src/main.rs:194 | the `'\r'` rule of `lines` for a `'\n'`-terminated piece: the line is kept, or loses exactly one final `'\r'`, and it is kept exactly when it does not end in `'\r'` |
| `DeviceList.FirstToken` | src/main.rs:198-199 | `split_whitespace().next()`: a token it returns is non-empty, has no whitespace and is no longer than the line |
| `Wrappers.Option.UnwrapOr` | src/main.rs:200 | Rust's `unwrap_or`: the contained value when there is one, the default otherwise |
| `DeviceList.RefreshDevice` | src/main.rs:188-205 | the result is `"No devices found"` exactly when there are fewer than two lines; with two or more it is `"No valid device"` exactly when the second line is blank; otherwise it is the first whitespace-delimited token of the second line: only whitespace precedes it there, it has no whitespace, and it ends at the end of the line or at whitespace |
| `DeviceList.BlankIffNoToken` | src/main.rs:197-201 | a line has no first token exactly when it is empty or all whitespace; a token it has is non-empty and whitespace-free |
| `DeviceList.FirstTokenPosition` | src/main.rs:197-199 | the token is the first non-whitespace run of the second line: only whitespace precedes it, and it ends at the end of the line or at whitespace |
| `DeviceList.RunAppend` | src/main.rs:198 | how the prefix run of a concatenation follows from the runs of its parts |
| `DeviceList.TrailingWhitespaceKeepsToken` | src/main.rs:197-199 | appending a whitespace character to a line does not change its first token |
| `DeviceList.StripCarriageReturnKeepsToken` | src/main.rs:194-199 | the `'\r'` that `lines` strips never changes the device token |
| `DeviceList.LinesOfTerminatedLine` | src/main.rs:194 | a line ended by `'\n'` is the first line, and the rest of the text is split on its own |
| `DeviceList.LinesOfJoined` | src/main.rs:194 | splitting lines that each end in `"\n"` (and in no `'\r'`) gives those lines back |
| `DeviceList.FewerThanTwoLines` | src/main.rs:194-203 | there are fewer than two lines exactly when no `'\n'` occurs before the last character |
| `DeviceList.LaterLinesIgnored` | src/main.rs:196-201 | after the header and the first entry line, anything else in the output has no effect on the device |
| `DeviceList.LastEntryLine` | src/main.rs:194-201 | when the entry line ends the output without a final `'\n'`, the device is still its first token, or `"No valid device"` when it has none |
| `DeviceList.SerialOfDeviceLine` | src/main.rs:188-201 | for an entry line `"<serial>\t<state>"` the device is the serial |
| `DeviceList.NothingAttached` | src/main.rs:194-201 | a header followed by an empty line gives `"No valid device"` |
| `DeviceList.HeaderOnly` | src/main.rs:194-203 | a header alone, with or without a final `'\n'`, gives `"No devices found"` |
| `App.Admitted` | src/main.rs:137-146 | the entries of a drop batch that join the pending list (those with a path that is not a directory), in drop order; never more than the batch |
| `App.DirectoryNotices` | src/main.rs:137-146 | the log lines of a drop batch, one per directory path, in drop order; all are directory notices, never more than the batch |
| `App.EntryFor` | src/main.rs:156-182 | the log line for one pending file: "File path not found." exactly when it has no path; otherwise `Sent` with the push's stdout when the process launched, or `FailedToSend` with the launch error, naming that file and the common destination |
| `App.SendLog` | src/main.rs:155-183 | the log lines of a batch, one per pending file in list order |
| `App.PushCalls` | src/main.rs:155-163 | every push of a batch goes to the same destination, and there are at most as many pushes as pending files |
| `App.AdbPush.constructor` | src/main.rs:37-44 | the default state: everything empty, the device not yet initialised |
| `App.AdbPush.InitDevice` | src/main.rs:48-51 | the first update sets the device from `adb devices` and raises the flag; later updates change nothing; the other fields are unchanged |
| `App.AdbPush.Refresh` | src/main.rs:62-64 | the device becomes what `adb devices` now reports; nothing else changes |
| `App.AdbPush.EditTargetPath` | src/main.rs:98 | the target path becomes the field's text; nothing else changes |
| `App.AdbPush.ClearFiles` | src/main.rs:84-86 | the pending list becomes empty and nothing else changes; on an empty list the whole state is unchanged |
| `App.AdbPush.ClearOutput` | src/main.rs:126-128 | the log becomes empty and nothing else changes; on an empty log the whole state is unchanged |
| `App.AdbPush.DropFiles` | src/main.rs:135-148 | the admitted entries are appended to the pending list in drop order; one directory notice per directory is appended to the log; target path, device and flag are unchanged; reachability is kept |
| `App.AdbPush.Send` | src/main.rs:100-108 | nothing pending: one "No files to send." line and no push; device equal to the gate string: one "No valid device connected." line and no push; otherwise the batch runs. From a reachable state the second case never happens |
| `App.AdbPush.SendFiles` | src/main.rs:154-186 | one log line per pending file, in order, after the old log; the pushes are one per file with a path, all to `/storage/emulated/0/` + target path; the pending list ends empty whatever the outcomes; target path and device unchanged |
| `App.GateNeverMatchesRefresh` | src/main.rs:103 | no output of `refresh_device` equals `"No valid device."`, so the gate cannot block a refreshed device |
| `App.AdmittedAppend` | src/main.rs:137-146 | ingesting two batches in turn admits the same files, in the same order, as ingesting them joined |
| `App.NoticesAppend` | src/main.rs:137-146 | the directory notices of a joined batch are those of its parts, in order |
| `App.AdmittedExactly` | src/main.rs:137-146 | an entry is admitted exactly when it was dropped, has a path, and that path is not a directory |
| `App.AdmittedHavePaths` | src/main.rs:138-144 | every admitted entry has a path |
| `App.NoticesExactly` | src/main.rs:138-144 | every notice names a dropped directory; every dropped directory gets a notice and is not admitted |
| `App.DropCounts` | src/main.rs:137-146 | admitted entries plus notices never outnumber the batch, and they equal it when every entry has a path |
| `App.SendLogAppend` | src/main.rs:155-183 | the log lines of a joined pending list are those of its parts, in order |
| `App.PushCallsAppend` | src/main.rs:155-163 | the pushes of a joined pending list are those of its parts, in order |
| `App.SendLogAt` | src/main.rs:155-183 | the batch writes exactly one log line per pending file, and line `i` is the outcome of file `i` |
| `App.PushCallsAt` | src/main.rs:155-163 | when every file has a path, file `i` is the `i`-th push, to the common destination |
| `App.SendLogEntries` | src/main.rs:155-183 | a batch logs only success and failure reports, every success names the common destination, and "File path not found." never appears when every file has a path |
| `Scenario.DropAndSend` | src/main.rs:135-186 | dropping two files, a directory and a pathless entry, then sending with an empty target path: the two files are pushed to `/storage/emulated/0/` in drop order, and the log is the directory notice followed by the two outcomes |

## Left out

- The egui/eframe window: panels, labels, scroll areas, the listing of pending files, and the `main` setup (src/main.rs:7-22, 53-133). This is toolkit rendering, not logic.
- `load_icon` (src/main.rs:23-36). It decodes an image through the `image` crate.
- Starting `adb` through `std::process::Command` (src/main.rs:159-163, 189-192). The `devices` output is a string parameter, and `push` is an oracle parameter. The panic at src/main.rs:192, when `adb devices` cannot be launched, is not modelled.
- The `push` oracle is a function of the source and destination. Two pushes of the same file in one batch therefore get the same outcome, whereas the real tool may answer differently each time.
- `String::from_utf8_lossy`, and the exact `{:?}` and `display()` formatting of log lines. Log lines are tagged records, and paths are strings; `PathBuf` values that are not valid UTF-8 are not modelled.
- `egui::DroppedFile` fields other than `path` (name, MIME type, bytes, modification time). The source never reads them.
- The order in which one `update` frame runs its handlers (init, Refresh, Clear files, Send, Clear Output, drops) is not composed into one method. Each handler is its own method.
- The clear buttons are drawn only when their list is non-empty. The model allows clearing an empty list, and proves that doing so changes nothing.
- Concurrency. There is none: every `adb` call blocks the single UI thread.
