/**
 * The state of the ADB Push window and the handlers of `update` and
 * `send_files` that change it: device initialisation and refresh, drop
 * ingestion, the Send gate, the batch push, and the two clear buttons.
 *
 * The two calls into the outside world are parameters: `isDir` answers the
 * filesystem's `is_dir` query, and `push` gives the result of running
 * `adb push <source> <destination>`.
 */
module App {
  import opened Wrappers
  import DeviceList

  type Path = string

  /** Every destination is this fixed root followed by the target path as typed. */
  const RemoteRoot: string := "/storage/emulated/0/"

  /** The string the Send gate compares the device against (with a trailing period). */
  const GateSentinel: string := "No valid device."

  /** The one part of a dropped file that the application reads: its path, if the toolkit knows it. */
  datatype DroppedFile = DroppedFile(path: Option<Path>)

  /**
   * The result of running `adb push`: the process ran (whatever its exit
   * status) and printed `stdout`, or it could not be launched.
   */
  datatype PushOutcome = Launched(stdout: string) | LaunchFailed(reason: string)

  /** One invocation of `adb push <source> <destination>`. */
  datatype PushCall = PushCall(source: Path, destination: string)

  /** One line of the output log, as a tagged record instead of formatted text. */
  datatype LogEntry =
    | IsDirectory(path: Path)                                  // "<path> is a directory"
    | NoFilesToSend                                            // "No files to send."
    | NoValidDeviceConnected                                   // "No valid device connected."
    | Sent(source: Path, destination: string, stdout: string)  // "Sent <source> to <destination>: <stdout>"
    | FailedToSend(source: Path, reason: string)               // "Failed to send <source>: <reason>"
    | FilePathNotFound                                         // "File path not found."

  // ---------------------------------------------------------------------------
  // Drop ingestion, as functions of the dropped batch
  // ---------------------------------------------------------------------------

  /** The entries of a drop batch that join the pending list: those with a path that is not a directory. */
  function Admitted(batch: seq<DroppedFile>, isDir: Path -> bool): (admitted: seq<DroppedFile>)
    ensures |admitted| <= |batch|
  {
    if batch == [] then []
    else
      var here := match batch[0].path
        case Some(p) => if isDir(p) then [] else [batch[0]]
        case None => [];
      here + Admitted(batch[1..], isDir)
  }

  /** The log lines a drop batch produces: one per entry whose path is a directory. */
  function DirectoryNotices(batch: seq<DroppedFile>, isDir: Path -> bool): (notices: seq<LogEntry>)
    ensures forall e <- notices :: e.IsDirectory?
    ensures |notices| <= |batch|
  {
    if batch == [] then []
    else
      var here := match batch[0].path
        case Some(p) => if isDir(p) then [IsDirectory(p)] else []
        case None => [];
      here + DirectoryNotices(batch[1..], isDir)
  }

  // ---------------------------------------------------------------------------
  // send_files, as functions of the pending list
  // ---------------------------------------------------------------------------

  /** The log line `send_files` writes for one pending file. */
  function EntryFor(file: DroppedFile, destination: string, push: (Path, string) -> PushOutcome): (e: LogEntry)
    ensures e == FilePathNotFound <==> file.path.None?
    ensures e.Sent? ==> file.path == Some(e.source) && e.destination == destination
                        && push(e.source, destination) == Launched(e.stdout)
    ensures e.FailedToSend? ==> file.path == Some(e.source) && push(e.source, destination) == LaunchFailed(e.reason)
    ensures e.Sent? || e.FailedToSend? || e.FilePathNotFound?
  {
    match file.path
    case None => FilePathNotFound
    case Some(p) =>
      match push(p, destination)
      case Launched(out) => Sent(p, destination, out)
      case LaunchFailed(reason) => FailedToSend(p, reason)
  }

  /** The log lines `send_files` writes for a pending list, in its order. */
  function SendLog(files: seq<DroppedFile>, destination: string, push: (Path, string) -> PushOutcome): (log: seq<LogEntry>)
    ensures |log| == |files|
  {
    if files == [] then [] else [EntryFor(files[0], destination, push)] + SendLog(files[1..], destination, push)
  }

  /** The `adb push` invocations `send_files` makes for a pending list, in its order. */
  function PushCalls(files: seq<DroppedFile>, destination: string): (calls: seq<PushCall>)
    ensures forall c <- calls :: c.destination == destination
    ensures |calls| <= |files|
  {
    if files == [] then []
    else
      var here := match files[0].path
        case Some(p) => [PushCall(p, destination)]
        case None => [];
      here + PushCalls(files[1..], destination)
  }

  predicate AllHavePaths(files: seq<DroppedFile>) {
    forall f <- files :: f.path.Some?
  }

  // ---------------------------------------------------------------------------
  // The application state
  // ---------------------------------------------------------------------------

  class AdbPush {
    /** The pending list. */
    var droppedFiles: seq<DroppedFile>
    /** What the user typed after the remote root. */
    var targetPath: string
    /** The device identifier from the last refresh. */
    var device: string
    /** Whether the first update has refreshed the device. */
    var initDevice: bool
    /** The output log. */
    var output: seq<LogEntry>

    /**
     * What holds in every state the application can reach: every pending file
     * has a path, and the device never equals the string the Send gate tests.
     */
    ghost predicate Reachable()
      reads this
    {
      AllHavePaths(droppedFiles) && device != GateSentinel
    }

    /** The `Default` state the window starts in. */
    constructor ()
      ensures Reachable()
      ensures droppedFiles == [] && targetPath == "" && device == "" && !initDevice && output == []
    {
      droppedFiles := [];
      targetPath := "";
      device := "";
      initDevice := false;
      output := [];
    }

    /** The start of every update: the first one refreshes the device, later ones change nothing. */
    method InitDevice(devicesOutput: string)
      modifies this
      ensures initDevice
      ensures old(initDevice) ==> device == old(device)
      ensures !old(initDevice) ==> device == DeviceList.RefreshDevice(devicesOutput)
      ensures droppedFiles == old(droppedFiles) && targetPath == old(targetPath) && output == old(output)
      ensures old(Reachable()) ==> Reachable()
    {
      if !initDevice {
        device := DeviceList.RefreshDevice(devicesOutput);
        GateNeverMatchesRefresh(devicesOutput);
        initDevice := true;
      }
    }

    /** The Refresh button: the device becomes what `adb devices` now reports. */
    method Refresh(devicesOutput: string)
      modifies this
      ensures device == DeviceList.RefreshDevice(devicesOutput)
      ensures droppedFiles == old(droppedFiles) && targetPath == old(targetPath)
      ensures initDevice == old(initDevice) && output == old(output)
      ensures old(Reachable()) ==> Reachable()
    {
      device := DeviceList.RefreshDevice(devicesOutput);
      GateNeverMatchesRefresh(devicesOutput);
    }

    /** The target-path text field: its content replaces the target path. */
    method EditTargetPath(text: string)
      modifies this
      ensures targetPath == text
      ensures droppedFiles == old(droppedFiles) && device == old(device)
      ensures initDevice == old(initDevice) && output == old(output)
      ensures old(Reachable()) ==> Reachable()
    {
      targetPath := text;
    }

    /** The "Clear files" button: the pending list is emptied and nothing else changes. */
    method ClearFiles()
      modifies this
      ensures droppedFiles == []
      ensures targetPath == old(targetPath) && device == old(device)
      ensures initDevice == old(initDevice) && output == old(output)
      ensures old(droppedFiles) == [] ==> unchanged(this)
      ensures old(Reachable()) ==> Reachable()
    {
      droppedFiles := [];
    }

    /** The "Clear Output" button: the log is emptied and nothing else changes. */
    method ClearOutput()
      modifies this
      ensures output == []
      ensures droppedFiles == old(droppedFiles) && targetPath == old(targetPath)
      ensures device == old(device) && initDevice == old(initDevice)
      ensures old(output) == [] ==> unchanged(this)
      ensures old(Reachable()) ==> Reachable()
    {
      output := [];
    }

    /**
     * A batch of dropped entries, in drop order: a directory is logged and
     * rejected, an entry without a path is skipped, anything else joins the
     * end of the pending list.
     */
    method DropFiles(batch: seq<DroppedFile>, isDir: Path -> bool)
      modifies this
      ensures droppedFiles == old(droppedFiles) + Admitted(batch, isDir)
      ensures output == old(output) + DirectoryNotices(batch, isDir)
      ensures targetPath == old(targetPath) && device == old(device) && initDevice == old(initDevice)
      ensures old(Reachable()) ==> Reachable()
    {
      if |batch| != 0 {
        var i := 0;
        while i < |batch|
          invariant 0 <= i <= |batch|
          invariant droppedFiles == old(droppedFiles) + Admitted(batch[..i], isDir)
          invariant output == old(output) + DirectoryNotices(batch[..i], isDir)
          invariant targetPath == old(targetPath) && device == old(device) && initDevice == old(initDevice)
        {
          var file := batch[i];
          ghost var pending, log := droppedFiles, output;
          match file.path {
            case Some(path) =>
              if isDir(path) {
                output := output + [IsDirectory(path)];
              } else {
                droppedFiles := droppedFiles + [file];
              }
            case None =>
          }
          assert droppedFiles == pending + Admitted([file], isDir);
          assert output == log + DirectoryNotices([file], isDir);
          assert batch[..i + 1] == batch[..i] + [file];
          AdmittedAppend(batch[..i], [file], isDir);
          NoticesAppend(batch[..i], [file], isDir);
          i := i + 1;
        }
        assert batch[..i] == batch;
      }
      AdmittedHavePaths(batch, isDir);
    }

    /**
     * The Send button. With nothing pending it logs one notice; with the
     * device equal to the gate's string it logs another; otherwise it pushes
     * the pending list. `calls` is the sequence of `adb push` invocations.
     */
    method Send(push: (Path, string) -> PushOutcome) returns (calls: seq<PushCall>)
      modifies this
      ensures old(droppedFiles) == [] ==>
                output == old(output) + [NoFilesToSend] && droppedFiles == old(droppedFiles) && calls == []
      ensures old(droppedFiles) != [] && old(device) == GateSentinel ==>
                output == old(output) + [NoValidDeviceConnected] && droppedFiles == old(droppedFiles) && calls == []
      ensures old(droppedFiles) != [] && old(device) != GateSentinel ==>
                output == old(output) + SendLog(old(droppedFiles), RemoteRoot + targetPath, push)
                && droppedFiles == []
                && calls == PushCalls(old(droppedFiles), RemoteRoot + targetPath)
      ensures targetPath == old(targetPath) && device == old(device) && initDevice == old(initDevice)
      ensures old(Reachable()) ==> Reachable()
      ensures old(Reachable()) ==> NoValidDeviceConnected !in output[|old(output)|..]
                                   && FilePathNotFound !in output[|old(output)|..]
    {
      if |droppedFiles| == 0 {
        output := output + [NoFilesToSend];
        calls := [];
      } else if device == GateSentinel {
        output := output + [NoValidDeviceConnected];
        calls := [];
      } else {
        calls := SendFiles(push);
      }
    }

    /**
     * `send_files`: one push and one log line per pending file, in order,
     * every push to the same destination; then the pending list is emptied,
     * whatever the outcomes.
     */
    method SendFiles(push: (Path, string) -> PushOutcome) returns (calls: seq<PushCall>)
      modifies this
      ensures output == old(output) + SendLog(old(droppedFiles), RemoteRoot + targetPath, push)
      ensures calls == PushCalls(old(droppedFiles), RemoteRoot + targetPath)
      ensures droppedFiles == []
      ensures targetPath == old(targetPath) && device == old(device) && initDevice == old(initDevice)
      ensures old(Reachable()) ==> Reachable()
      ensures old(Reachable()) ==> NoValidDeviceConnected !in output[|old(output)|..]
                                   && FilePathNotFound !in output[|old(output)|..]
    {
      calls := [];
      var i := 0;
      while i < |droppedFiles|
        invariant 0 <= i <= |droppedFiles|
        invariant droppedFiles == old(droppedFiles)
        invariant output == old(output) + SendLog(droppedFiles[..i], RemoteRoot + targetPath, push)
        invariant calls == PushCalls(droppedFiles[..i], RemoteRoot + targetPath)
        invariant targetPath == old(targetPath) && device == old(device) && initDevice == old(initDevice)
      {
        var file := droppedFiles[i];
        ghost var before := output;
        match file.path {
          case Some(filePath) =>
            var target := RemoteRoot + targetPath;
            calls := calls + [PushCall(filePath, target)];
            match push(filePath, target) {
              case Launched(stdout) =>
                output := output + [Sent(filePath, target, stdout)];
              case LaunchFailed(err) =>
                output := output + [FailedToSend(filePath, err)];
            }
          case None =>
            output := output + [FilePathNotFound];
        }
        assert output == before + [EntryFor(file, RemoteRoot + targetPath, push)];
        assert droppedFiles[..i + 1] == droppedFiles[..i] + [file];
        assert SendLog([file], RemoteRoot + targetPath, push) == [EntryFor(file, RemoteRoot + targetPath, push)];
        SendLogAppend(droppedFiles[..i], [file], RemoteRoot + targetPath, push);
        PushCallsAppend(droppedFiles[..i], [file], RemoteRoot + targetPath);
        i := i + 1;
      }
      assert droppedFiles[..i] == old(droppedFiles);
      assert output[|old(output)|..] == SendLog(old(droppedFiles), RemoteRoot + targetPath, push);
      SendLogEntries(old(droppedFiles), RemoteRoot + targetPath, push);
      droppedFiles := [];
    }
  }

  // ---------------------------------------------------------------------------
  // Lemmas
  // ---------------------------------------------------------------------------

  /**
   * Neither sentinel of `refresh_device`, nor any token it returns, equals the
   * string the Send gate compares against, so the gate never blocks.
   */
  lemma GateNeverMatchesRefresh(devicesOutput: string)
    ensures DeviceList.RefreshDevice(devicesOutput) != GateSentinel
  {
    var d := DeviceList.RefreshDevice(devicesOutput);
    if d == GateSentinel {
      assert DeviceList.IsWhitespace(d[2]);
    }
  }

  /** Ingesting two batches one after the other admits the same files as ingesting them joined. */
  lemma {:induction false} AdmittedAppend(a: seq<DroppedFile>, b: seq<DroppedFile>, isDir: Path -> bool)
    ensures Admitted(a + b, isDir) == Admitted(a, isDir) + Admitted(b, isDir)
  {
    if a != [] {
      assert (a + b)[1..] == a[1..] + b;
      AdmittedAppend(a[1..], b, isDir);
    } else {
      assert a + b == b;
    }
  }

  /** The directory notices of a joined batch are those of its parts, in order. */
  lemma {:induction false} NoticesAppend(a: seq<DroppedFile>, b: seq<DroppedFile>, isDir: Path -> bool)
    ensures DirectoryNotices(a + b, isDir) == DirectoryNotices(a, isDir) + DirectoryNotices(b, isDir)
  {
    if a != [] {
      assert (a + b)[1..] == a[1..] + b;
      NoticesAppend(a[1..], b, isDir);
    } else {
      assert a + b == b;
    }
  }

  /** Exactly the entries with a non-directory path are admitted; so every pending file has a path. */
  lemma {:induction false} AdmittedExactly(batch: seq<DroppedFile>, isDir: Path -> bool)
    ensures forall f :: f in Admitted(batch, isDir) <==> f in batch && f.path.Some? && !isDir(f.path.value)
  {
    if batch != [] {
      AdmittedExactly(batch[1..], isDir);
      assert batch == [batch[0]] + batch[1..];
    }
  }

  /** Every admitted entry has a path, so the pending list never holds a pathless file. */
  lemma AdmittedHavePaths(batch: seq<DroppedFile>, isDir: Path -> bool)
    ensures AllHavePaths(Admitted(batch, isDir))
  {
    AdmittedExactly(batch, isDir);
  }

  /**
   * Every notice names a dropped directory, and every dropped directory gets a
   * notice: directories are reported, never admitted.
   */
  lemma {:induction false} NoticesExactly(batch: seq<DroppedFile>, isDir: Path -> bool)
    ensures forall e <- DirectoryNotices(batch, isDir) ::
              e.IsDirectory? && DroppedFile(Some(e.path)) in batch && isDir(e.path)
    ensures forall f <- batch :: f.path.Some? && isDir(f.path.value) ==>
              IsDirectory(f.path.value) in DirectoryNotices(batch, isDir)
              && f !in Admitted(batch, isDir)
  {
    AdmittedExactly(batch, isDir);
    if batch != [] {
      NoticesExactly(batch[1..], isDir);
      assert batch == [batch[0]] + batch[1..];
    }
  }

  /** No entry yields both a pending file and a notice, so a batch yields at most one of either per entry. */
  lemma {:induction false} DropCounts(batch: seq<DroppedFile>, isDir: Path -> bool)
    ensures |Admitted(batch, isDir)| + |DirectoryNotices(batch, isDir)| <= |batch|
    ensures AllHavePaths(batch) ==> |Admitted(batch, isDir)| + |DirectoryNotices(batch, isDir)| == |batch|
  {
    if batch != [] {
      DropCounts(batch[1..], isDir);
      assert AllHavePaths(batch) ==> AllHavePaths(batch[1..]) by {
        forall f | f in batch[1..] ensures f in batch { }
      }
    }
  }

  /** The log lines of a joined pending list are those of its parts, in order. */
  lemma {:induction false} SendLogAppend(a: seq<DroppedFile>, b: seq<DroppedFile>, destination: string,
                                         push: (Path, string) -> PushOutcome)
    ensures SendLog(a + b, destination, push) == SendLog(a, destination, push) + SendLog(b, destination, push)
  {
    if a != [] {
      assert (a + b)[1..] == a[1..] + b;
      SendLogAppend(a[1..], b, destination, push);
    } else {
      assert a + b == b;
    }
  }

  /** The pushes of a joined pending list are those of its parts, in order. */
  lemma {:induction false} PushCallsAppend(a: seq<DroppedFile>, b: seq<DroppedFile>, destination: string)
    ensures PushCalls(a + b, destination) == PushCalls(a, destination) + PushCalls(b, destination)
  {
    if a != [] {
      assert (a + b)[1..] == a[1..] + b;
      PushCallsAppend(a[1..], b, destination);
    } else {
      assert a + b == b;
    }
  }

  /** One log line per pending file, and line `i` is the outcome of file `i`. */
  lemma {:induction false} SendLogAt(files: seq<DroppedFile>, destination: string,
                                     push: (Path, string) -> PushOutcome, i: nat)
    requires i < |files|
    ensures |SendLog(files, destination, push)| == |files|
    ensures SendLog(files, destination, push)[i] == EntryFor(files[i], destination, push)
  {
    if i > 0 {
      SendLogAt(files[1..], destination, push, i - 1);
    } else if |files| > 1 {
      SendLogAt(files[1..], destination, push, 0);
    }
  }

  /** When every pending file has a path, file `i` is pushed as the `i`-th call, to the common destination. */
  lemma {:induction false} PushCallsAt(files: seq<DroppedFile>, destination: string, i: nat)
    requires AllHavePaths(files) && i < |files|
    ensures |PushCalls(files, destination)| == |files|
    ensures PushCalls(files, destination)[i] == PushCall(files[i].path.value, destination)
  {
    assert files[0] in files;
    assert AllHavePaths(files[1..]) by {
      forall f | f in files[1..] ensures f in files { }
    }
    if i > 0 {
      PushCallsAt(files[1..], destination, i - 1);
    } else if |files| > 1 {
      PushCallsAt(files[1..], destination, 0);
    }
  }

  /**
   * The lines of a batch are only success and failure reports, and when every
   * file has a path no "File path not found." line appears.
   */
  lemma {:induction false} SendLogEntries(files: seq<DroppedFile>, destination: string,
                                          push: (Path, string) -> PushOutcome)
    ensures forall e <- SendLog(files, destination, push) ::
              e.Sent? || e.FailedToSend? || e.FilePathNotFound?
    ensures forall e <- SendLog(files, destination, push) :: e.Sent? ==> e.destination == destination
    ensures AllHavePaths(files) ==> FilePathNotFound !in SendLog(files, destination, push)
  {
    if files != [] {
      assert files[0] in files;
      assert AllHavePaths(files) ==> AllHavePaths(files[1..]) by {
        forall f | f in files[1..] ensures f in files { }
      }
      SendLogEntries(files[1..], destination, push);
    }
  }
}

/** A session as a caller sees it, proved from the contracts above alone. */
module Scenario {
  import opened Wrappers
  import opened App

  /**
   * Start the window with whatever `adb devices` prints, drop two files, a directory and
   * an entry without a path, then press Send with an empty target path: both
   * files are pushed to the bare remote root, in drop order, and the directory
   * is reported.
   */
  method DropAndSend(devicesOutput: string, push: (Path, string) -> PushOutcome) returns (calls: seq<PushCall>, log: seq<LogEntry>)
    ensures calls == [PushCall("a.txt", RemoteRoot), PushCall("b.txt", RemoteRoot)]
    ensures log == [IsDirectory("photos"), EntryFor(DroppedFile(Some("a.txt")), RemoteRoot, push),
                    EntryFor(DroppedFile(Some("b.txt")), RemoteRoot, push)]
  {
    var app := new AdbPush();
    app.InitDevice(devicesOutput);
    var a, dir, b := DroppedFile(Some("a.txt")), DroppedFile(Some("photos")), DroppedFile(Some("b.txt"));
    var isDir: Path -> bool := p => p == "photos";
    assert "a.txt" != "photos" && "b.txt" != "photos";
    assert Admitted([b], isDir) == [b] && DirectoryNotices([b], isDir) == [];
    assert Admitted([DroppedFile(None), b], isDir) == [b];
    assert DirectoryNotices([DroppedFile(None), b], isDir) == [];
    assert Admitted([dir, DroppedFile(None), b], isDir) == [b];
    assert DirectoryNotices([dir, DroppedFile(None), b], isDir) == [IsDirectory("photos")];
    var batch := [a, dir, DroppedFile(None), b];
    assert batch[1..] == [dir, DroppedFile(None), b];
    app.DropFiles(batch, isDir);
    assert app.droppedFiles == [a, b];
    assert app.Reachable() && app.targetPath == "" && app.output == [IsDirectory("photos")];
    assert [a, b][1..] == [b];
    var root := RemoteRoot + app.targetPath;
    assert root == RemoteRoot;
    calls := app.Send(push);
    assert PushCalls([b], root) == [PushCall("b.txt", root)];
    assert PushCalls([a, b], root) == [PushCall("a.txt", root), PushCall("b.txt", root)];
    assert SendLog([b], root, push) == [EntryFor(b, root, push)] + SendLog([], root, push);
    assert SendLog([a, b], root, push) == [EntryFor(a, root, push), EntryFor(b, root, push)];
    assert calls == PushCalls([a, b], root);
    assert app.output == [IsDirectory("photos")] + SendLog([a, b], root, push);
    log := app.output;
  }
}
