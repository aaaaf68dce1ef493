/** The Python helper that builds and runs an rsync command line.

    `shutil.which("rsync")` becomes the flag `rsyncOnPath`; `subprocess.run` becomes a
    function `run` from the command line and timeout to what the process launch gave:
    an exit status with captured output, or a raised exception. */
module ComfyRsync {
  import opened Outcomes

  const DefaultFlags: seq<string> := ["-avz"]
  const DryRunFlag: string := "--dry-run"
  const RsyncMissingText: string :=
    "rsync executable not found on PATH. On Windows, consider using WSL or install rsync."
  const CommandNotFoundPrefix: string := "Command not found: "
  const PathsRequiredText: string := "'source' and 'dest' are required"
  /** The timeout `rsync_sync` uses when its caller passes none. */
  const DefaultTimeout: int := 300

  /** `flags or ["-avz"]`: a missing flag list and an empty one both mean the default. */
  function EffectiveFlags(flags: Option<seq<string>>): (fs: seq<string>)
    ensures fs != []
    ensures fs == DefaultFlags <==> flags.ValueOr([]) == [] || flags.ValueOr([]) == DefaultFlags
    ensures flags.ValueOr([]) != [] ==> fs == flags.value
  {
    if flags.ValueOr([]) == [] then DefaultFlags else flags.value
  }

  /** The rsync invocation: "rsync", the flags, source and destination, all behind "wsl"
      when running through WSL. */
  function BuildCmd(source: string, dest: string, flags: Option<seq<string>>, useWsl: bool)
    : (cmd: seq<string>)
    ensures |cmd| == 3 + |EffectiveFlags(flags)| + (if useWsl then 1 else 0)
    ensures cmd[|cmd| - 2] == source && cmd[|cmd| - 1] == dest
    ensures cmd[0] == if useWsl then "wsl" else "rsync"
    ensures var k := if useWsl then 1 else 0;
      cmd[k] == "rsync" && cmd[k + 1..|cmd| - 2] == EffectiveFlags(flags)
  {
    var base := ["rsync"] + EffectiveFlags(flags) + [source, dest];
    if useWsl then ["wsl"] + base else base
  }

  /** Python's `list.insert(i, x)` for a non-negative index: past the end it appends. */
  function Insert(s: seq<string>, i: nat, x: string): (r: seq<string>)
    ensures |r| == |s| + 1
    ensures i <= |s| ==> r[..i] == s[..i] && r[i] == x && r[i + 1..] == s[i..]
    ensures i >= |s| ==> r == s + [x]
  {
    if i >= |s| then s + [x] else s[..i] + [x] + s[i..]
  }

  /** Where `rsync_sync` inserts "--dry-run": index 1 whether or not "wsl" leads. */
  function DryRunIndex(useWsl: bool): nat {
    if useWsl then 1 else 1
  }

  /** The command line `rsync_sync` hands to the process launcher. */
  function SyncCommand(source: string, dest: string, flags: Option<seq<string>>,
                       dryRun: bool, useWsl: bool): (cmd: seq<string>)
    ensures |cmd| == 3 + |EffectiveFlags(flags)| + (if useWsl then 1 else 0) + (if dryRun then 1 else 0)
    ensures cmd[|cmd| - 2] == source && cmd[|cmd| - 1] == dest
    ensures cmd[0] == if useWsl then "wsl" else "rsync"
    ensures !dryRun ==> cmd == BuildCmd(source, dest, flags, useWsl)
    ensures dryRun ==> cmd[1] == DryRunFlag && [cmd[0]] + cmd[2..] == BuildCmd(source, dest, flags, useWsl)
  {
    var cmd := BuildCmd(source, dest, flags, useWsl);
    if dryRun then Insert(cmd, DryRunIndex(useWsl), DryRunFlag) else cmd
  }

  /** The classes of exception the helper tells apart. `BaseOnly` stands for a subclass of
      `BaseException` that is not an `Exception` (KeyboardInterrupt, SystemExit, ...),
      which an `except Exception` clause does not catch. */
  datatype ExceptionKind = FileNotFoundError | TimeoutExpired | OtherException(name: string) | BaseOnly(name: string)

  /** Whether `except Exception` catches an exception of this kind. */
  predicate IsException(k: ExceptionKind) {
    !k.BaseOnly?
  }

  /** A raised exception; `text` is what `str()` gives for it. */
  datatype PyException = PyException(kind: ExceptionKind, text: string)

  datatype CompletedProcess = CompletedProcess(args: seq<string>, returncode: int, stdout: string)

  /** What launching a command gave: the exit status and captured output, or an
      exception (the executable missing, the timeout expiring, an interrupt from the
      keyboard while rsync runs, ...). */
  datatype Launch = Exited(returncode: int, stdout: string) | Raised(exception: PyException)

  /** `rsync_sync`. Without rsync on the PATH and without WSL it raises before any
      command exists; otherwise it runs the command with output captured and no check on
      the exit status, turning a missing executable into "Command not found: " plus the
      command's first word and letting every other exception through. */
  function RsyncSync(source: string, dest: string, flags: Option<seq<string>>, dryRun: bool,
                     useWsl: bool, timeout: Option<int>, rsyncOnPath: bool,
                     run: (seq<string>, Option<int>) -> Launch)
    : (r: Result<CompletedProcess, PyException>)
    ensures !rsyncOnPath && !useWsl ==> r == Failure(PyException(FileNotFoundError, RsyncMissingText))
    ensures rsyncOnPath || useWsl ==>
      var cmd := SyncCommand(source, dest, flags, dryRun, useWsl);
      match run(cmd, timeout)
      case Exited(rc, out) => r == Success(CompletedProcess(cmd, rc, out))
      case Raised(e) =>
        r == Failure(if e.kind == FileNotFoundError
                     then PyException(FileNotFoundError, CommandNotFoundPrefix + (if useWsl then "wsl" else "rsync"))
                     else e)
  {
    if !rsyncOnPath && !useWsl then
      Failure(PyException(FileNotFoundError, RsyncMissingText))
    else
      var cmd := SyncCommand(source, dest, flags, dryRun, useWsl);
      match run(cmd, timeout)
      case Exited(rc, out) => Success(CompletedProcess(cmd, rc, out))
      case Raised(e) =>
        if e.kind == FileNotFoundError
        then Failure(PyException(FileNotFoundError, CommandNotFoundPrefix + cmd[0]))
        else Failure(e)
  }

  /** A Python value, enough to decide its truthiness. */
  datatype PyValue = PyNone | PyBool(b: bool) | PyInt(i: int) | PyStr(s: string) | PyList(items: seq<PyValue>)

  /** `bool(v)`. */
  predicate Truthy(v: PyValue) {
    match v
    case PyNone => false
    case PyBool(b) => b
    case PyInt(i) => i != 0
    case PyStr(s) => s != ""
    case PyList(items) => items != []
  }

  /** The node's input dictionary as `inputs.get(...)` reads it: a missing key reads as
      None, as does a key holding None. */
  datatype NodeInputs = NodeInputs(
    source: Option<string>,
    dest: Option<string>,
    flags: Option<seq<string>>,
    dryRun: PyValue,
    useWsl: PyValue)

  /** The dictionary the node returns: `{"success": True, "rc": ..., "output": ...}` or
      `{"success": False, "error": ...}`. */
  datatype NodeOutputs = Succeeded(rc: int, output: string) | Failed(error: string)

  predicate HasPaths(inputs: NodeInputs) {
    inputs.source.ValueOr("") != "" && inputs.dest.ValueOr("") != ""
  }

  /** `rsync_call_node`: checks both paths, then calls `rsync_sync` with the default
      timeout and turns its result or an `Exception` into the output dictionary. The
      result is `Success` with the dictionary the node returns, or `Failure` with an
      exception outside `Exception` that escapes the node. */
  function CallNode(inputs: NodeInputs, rsyncOnPath: bool, run: (seq<string>, Option<int>) -> Launch)
    : (out: Result<NodeOutputs, PyException>)
    ensures !HasPaths(inputs) ==> out == Success(Failed(PathsRequiredText))
    ensures HasPaths(inputs) ==>
      match RsyncSync(inputs.source.value, inputs.dest.value, inputs.flags, Truthy(inputs.dryRun),
                      Truthy(inputs.useWsl), Some(DefaultTimeout), rsyncOnPath, run)
      case Success(proc) => out == Success(Succeeded(proc.returncode, proc.stdout))
      case Failure(e) => out == if IsException(e.kind) then Success(Failed(e.text)) else Failure(e)
  {
    if !HasPaths(inputs) then
      Success(Failed(PathsRequiredText))
    else
      match RsyncSync(inputs.source.value, inputs.dest.value, inputs.flags, Truthy(inputs.dryRun),
                      Truthy(inputs.useWsl), Some(DefaultTimeout), rsyncOnPath, run)
      case Success(proc) => Success(Succeeded(proc.returncode, proc.stdout))
      case Failure(e) => if IsException(e.kind) then Success(Failed(e.text)) else Failure(e)
  }

  // Properties relating several operations.

  /** A non-empty flag list from the caller reaches rsync verbatim, between "rsync" and
      the source; only a missing or empty one is replaced by the default. */
  lemma CallerFlagsReachRsync(source: string, dest: string, flags: Option<seq<string>>, useWsl: bool)
    ensures var cmd := BuildCmd(source, dest, flags, useWsl);
      var k := if useWsl then 1 else 0;
      cmd[k + 1..|cmd| - 2] == (if flags.ValueOr([]) != [] then flags.value else DefaultFlags)
  {
  }

  /** WSL only puts "wsl" in front; the rsync invocation behind it is unchanged. */
  lemma WslOnlyPrefixes(source: string, dest: string, flags: Option<seq<string>>)
    ensures BuildCmd(source, dest, flags, true) == ["wsl"] + BuildCmd(source, dest, flags, false)
  {
  }

  /** With WSL the inserted "--dry-run" lands between "wsl" and "rsync", so it is an
      argument of `wsl`, not of `rsync`; without WSL it directly follows "rsync". */
  lemma DryRunPosition(source: string, dest: string, flags: Option<seq<string>>, useWsl: bool)
    ensures var cmd := SyncCommand(source, dest, flags, true, useWsl);
      if useWsl then cmd[..3] == ["wsl", DryRunFlag, "rsync"]
      else cmd[..2] == ["rsync", DryRunFlag]
  {
  }

  /** The insertion index the comment above it describes: right after "rsync", which is
      position 1 behind "wsl". */
  function IntendedDryRunIndex(useWsl: bool): nat {
    if useWsl then 2 else 1
  }

  function IntendedSyncCommand(source: string, dest: string, flags: Option<seq<string>>,
                               dryRun: bool, useWsl: bool): (cmd: seq<string>)
    ensures |cmd| == |SyncCommand(source, dest, flags, dryRun, useWsl)|
  {
    var cmd := BuildCmd(source, dest, flags, useWsl);
    if dryRun then Insert(cmd, IntendedDryRunIndex(useWsl), DryRunFlag) else cmd
  }

  /** With the intended index "--dry-run" always directly follows "rsync" and everything
      else keeps its order. */
  lemma IntendedDryRunFollowsRsync(source: string, dest: string, flags: Option<seq<string>>, useWsl: bool)
    ensures var cmd := IntendedSyncCommand(source, dest, flags, true, useWsl);
      var k := if useWsl then 1 else 0;
      && cmd[k] == "rsync" && cmd[k + 1] == DryRunFlag
      && cmd[..k + 1] + cmd[k + 2..] == BuildCmd(source, dest, flags, useWsl)
  {
  }

  /** The two agree except for a dry run through WSL, where the code as written puts
      "--dry-run" before "rsync". */
  lemma AsWrittenDiffersOnlyForWslDryRun(source: string, dest: string, flags: Option<seq<string>>,
                                         dryRun: bool, useWsl: bool)
    ensures SyncCommand(source, dest, flags, dryRun, useWsl) == IntendedSyncCommand(source, dest, flags, dryRun, useWsl)
      <==> !(dryRun && useWsl)
  {
  }

  /** Without rsync on the PATH and without WSL, nothing is launched: the result does not
      depend on the launcher at all. */
  lemma MissingRsyncLaunchesNothing(source: string, dest: string, flags: Option<seq<string>>,
                                    dryRun: bool, timeout: Option<int>,
                                    run1: (seq<string>, Option<int>) -> Launch,
                                    run2: (seq<string>, Option<int>) -> Launch)
    ensures RsyncSync(source, dest, flags, dryRun, false, timeout, false, run1)
         == RsyncSync(source, dest, flags, dryRun, false, timeout, false, run2)
    ensures RsyncSync(source, dest, flags, dryRun, false, timeout, false, run1).Failure?
  {
  }

  /** The node rejects missing paths before `rsync_sync` is reached: the answer does not
      depend on what is installed or what a launch would do. */
  lemma CallNodeChecksPathsFirst(inputs: NodeInputs, onPath1: bool, onPath2: bool,
                                 run1: (seq<string>, Option<int>) -> Launch,
                                 run2: (seq<string>, Option<int>) -> Launch)
    requires !HasPaths(inputs)
    ensures CallNode(inputs, onPath1, run1) == CallNode(inputs, onPath2, run2)
    ensures CallNode(inputs, onPath1, run1) == Success(Failed(PathsRequiredText))
  {
  }

  /** Whenever rsync runs, the node reports success with the exit status and output,
      whatever that exit status is. */
  lemma CallNodeSucceedsOnAnyExitStatus(inputs: NodeInputs, rsyncOnPath: bool,
                                        run: (seq<string>, Option<int>) -> Launch)
    requires HasPaths(inputs)
    requires rsyncOnPath || Truthy(inputs.useWsl)
    requires run(SyncCommand(inputs.source.value, inputs.dest.value, inputs.flags,
                             Truthy(inputs.dryRun), Truthy(inputs.useWsl)), Some(DefaultTimeout)).Exited?
    ensures var launch := run(SyncCommand(inputs.source.value, inputs.dest.value, inputs.flags,
                                          Truthy(inputs.dryRun), Truthy(inputs.useWsl)), Some(DefaultTimeout));
      CallNode(inputs, rsyncOnPath, run) == Success(Succeeded(launch.returncode, launch.stdout))
  {
  }

  /** The node returns a failure exactly when a path is missing or `rsync_sync` raised an
      `Exception`. */
  lemma CallNodeFailsIffException(inputs: NodeInputs, rsyncOnPath: bool,
                                  run: (seq<string>, Option<int>) -> Launch)
    ensures var out := CallNode(inputs, rsyncOnPath, run);
      out.Success? && out.value.Failed? <==>
        !HasPaths(inputs) ||
        var r := RsyncSync(inputs.source.value, inputs.dest.value, inputs.flags, Truthy(inputs.dryRun),
                           Truthy(inputs.useWsl), Some(DefaultTimeout), rsyncOnPath, run);
        r.Failure? && IsException(r.error.kind)
  {
  }

  /** An interrupt or exit raised while rsync runs is not caught by the node: it escapes
      unchanged, and nothing else escapes. */
  lemma CallNodeLetsBaseExceptionsEscape(inputs: NodeInputs, rsyncOnPath: bool,
                                         run: (seq<string>, Option<int>) -> Launch)
    ensures var out := CallNode(inputs, rsyncOnPath, run);
      out.Failure? <==>
        HasPaths(inputs) && (rsyncOnPath || Truthy(inputs.useWsl)) &&
        var launch := run(SyncCommand(inputs.source.value, inputs.dest.value, inputs.flags,
                                      Truthy(inputs.dryRun), Truthy(inputs.useWsl)), Some(DefaultTimeout));
        launch.Raised? && !IsException(launch.exception.kind)
    ensures var out := CallNode(inputs, rsyncOnPath, run);
      out.Failure? ==>
        out.error == run(SyncCommand(inputs.source.value, inputs.dest.value, inputs.flags,
                                     Truthy(inputs.dryRun), Truthy(inputs.useWsl)), Some(DefaultTimeout)).exception
  {
  }
}
