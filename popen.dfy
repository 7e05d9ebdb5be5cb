/**
 * The process handles `CmdRunner.start` creates: the stream arguments it
 * passes, the choice between the Linux and Windows wrappers, the Windows
 * wrapper's interpreter shim, and the kill-once behaviour of both `kill`
 * methods.
 */
module Popen {
  import opened Common
  import Decimal

  /** Where a standard stream of the child is connected (`subprocess.PIPE`, `DEVNULL`, `STDOUT`). */
  datatype Destination = Pipe | DevNull | MergedIntoStdout

  /** The `stdin`, `stdout` and `stderr` arguments of the process constructor. */
  datatype StreamConfig = StreamConfig(stdin: Destination, stdout: Destination, stderr: Destination)

  /** The two output channels of the child. */
  datatype Channel = StdOut | StdErr

  /** Where what the child writes on `channel` finally goes, following a merge into stdout. */
  function Sink(streams: StreamConfig, channel: Channel): Destination
  {
    match channel
    case StdOut => streams.stdout
    case StdErr => if streams.stderr == MergedIntoStdout then streams.stdout else streams.stderr
  }

  /**
   * The stream arguments `start` builds from `discard_output`: stdin is
   * always a pipe; both output channels end in one shared place, which is the
   * readable pipe (stderr merged into stdout) unless output is discarded.
   */
  function StreamsFor(discardOutput: bool): (streams: StreamConfig)
    ensures streams.stdin == Pipe
    ensures Sink(streams, StdOut) == Sink(streams, StdErr)
    ensures Sink(streams, StdOut) == (if discardOutput then DevNull else Pipe)
    ensures streams.stderr == MergedIntoStdout <==> !discardOutput
  {
    StreamConfig(
      Pipe,
      if discardOutput then DevNull else Pipe,
      if discardOutput then DevNull else MergedIntoStdout)
  }

  /** The two process wrappers. */
  datatype Variant = Linux | Windows

  /** `_WindowsProcess` exactly when `on_windows()` holds, `_LinuxProcess` otherwise. */
  function VariantFor(onWindows: bool): (v: Variant)
    ensures v == Windows <==> onWindows
  {
    if onWindows then Windows else Linux
  }

  /** `str.endswith('.py')`. */
  predicate IsPythonScript(arg: string)
  {
    |arg| >= 3 && arg[|arg| - 3..] == ".py"
  }

  /** The shim applies when the list is non-empty and names a Python script first. */
  predicate NeedsInterpreter(args: seq<string>)
  {
    |args| > 0 && IsPythonScript(args[0])
  }

  /** The argument list after the Windows wrapper's shim. */
  function WithInterpreter(args: seq<string>, interpreter: string): (r: seq<string>)
    ensures NeedsInterpreter(args) ==> |r| == |args| + 1 && r[0] == interpreter && r[1..] == args
    ensures !NeedsInterpreter(args) ==> r == args
  {
    if NeedsInterpreter(args) then [interpreter] + args else args
  }

  /**
   * The shim is applied to the caller's own list, so a list reused for a
   * second start goes through it again; as long as the interpreter path is
   * not itself a `.py` file, the second pass changes nothing.
   */
  lemma ShimStable(args: seq<string>, interpreter: string)
    requires !IsPythonScript(interpreter)
    ensures WithInterpreter(WithInterpreter(args, interpreter), interpreter)
         == WithInterpreter(args, interpreter)
  {
    if NeedsInterpreter(args) {
      assert WithInterpreter(args, interpreter)[0] == interpreter;
    }
  }

  /** A Python list object, which callers and the process handle share. */
  class ArgList {
    var items: seq<string>

    constructor(items: seq<string>)
      ensures this.items == items
    {
      this.items := items;
    }
  }

  /** `kwargs['args'].insert(0, sys.executable)` when the first element ends with `.py`. */
  method InsertInterpreter(args: ArgList, interpreter: string)
    modifies args
    ensures args.items == WithInterpreter(old(args.items), interpreter)
  {
    if |args.items| > 0 && IsPythonScript(args.items[0]) {
      args.items := [interpreter] + args.items;
    }
  }

  /** The operating system's answer to a spawn request. */
  datatype Spawn = Spawned(pid: nat) | SpawnFailed(error: string)

  /** `signal.SIGTERM` on Linux. */
  const SIGTERM := 15

  /** The taskkill command line up to the process identifier. */
  const TASKKILL := ["taskkill", "/F", "/T", "/PID"]

  /** What a process handle asks of the operating system, in order. */
  datatype Event =
    | KillPg(pgid: nat, signal: int)
    | Run(cmd: seq<string>, stdout: Destination, stderr: Destination)
    | Communicated(input: Option<seq<byte>>, timeout: Option<int>)

  /** The one termination action of `kill` on each variant. */
  function TerminationOf(variant: Variant, pid: nat): Event
  {
    match variant
    case Linux => KillPg(pid, SIGTERM)
    case Windows => Run(TASKKILL + [Decimal.Show(pid)], DevNull, DevNull)
  }

  /** Whether an event terminates processes: a group signal or a taskkill run. */
  predicate IsTermination(e: Event)
  {
    e.KillPg? || (e.Run? && |e.cmd| == 5 && e.cmd[..4] == TASKKILL)
  }

  /** The process (group) a termination event is aimed at, if it names one. */
  function Target(e: Event): Option<nat>
  {
    if e.KillPg? then Some(e.pgid)
    else if IsTermination(e) && Decimal.IsDigits(e.cmd[4]) then Some(Decimal.Value(e.cmd[4]))
    else None
  }

  /**
   * On either variant the termination action is a termination event aimed at
   * the handle's own `pid` and at nothing else; the taskkill run discards its
   * output, and the group signal is SIGTERM.
   */
  lemma {:induction false} TerminationTargetsPid(variant: Variant, pid: nat)
    ensures IsTermination(TerminationOf(variant, pid))
    ensures Target(TerminationOf(variant, pid)) == Some(pid)
    ensures variant == Linux ==> TerminationOf(variant, pid).signal == SIGTERM
    ensures variant == Windows ==>
              TerminationOf(variant, pid).stdout == DevNull && TerminationOf(variant, pid).stderr == DevNull
  {
    if variant == Windows {
      var cmd := TASKKILL + [Decimal.Show(pid)];
      assert cmd[..4] == TASKKILL;
      Decimal.ValueOfShow(pid);
    }
  }

  /** The number of termination events in a history. */
  function Terminations(history: seq<Event>): nat
  {
    if |history| == 0 then 0
    else Terminations(history[..|history| - 1]) + (if IsTermination(history[|history| - 1]) then 1 else 0)
  }

  lemma TerminationsAppend(history: seq<Event>, e: Event)
    ensures Terminations(history + [e]) == Terminations(history) + (if IsTermination(e) then 1 else 0)
  {
    assert (history + [e])[..|history|] == history;
  }

  /**
   * A started process (`_LinuxProcess` or `_WindowsProcess`). `killed` stands
   * for `self.kill` having been replaced by the no-op; `history` records what
   * the handle asked of the operating system.
   */
  class Process {
    const pid: nat
    const variant: Variant
    /** The caller's own list: `args=cmd` passes the object, not a copy. */
    const args: ArgList
    const streams: StreamConfig
    /** The Linux wrapper passes `preexec_fn=os.setsid`: the child leads a new session and group. */
    const newSession: bool
    var killed: bool
    var returncode: Option<int>
    ghost var history: seq<Event>

    /**
     * Kill-once: the handle has terminated its process (group) at most once,
     * exactly when `kill` has run, and only ever aimed at its own process.
     */
    ghost predicate Valid()
      reads this
    {
      && Terminations(history) == (if killed then 1 else 0)
      && forall i :: 0 <= i < |history| && IsTermination(history[i]) ==> history[i] == TerminationOf(variant, pid)
    }

    constructor(pid: nat, variant: Variant, args: ArgList, streams: StreamConfig)
      ensures Valid()
      ensures this.pid == pid && this.variant == variant && this.args == args && this.streams == streams
      ensures newSession == (variant == Linux)
      ensures !killed && returncode == None && history == []
    {
      this.pid := pid;
      this.variant := variant;
      this.args := args;
      this.streams := streams;
      this.newSession := variant == Linux;
      killed := false;
      returncode := None;
      history := [];
    }

    /**
     * `kill`: the first call sends SIGTERM to the process group `pid` (Linux)
     * or runs `taskkill /F /T /PID <pid>` with its output discarded (Windows),
     * then disables itself; every later call does nothing.
     */
    method Kill()
      requires Valid()
      modifies this`killed, this`history
      ensures Valid() && killed
      ensures history == if old(killed) then old(history) else old(history) + [TerminationOf(variant, pid)]
    {
      if !killed {
        TerminationsAppend(history, TerminationOf(variant, pid));
        TerminationTargetsPid(variant, pid);
        history := history + [TerminationOf(variant, pid)];
        killed := true;
      }
    }

    /**
     * `communicate(input, timeout)`: feeds `input`, drains the output and
     * waits. The outcome is the operating system's. A call without a timeout
     * cannot expire: it either finishes or never returns, and only calls that
     * return are modelled. A finished call sets `returncode`.
     */
    method Communicate(input: Option<seq<byte>>, timeout: Option<int>, outcome: Wait)
      requires Valid()
      requires timeout.None? ==> outcome.Finished?
      modifies this`returncode, this`history
      ensures Valid()
      ensures history == old(history) + [Communicated(input, timeout)]
      ensures returncode == if outcome.Finished? then Some(outcome.returnCode) else old(returncode)
    {
      TerminationsAppend(history, Communicated(input, timeout));
      history := history + [Communicated(input, timeout)];
      if outcome.Finished? {
        returncode := Some(outcome.returnCode);
      }
    }
  }

  /** The outcome of one `communicate`: the captured output and exit status, or `TimeoutExpired`. */
  datatype Wait = Finished(output: seq<byte>, returnCode: int) | Expired

  /**
   * The wrappers' constructors: the Windows one applies the interpreter shim
   * to the caller's list before spawning (so the list is changed even when
   * spawning fails); then the process is spawned or the spawn error raised.
   */
  method Create(variant: Variant, args: ArgList, streams: StreamConfig, interpreter: string, spawn: Spawn)
    returns (r: Result<Process>)
    modifies args
    ensures args.items == if variant == Windows then WithInterpreter(old(args.items), interpreter) else old(args.items)
    ensures spawn.SpawnFailed? ==> r == Failure(spawn.error)
    ensures spawn.Spawned? ==> r.Success? && fresh(r.value) && r.value.Valid()
    ensures spawn.Spawned? ==> r.value.pid == spawn.pid && r.value.variant == variant
    ensures spawn.Spawned? ==> r.value.args == args && r.value.streams == streams
    ensures spawn.Spawned? ==> r.value.newSession == (variant == Linux)
    ensures spawn.Spawned? ==> !r.value.killed && r.value.returncode == None && r.value.history == []
  {
    if variant == Windows {
      InsertInterpreter(args, interpreter);
    }
    match spawn
    case SpawnFailed(error) =>
      r := Failure(error);
    case Spawned(pid) =>
      var p := new Process(pid, variant, args, streams);
      r := Success(p);
  }
}
