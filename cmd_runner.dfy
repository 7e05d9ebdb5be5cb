/**
 * `CmdRunner`: starting a command and running it to completion or timeout,
 * over the process-wide state both rely on.
 */
module CmdRunner {
  import opened Common
  import opened Decoding
  import opened Popen

  /** What became of the host (runner) process. */
  datatype HostStatus = Running | Exited(code: int) | TerminatedBySignal(signal: int)

  /**
   * The process-wide state of the runner: the platform flag `on_windows()`,
   * the interpreter path `sys.executable`, and the single SIGTERM handler
   * slot of `signal.signal`, which holds the process whose `kill` the handler
   * calls (`None` while the default disposition is in force).
   */
  class Host {
    const onWindows: bool
    const interpreter: string
    var sigterm: Option<Process>
    var status: HostStatus

    constructor(onWindows: bool, interpreter: string)
      ensures this.onWindows == onWindows && this.interpreter == interpreter
      ensures sigterm == None && status == Running
    {
      this.onWindows := onWindows;
      this.interpreter := interpreter;
      sigterm := None;
      status := Running;
    }

    /**
     * SIGTERM reaches the runner. The installed handler kills the most
     * recently started process (a no-op if that handle was already killed)
     * and exits with status 1; with no handler installed the default
     * disposition terminates the runner.
     */
    method DeliverSigterm()
      requires status == Running
      requires sigterm.Some? ==> sigterm.value.Valid()
      modifies this`status, if sigterm.Some? then {sigterm.value} else {}
      ensures sigterm == old(sigterm)
      ensures sigterm.None? ==> status == TerminatedBySignal(SIGTERM)
      ensures sigterm.Some? ==> status == Exited(1)
      ensures sigterm.Some? ==> var p := sigterm.value;
        && p.Valid() && p.killed && p.returncode == old(p.returncode)
        && p.history == if old(p.killed) then old(p.history) else old(p.history) + [TerminationOf(p.variant, p.pid)]
    {
      match sigterm
      case None =>
        status := TerminatedBySignal(SIGTERM);
      case Some(p) =>
        p.Kill();
        status := Exited(1);
    }
  }

  /**
   * `start(cmd, discard_output)`: builds the stream arguments, picks the
   * wrapper for the platform, spawns, and on success points the SIGTERM slot
   * at the new process, replacing whatever it held. A spawn error propagates
   * and leaves the slot alone.
   */
  method Start(host: Host, cmd: ArgList, discardOutput: bool, spawn: Spawn) returns (r: Result<Process>)
    modifies host`sigterm, cmd
    ensures cmd.items == if host.onWindows then WithInterpreter(old(cmd.items), host.interpreter) else old(cmd.items)
    ensures spawn.SpawnFailed? ==> r == Failure(spawn.error) && host.sigterm == old(host.sigterm)
    ensures spawn.Spawned? ==> r.Success? && host.sigterm == Some(r.value) && fresh(r.value)
    ensures spawn.Spawned? ==> var p := r.value;
      && p.Valid() && !p.killed && p.returncode == None && p.history == []
      && p.pid == spawn.pid && p.args == cmd
      && p.variant == VariantFor(host.onWindows)
      && p.streams == StreamsFor(discardOutput)
  {
    var streams := StreamsFor(discardOutput);
    var variant := VariantFor(host.onWindows);
    r := Create(variant, cmd, streams, host.interpreter, spawn);
    if r.Success? {
      host.sigterm := Some(r.value);
    }
  }

  /** The triple `(output, return_code, timeouted)`. */
  datatype RunResult = RunResult(output: Output, returnCode: int, timeouted: bool)

  /**
   * `run_cmd`. The outcomes of the two `communicate` calls are the operating
   * system's and come in as `first` (with the timeout) and `drained` (the
   * untimed call after a kill). An untimed call either finishes or never
   * returns; only runs that return are modelled, so `drained` is a finished one.
   */
  method RunCmd(host: Host, cmd: ArgList, input: Input, timeout: Option<int>, inputEncoding: string,
                outputEncoding: Option<string>, stripShellColors: bool, codecs: Codecs,
                spawn: Spawn, first: Wait, drained: Wait)
    returns (r: Result<RunResult>)
    requires timeout.None? ==> first.Finished?
    requires drained.Finished?
    modifies host`sigterm, cmd
    ensures cmd.items == if host.onWindows then WithInterpreter(old(cmd.items), host.interpreter) else old(cmd.items)
    ensures spawn.SpawnFailed? ==> r == Failure(spawn.error) && host.sigterm == old(host.sigterm)
    ensures spawn.Spawned? ==> r.Success? && host.sigterm.Some? && fresh(host.sigterm.value)
    ensures spawn.Spawned? ==> var p := host.sigterm.value;
      && p.Valid() && p.pid == spawn.pid && p.args == cmd
      && p.variant == VariantFor(host.onWindows) && p.streams == StreamsFor(false)
    ensures spawn.Spawned? && first.Finished? ==> var p := host.sigterm.value;
      && r.value == RunResult(Decode(first.output, outputEncoding, stripShellColors, codecs), first.returnCode, false)
      && p.history == [Communicated(Some(EncodeInput(input, inputEncoding, codecs)), timeout)]
      && !p.killed
    ensures spawn.Spawned? && first.Expired? ==> var p := host.sigterm.value;
      && r.value == RunResult(Decode(drained.output, outputEncoding, stripShellColors, codecs), drained.returnCode, true)
      && p.history == [Communicated(Some(EncodeInput(input, inputEncoding, codecs)), timeout),
                       TerminationOf(p.variant, p.pid),
                       Communicated(None, None)]
      && p.killed
  {
    var bytes := EncodeInput(input, inputEncoding, codecs);
    var started := Start(host, cmd, false, spawn);
    if started.Failure? {
      return Failure(started.error);
    }
    var p := started.value;
    p.Communicate(Some(bytes), timeout, first);
    if first.Finished? {
      return Success(RunResult(Decode(first.output, outputEncoding, stripShellColors, codecs), p.returncode.value, false));
    }
    // Kill the process along with its children, then finish the communication.
    p.Kill();
    p.Communicate(None, None, drained);
    r := Success(RunResult(Decode(drained.output, outputEncoding, stripShellColors, codecs), p.returncode.value, true));
  }

  /**
   * The race the kill-once flag exists for: a command times out (and is
   * killed by `run_cmd`), then SIGTERM reaches the runner. The handler's
   * second `kill` does nothing, so the process was terminated exactly once.
   */
  method SigtermAfterTimeout(host: Host, cmd: ArgList, input: Input, timeout: int, codecs: Codecs,
                             pid: nat, drained: Wait)
    returns (r: Result<RunResult>)
    requires host.status == Running
    requires drained.Finished?
    modifies host, cmd
    ensures r.Success? && r.value.timeouted
    ensures host.status == Exited(1) && host.sigterm.Some?
    ensures var p := host.sigterm.value;
      && p.Valid() && p.killed && p.pid == pid && Terminations(p.history) == 1
      && p.history[|p.history| - 1] == Communicated(None, None)
  {
    r := RunCmd(host, cmd, input, Some(timeout), "utf-8", Some("utf-8"), true, codecs,
                Spawned(pid), Expired, drained);
    host.DeliverSigterm();
  }

  /**
   * SIGTERM after a command finished on its own: `kill` was never called
   * before, so the handler still sends its termination action to `pid`.
   * The flag guards a second `kill`, not a natural exit.
   */
  method SigtermAfterNaturalExit(host: Host, cmd: ArgList, input: Input, codecs: Codecs,
                                 pid: nat, output: seq<byte>, returnCode: int, drained: Wait)
    returns (r: Result<RunResult>)
    requires host.status == Running
    requires drained.Finished?
    modifies host, cmd
    ensures r.Success? && !r.value.timeouted && r.value.returnCode == returnCode
    ensures host.status == Exited(1) && host.sigterm.Some?
    ensures var p := host.sigterm.value;
      && p.Valid() && p.killed && Terminations(p.history) == 1
      && p.history[|p.history| - 1] == TerminationOf(p.variant, pid)
  {
    r := RunCmd(host, cmd, input, None, "utf-8", Some("utf-8"), true, codecs,
                Spawned(pid), Finished(output, returnCode), drained);
    host.DeliverSigterm();
  }
}
