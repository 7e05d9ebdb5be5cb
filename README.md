# A verified model of the regression-test command runner

The regression-test framework runs its subject programs through `CmdRunner`
(`regression_tests/cmd_runner.py`). `run_cmd` starts a command and feeds it
input, optionally with a timeout. It captures stdout and stderr combined. On
timeout it sends SIGTERM to the child's process group (Linux) or runs
`taskkill /F /T` on the child (Windows), then drains the remaining output.
The captured bytes are decoded, line endings are normalised and shell colours
are stripped. `start` installs a SIGTERM handler that kills the running child
before the runner exits. Each of the two process wrappers (`_LinuxProcess` and
`_WindowsProcess`) has a `kill` that takes effect only once.

This project models that logic in Dafny and proves what the code promises:

- `common.dfy` (`Common`): bytes, `Option`, and `Result` for operations that can raise.
- `line_endings.dfy` (`LineEndings`): the `\r\n?` → `\n` substitution as a recursive function, with lemmas on its length, idempotence, preserved text, line-break count and chunked application.
- `decimal.dfy` (`Decimal`): `str(pid)` for the taskkill command line, with its inverse.
- `decoding.dfy` (`Decoding`): input encoding and the nested `decode` pipeline.
- `popen.dfy` (`Popen`): the stream arguments of `start`, the platform choice, and the Windows interpreter shim. The shim updates the caller's own list object (`ArgList`) in place. It also holds a `Process` class whose `Kill` keeps a `killed` flag and a ghost history of OS requests. The class invariant `Valid` says the process (group) is terminated at most once, exactly when `Kill` has run, and only ever at the handle's own `pid`.
- `cmd_runner.dfy` (`CmdRunner`): the process-wide state (`on_windows()`, `sys.executable` and the single SIGTERM handler slot) as a `Host` class, plus `Start`, `RunCmd` and handler delivery.

Anything that lies outside the program becomes a parameter:

- the pid the OS assigns, or its spawn error;
- the outcome of each `communicate`;
- the codec's decode and encode functions;
- `io.strip_shell_colors`;
- `on_windows()` and `sys.executable`.

Two behaviours of the code are worth stating directly:

- The kill-once flag (lines 138-145) guards only a `kill` after an earlier `kill`. A process that exited on its own was never killed, so a later SIGTERM still makes the handler issue its termination action for that pid (`CmdRunner.SigtermAfterNaturalExit`).
- The docstring says `input_encoding` encodes the command's *output*. The code uses it to encode the *input* (lines 26 and 65-66). The model follows the code.

## Model

| member | source | states |
|---|---|---|
| LineEndings.Normalize | regression_tests/cmd_runner.py:58 | The result of the `\r\n?` → `\n` substitution contains no carriage return. |
| LineEndings.NormalizeLength | regression_tests/cmd_runner.py:58 | The output length is the input length minus the number of `\r\n` pairs, so each pair and each lone `\r` becomes exactly one character. |
| LineEndings.NormalizeIdentity | regression_tests/cmd_runner.py:58 | Text without `\r` is left unchanged. |
| LineEndings.NormalizeIdempotent | regression_tests/cmd_runner.py:58 | Normalising twice equals normalising once. |
| LineEndings.NormalizeKeepsText | regression_tests/cmd_runner.py:44-46 | Only line breaks change: with all `\r`/`\n` removed, input and output are the same text. |
| LineEndings.NormalizeCountsBreaks | regression_tests/cmd_runner.py:44-46 | The number of `\n` in the output is the number of line breaks in the input (`\n`, lone `\r`, `\r\n`). |
| LineEndings.NormalizeAppend | regression_tests/cmd_runner.py:58 | Normalisation distributes over concatenation when the first part does not end in `\r`. |
| LineEndings.HelloWorld | regression_tests/cmd_runner.py:58 | `hello\r\nworld` normalises to `hello\nworld`. |
| Decimal.Show | regression_tests/cmd_runner.py:173 | `str(pid)` is a non-empty string of decimal digits with no leading zero. |
| Decimal.ValueOfShow | regression_tests/cmd_runner.py:173 | Reading back `str(pid)` gives `pid`. |
| Decimal.ShowInjective | regression_tests/cmd_runner.py:173 | Different pids print differently, so the taskkill command line names exactly one process. |
| Decoding.EncodeInput | regression_tests/cmd_runner.py:65-66 | Bytes input is passed through unchanged. Text input is encoded with `input_encoding`. |
| Decoding.Decode | regression_tests/cmd_runner.py:55-61 | Bytes come back raw, and unchanged, exactly when `output_encoding` is `None`. With an encoding and no colour stripping, the result is the normalised decoded text: it has no `\r`, is shorter by the number of `\r\n` pairs, keeps the text between line breaks, and has one `\n` per input line break. With stripping, the colour filter runs after normalisation. |
| Popen.StreamsFor | regression_tests/cmd_runner.py:93-98 | stdin is always a pipe. stdout and stderr end in the same place. That place is the readable pipe, with stderr merged into stdout, exactly when output is not discarded, and DEVNULL otherwise. |
| Popen.VariantFor | regression_tests/cmd_runner.py:99-102 | The Windows wrapper is chosen exactly when `on_windows()` holds, and the Linux one otherwise. |
| Popen.WithInterpreter | regression_tests/cmd_runner.py:161-162 | If the list is non-empty and its first element ends with `.py`, the result is the interpreter followed by the original list (one longer). Otherwise the list is unchanged. |
| Popen.ShimStable | regression_tests/cmd_runner.py:161-162 | Applying the shim again to an already-shimmed list changes nothing, provided the interpreter path is not a `.py` file. |
| Popen.InsertInterpreter | regression_tests/cmd_runner.py:161-162 | The caller's own list object is updated in place to the shimmed list. |
| Popen.TerminationTargetsPid | regression_tests/cmd_runner.py:136-174 | Each variant's termination action is aimed at the handle's own pid and nothing else: SIGTERM to process group `pid`, or `taskkill /F /T /PID <pid>` with its stdout and stderr discarded. |
| Popen.Process.constructor | regression_tests/cmd_runner.py:118-132 | A new handle is unkilled, has no history and no return code. For the Linux variant the child leads a new session (`preexec_fn=os.setsid`). |
| Popen.Process.Kill | regression_tests/cmd_runner.py:134-183 | The first call appends exactly one termination action and sets `killed`. Every later call appends nothing. The kill-once invariant `Valid` is preserved. |
| Popen.Process.Communicate | regression_tests/cmd_runner.py:70-76 | Records the request. A finished call sets `returncode` to the reported exit status. A call without a timeout cannot expire: it either finishes or never returns, and the model covers only calls that return. |
| Popen.Create | regression_tests/cmd_runner.py:118-163 | The Windows wrapper shims the caller's list before spawning, so the list changes even when the spawn fails. A spawn error propagates. Otherwise a fresh, unkilled handle with the given pid, variant, list object and streams is returned. |
| CmdRunner.Start | regression_tests/cmd_runner.py:79-112 | Builds the streams from `discard_output` and the variant from `on_windows()`. A successful start overwrites the single SIGTERM slot with the new process. A spawn error leaves the slot as it was. |
| CmdRunner.Host.DeliverSigterm | regression_tests/cmd_runner.py:107-110 | The handler kills the process in the slot (a no-op if it is already killed) and exits with status 1. With no handler installed, SIGTERM terminates the runner. The exit assumes the termination request itself does not raise (see the `os.killpg` and taskkill lines under Left out). |
| CmdRunner.RunCmd | regression_tests/cmd_runner.py:18-77 | Input is encoded before the first `communicate`. If that call finishes, the result is `(decode(output), returncode, False)` and nothing is killed. On timeout the history is exactly: timed `communicate`, one termination action, untimed `communicate`. The result is then that last call's decoded output and return code with `True`. A spawn error propagates. |
| CmdRunner.SigtermAfterTimeout | regression_tests/cmd_runner.py:138-145 | SIGTERM after a timed-out run exits the runner with status 1, and the process has still been terminated exactly once. |
| CmdRunner.SigtermAfterNaturalExit | regression_tests/cmd_runner.py:104-110 | SIGTERM after a command finished on its own still issues one termination action for its pid, then the runner exits with 1. The exit holds on Windows, and on Linux only while the process group still exists (see the `os.killpg` line under Left out). |

## Left out

- Process creation, `communicate`'s pipe draining and real timeouts are OS I/O and concurrency inside `subprocess`. The model takes their outcomes as parameters (`Spawn`, `Wait`).
- The OS effects of `os.setsid`, `os.killpg`, `taskkill` and `sys.exit` are not modelled. They appear only as entries in the ghost history, or as the host's status, or, for `os.setsid`, as `Process.newSession`.
- An `os.killpg` that raises `ProcessLookupError` is not modelled. This happens when the group is already gone, for example after `communicate` reaped a child that exited on its own and no group member is left. In the source, `kill` then stays armed, and inside the SIGTERM handler the exception escapes before `sys.exit(1)` on line 109. The model treats the termination request as always issued and the handler as always exiting with 1.
- The untimed `communicate()` after a kill (line 76) waits for end-of-file and for the child to exit. A child or descendant that catches or ignores SIGTERM keeps it blocked forever, so `run_cmd` never returns. The model covers only runs that return (`RunCmd` requires a finished drain).
- A `LookupError` for an unknown encoding name is not modelled. It can come from `input.encode` on line 66, before anything is spawned. It can also come from `output.decode` on line 57, after the process has already run.
- A `UnicodeEncodeError` from the strict `input.encode` on line 66 is not modelled. It is raised before `start`, so nothing is spawned and no handler is installed. The model's encoder is total.
- `signal.signal` raising `ValueError` when `start` runs outside the main thread (line 110) is not modelled. This happens after the spawn, so the child runs with no handler installed and `start` raises. `CmdRunner.Start`'s success case always installs the handler.
- The exit status taskkill returns is ignored by the source (line 174). A failure to start taskkill raises out of `kill` before line 183: `kill` stays armed, and `run_cmd` or the handler raises. The model's `Kill` always succeeds.
- Asynchronous signal delivery and races between the handler and a natural exit are not modelled. SIGTERM is delivered as a step between other operations.
- The codec's `decode(errors='replace')` and `encode`, and `io.strip_shell_colors`, are not part of this model. They are uninterpreted function parameters, so no property of colour stripping (such as idempotence) is proved.
- `on_windows()` and `sys.executable` are not part of this model. They are a flag and an opaque string of the host.
- Timeout values are recorded as given; their units and arithmetic play no role.
- Python's other `Popen` attributes and methods (`wait`, `poll`, stream objects) are not used by this file beyond `pid`, `returncode` and `communicate`.
