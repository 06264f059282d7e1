# Numato USB relay controller, modelled in Dafny

`numato` is a small command-line tool that switches relay 0 of a
single-channel Numato USB relay module over its virtual serial port. It is
run as `numato -d <device> -c on|off|pulse`. It scans its arguments, checks
that a device and a command were given, and wakes the device with a
carriage return. It then writes `relay on 0\r`, `relay off 0\r`, or both
with a one-second hold between them. Each of these writes opens the device,
writes one payload and closes the handle again. The first failure ends the
run with exit status 1. The file also holds `write_data`, a libcurl write
callback that gathers an HTTP response into a growing buffer.

The model has six modules:

- `Arguments` (arguments.dfy) is the argument scanner.
  - `ScanFrom`/`Scan` define what the scan does, as recursion over the
    arguments that remain.
  - `ParseArguments` is the `for` loop of `main`, with its index that jumps
    past a flag's value. It is proved to compute `Scan`.
- `Device` (device.dfy) holds the three payloads and the writer that
  `wakeup`, `activate` and `deactivate` share.
  - The operating system is an oracle. For each write session it says
    whether `open` succeeded and what `write` returned.
  - What the program does is recorded as an ordered list of effects: opens,
    failed opens, writes, closes, pauses and usage messages.
- `Controller` (controller.dfy) is the dispatcher.
  - `Dispatch` is the `strcmp` chain as written, with `oracle(k)` deciding
    write session `k`.
  - `Execute` runs a `Plan` (a list of sends and pauses) and stops at the
    first failure. `Dispatch` is proved equal to `Execute` on the plan of
    each recognised command.
  - The plan-level lemmas give the exit status, the order of the writes,
    the stop at the first failure, and the pairing of every open with its
    close.
- `Numato` (numato.dfy) is `main` as a whole. `Program` maps the arguments
  after the program name and the device oracle to an exit status and the
  effects.
- `UrlBuffer` (url_buffer.dfy) is `write_data`. It is a class over a byte
  array and a `size` field, and it reallocates, appends and NUL-terminates
  in place.
- `Wrappers` (wrappers.dfy) holds `Option`. Here `None` stands for a null
  pointer.

At its edges the code behaves as follows, and the model keeps that:

- When `-d` or `-c` is the last argument and is reached as a flag (not
  taken as the previous flag's value), the code reads `argv[argc]`, which
  is a null pointer. So the field is set back to null, even if an earlier
  flag had set it, and the run exits 1 at the check for missing parameters.
  No separate error is reported for the missing value. A trailing `-d`
  that is the value of a `-c` before it is just a command string.
- The code only checks that the device and the command are not null, so an
  empty string is accepted as either one. An empty command is then rejected
  as invalid. Whether an empty device path opens is up to the operating
  system, which the oracle stands for; the model does not tie it to the
  path.
- The writers treat only a return of 0 from `write` as failure. `write`
  returns an `ssize_t`, so the oracle's count is an `int`. A return of -1
  (an I/O error) counts as delivered, as it does in the code
  (`Device.ErrorReturnCountsAsDelivered`).

## Model

| member | source | states |
|---|---|---|
| `Arguments.ParseArguments` | numato.c:181-206 | The scanning loop, whose index also moves past a flag's value inside the body, returns the outcome that `Scan` defines: the device, the command and the number of usage messages, or a stop at a positional argument. |
| `Arguments.FlagSpellings` | numato.c:186-194 | `-` and `/` both introduce a flag. `d`/`D` select the device and `c`/`C` the command. A lone `-` or `/` is switched on NUL, which is no known letter. |
| `Arguments.UsagesOnlyAdd` | numato.c:196-198 | Usage messages printed so far never change how the rest of the scan goes. Starting with `k` more only adds `k` to the outcome. |
| `Arguments.UnknownFlagIsSkipped` | numato.c:196-198 | An unknown flag letter, a lone `-` included, is not fatal. It consumes no value, and the scan of the rest is as if the flag were absent, plus one usage message. |
| `Arguments.FlagTakesNextArgument` | numato.c:186-195 | A `d` or `c` flag sets its field to the next argument, whatever that argument is (empty, or itself flag-shaped). That argument is not scanned. |
| `Arguments.LaterFlagOverrides` | numato.c:190-195 | Of two flags with the same letter, the later one's value wins, whatever the scan reads between them (any arguments that end on an argument boundary, `Aligned`). The scan is the same as with the earlier flag and its value removed. |
| `Arguments.PositionalStopsScan` | numato.c:201-204 | An argument that does not start with `-` or `/` stops the scan at once with a positional outcome, whatever follows. The empty string is such an argument. |
| `Arguments.StopsExactlyAtStray` | numato.c:184-205 | The scan stops at a positional argument if and only if it reaches, as an argument of its own (not as a `d`/`c` flag's value), one that does not start with `-` or `/`. |
| `Arguments.StartValueKept` | numato.c:175-176 | A finished scan that reaches no `d` (or `c`) flag as a flag keeps the device (or command) it started with, which is null at `main`'s start. |
| `Arguments.ValueFollowsItsFlag` | numato.c:188-195 | A finished scan's device (or command) is the argument right after the last `d` (or `c`) flag that the scan reaches as a flag, not as a value. When that flag is the last argument, it is the null pointer `argv[argc]`. |
| `Arguments.TrailingFlagUnsets` | numato.c:190-195 | A `d`/`c` flag appended to arguments that end on an argument boundary is reached as a flag. It reads the null pointer after the last argument and leaves its own field unset, whatever earlier flags set. |
| `Device.PayloadsAreLines` | numato.c:32-34 | Each of `"\r"`, `"relay on 0\r"` and `"relay off 0\r"` ends with a carriage return and holds no other one. |
| `Device.TransmitContract` | numato.c:110-170 | The writers' shared contract. A session succeeds exactly when `open` succeeds and `write` returns nonzero. It opens the device once and writes the payload once if the device opened. It closes the handle it opened on both the success and the failure path. |
| `Device.ErrorReturnCountsAsDelivered` | numato.c:120-125 | A `write` that returns -1 passes the writers' zero test and counts as success. |
| `Controller.CommandsAreCaseSensitive` | numato.c:226-242 | The match is exact: `On`, `ON`, `Off`, `Pulse`, `on ` and the empty string are not commands. |
| `Controller.ExecuteExit` | numato.c:219-265 | Running a plan exits 0 or 1. It exits 0 exactly when every session of the plan is delivered. |
| `Controller.ExecuteSessions` | numato.c:110-170 | In a plan's run, every successful open is followed at once by its one write and its close. No handle is left open or used twice. |
| `Controller.ExecuteDeliversPlan` | numato.c:217-257 | A plan's run that exits 0 opened the device once per planned session and wrote exactly the plan's payloads, in order. |
| `Controller.ExecuteStopsAtFirstFailure` | numato.c:219-256 | If session `j` is the first to fail, the run exits 1 after `j + 1` opens. It has written the plan's first `j` payloads, plus the failing one if the device opened, and nothing after. |
| `Controller.DispatchFollowsPlan` | numato.c:217-257 | For `on`, `off` and `pulse`, the `strcmp` chain gives exactly the exit status and effects of running the command's plan: wake-up, a 50 µs pause, then the relay payloads, with a one-second hold inside a pulse. |
| `Controller.InvalidCommandOnlyWakes` | numato.c:258-263 | Any other command exits 1 after the wake-up session alone. It writes at most `"\r"` and never a relay payload. |
| `Controller.DispatchSessions` | numato.c:217-265 | Every dispatch exits 0 or 1, and every handle it opens it closes before the next open. |
| `Controller.PlannedPayloads` | numato.c:226-257 | The plans write `"\r"` then `"relay on 0\r"` for `on`, and `"\r"` then `"relay off 0\r"` for `off`. For `pulse` they write `"\r"`, `"relay on 0\r"`, `"relay off 0\r"`, in that order. |
| `Controller.PulseWhenAllDelivered` | numato.c:242-257 | When all three sessions are delivered, a pulse is exactly: the wake-up session, the settling pause, the `on` session, the one-second hold, the `off` session. It exits 0. |
| `Numato.BadArgumentsTouchNoDevice` | numato.c:201-215 | A positional argument, or a device or command still unset after the scan, makes the program exit 1 with no open and no write. |
| `Numato.StrayArgumentFails` | numato.c:201-204 | An argument that does not start with `-` or `/`, reached anywhere in the scan as an argument of its own, makes the program exit 1 with no open and no write. |
| `Numato.ProgramSessions` | numato.c:172-266 | Every run exits 0 or 1 and closes each handle it opens before it opens the next. |
| `Numato.ProgramSucceedsIff` | numato.c:172-266 | The program exits 0 exactly when the scan finished with both fields set, the command is `on`, `off` or `pulse`, and every session of that command is delivered. |
| `Numato.SuccessWritesPlan` | numato.c:217-265 | A run that exits 0 had good arguments and a recognised command, and it wrote exactly that command's payloads, in order. |
| `Numato.FailureWritesPlanPrefix` | numato.c:219-256 | With good arguments, when session `j` is the first to fail, the run exits 1. It has written only the first `j` payloads of the command, plus the failing one if the device opened. |
| `Numato.InvalidCommandWritesOnlyWakeUp` | numato.c:258-263 | With an unrecognised command, the run exits 1 and writes `"\r"` if the device opened, and nothing otherwise. |
| `Numato.UnknownFlagOnlyPrintsUsage` | numato.c:196-198 | Putting an unknown flag first changes the program's run only by one usage message in front. |
| `Numato.TrailingFlagFails` | numato.c:190-215 | A `d`/`c` flag given last and reached as a flag makes the program exit 1 with no open and no write, whatever earlier flags set. |
| `UrlBuffer.Realloc` | numato.c:48 | The reallocated block is fresh, has the requested length, and keeps the old bytes that fit. |
| `UrlBuffer.UrlData.constructor` | numato.c:72-74 | The buffer starts with nothing received: size 0 and 4096 zero bytes, so it is NUL-terminated. |
| `UrlBuffer.UrlData.WriteData` | numato.c:42-63 | `size` grows by `size*nitems` on both paths. When reallocation succeeds, the buffer is the old bytes followed by the incoming ones, exactly `size + 1` long, with a NUL at `size`, and the return value is `size*nitems`. When it fails, the buffer is freed and the return value is 1 (`EXIT_FAILURE`). |

## Left out

- `EbanxReset` (a libcurl POST to a fixed URL): it is network I/O and is never called. Only its initial buffer setup is modelled, as the constructor.
- The `open`, `write` and `close` system calls, `errno` and `strerror`: they are replaced by a per-session oracle (`Attempt`). The oracle is indexed by session number only, so it cannot react to the path or the payload.
- `usleep(50)` and `sleep(1)`: they appear only as `Paused` effects, in their place in the order. Real time is not modelled.
- The text of `printf` and `usage`: a usage message is one `Usage` effect, and the banner and error lines are not recorded.
- The program name `argv[0]`: it is only printed in the usage text, so `Program` takes the arguments after it.
- `tolower` covers only the C locale's ASCII letters. A negative `char` (undefined behaviour in C) is not modelled.
- NUL characters inside arguments: C strings cannot hold them, but Dafny strings can. The model compares whole strings.
- `UrlBuffer.UrlData.WriteData`: does not model `size_t` wrap-around of `size*nitems`, `size + 1` or the running size, because that needs a buffer near 2^64 bytes.
- `UrlBuffer.Realloc`: always returns a fresh block, since Dafny arrays have a fixed length. C's `realloc` may grow the block in place and return the same pointer, so pointer identity across a reallocation (and `WriteData`'s `fresh(data)`) is not modelled.
- `UrlBuffer.UrlData.WriteData`: after a failed reallocation, the dangling pointer is modelled as `live == false`. A later call needs `Valid()`, so use after free is excluded rather than modelled.
- A run leaves no state behind, since every function is pure. Repeated invocations with the same inputs therefore give the same effects, and no lemma states it.
