/**
 * `main` as a whole: scan the arguments, insist on a device and a command,
 * then dispatch. The result is the exit status and the ordered effects,
 * usage messages included.
 */
module Numato {
  import opened Wrappers
  import opened Arguments
  import opened Device
  import opened Controller

  /** `n` usage messages. */
  function Usages(n: nat): seq<Effect>
    decreases n
  {
    if n == 0 then [] else [Usage] + Usages(n - 1)
  }

  /** `main` on the arguments after the program name, with `oracle(k)` deciding write session `k`. */
  function Program(args: seq<string>, oracle: nat -> Attempt): Run {
    Finish(Scan(args), oracle)
  }

  /** What `main` does once the scan is over: insist on both fields, then dispatch. */
  function Finish(r: ScanResult, oracle: nat -> Attempt): Run {
    match r
    case Positional(u) => Run(1, Usages(u))
    case Scanned(s) =>
      if s.device.None? || s.command.None? then Run(1, Usages(s.usages + 1))
      else
        var d := Dispatch(s.device.value, s.command.value, oracle);
        Run(d.exit, Usages(s.usages) + d.effects)
  }

  /** The device and command a scan found, when it found both. */
  predicate Parsed(args: seq<string>) {
    Scan(args).Scanned? && Scan(args).state.device.Some? && Scan(args).state.command.Some?
  }

  /** The arguments name a device and a recognised command, and every session that command needs is delivered. */
  predicate WillSucceed(args: seq<string>, oracle: nat -> Attempt) {
    Parsed(args) &&
    Scan(args).state.command.value in Commands &&
    forall k: nat :: k < |Payloads(Plan(Scan(args).state.command.value))| ==> Delivered(oracle(k))
  }

  /** Usage messages touch no device and write nothing. */
  lemma {:induction false} UsagesAreQuiet(n: nat)
    ensures Writes(Usages(n)) == [] && OpenCalls(Usages(n)) == 0 && Sessions(Usages(n))
    decreases n
  {
    if n > 0 {
      UsagesAreQuiet(n - 1);
      QuietEffect(Usage);
      WritesAppend([Usage], Usages(n - 1));
      OpenCallsAppend([Usage], Usages(n - 1));
      SessionsAppend([Usage], Usages(n - 1));
    }
  }

  /** Usage text in front of a dispatch changes nothing about the device. */
  lemma UsagesThenDispatch(n: nat, d: Run)
    ensures Writes(Usages(n) + d.effects) == Writes(d.effects)
    ensures OpenCalls(Usages(n) + d.effects) == OpenCalls(d.effects)
    ensures Sessions(d.effects) ==> Sessions(Usages(n) + d.effects)
  {
    UsagesAreQuiet(n);
    WritesAppend(Usages(n), d.effects);
    OpenCallsAppend(Usages(n), d.effects);
    if Sessions(d.effects) {
      SessionsAppend(Usages(n), d.effects);
    }
  }

  /**
   * A positional argument, or a device or command still unset after the
   * scan, ends the program with status 1 before any device I/O.
   */
  lemma BadArgumentsTouchNoDevice(args: seq<string>, oracle: nat -> Attempt)
    requires Scan(args).Positional? || Scan(args).state.device.None? || Scan(args).state.command.None?
    ensures Program(args, oracle).exit == 1
    ensures OpenCalls(Program(args, oracle).effects) == 0
    ensures Writes(Program(args, oracle).effects) == []
  {
    match Scan(args)
    case Positional(u) => UsagesAreQuiet(u);
    case Scanned(s) => UsagesAreQuiet(s.usages + 1);
  }

  /**
   * An argument not starting with '-' or '/', reached anywhere in the scan
   * as an argument of its own, ends the program with status 1 before any
   * device I/O.
   */
  lemma StrayArgumentFails(args: seq<string>, i: int, oracle: nat -> Attempt)
    requires StrayAt(args, i)
    ensures Program(args, oracle).exit == 1
    ensures OpenCalls(Program(args, oracle).effects) == 0
    ensures Writes(Program(args, oracle).effects) == []
  {
    StopsExactlyAtStray(args, Start);
    BadArgumentsTouchNoDevice(args, oracle);
  }

  /** Every run exits 0 or 1 and closes each handle it opens before opening the next. */
  lemma ProgramSessions(args: seq<string>, oracle: nat -> Attempt)
    ensures Program(args, oracle).exit in {0, 1}
    ensures Sessions(Program(args, oracle).effects)
  {
    match Scan(args)
    case Positional(u) => UsagesAreQuiet(u);
    case Scanned(s) =>
      if s.device.None? || s.command.None? {
        UsagesAreQuiet(s.usages + 1);
      } else {
        var d := Dispatch(s.device.value, s.command.value, oracle);
        DispatchSessions(s.device.value, s.command.value, oracle);
        UsagesThenDispatch(s.usages, d);
      }
  }

  /** The program exits 0 exactly when the arguments are good and every session the command needs is delivered. */
  lemma ProgramSucceedsIff(args: seq<string>, oracle: nat -> Attempt)
    ensures Program(args, oracle).exit == 0 <==> WillSucceed(args, oracle)
  {
    if Scan(args).Scanned? && Scan(args).state.device.Some? && Scan(args).state.command.Some? {
      var s := Scan(args).state;
      var c := s.command.value;
      if c in Commands {
        DispatchFollowsPlan(s.device.value, c, oracle);
        ExecuteExit(s.device.value, Plan(c), oracle, 0);
      } else {
        InvalidCommandOnlyWakes(s.device.value, c, oracle);
      }
    }
  }

  /** A run that exits 0 wrote exactly the plan of its command, in order. */
  lemma SuccessWritesPlan(args: seq<string>, oracle: nat -> Attempt)
    requires Program(args, oracle).exit == 0
    ensures Parsed(args) && Scan(args).state.command.value in Commands
    ensures Writes(Program(args, oracle).effects) == Payloads(Plan(Scan(args).state.command.value))
  {
    ProgramSucceedsIff(args, oracle);
    var s := Scan(args).state;
    var path, c := s.device.value, s.command.value;
    var d := Dispatch(path, c, oracle);
    UsagesThenDispatch(s.usages, d);
    DispatchFollowsPlan(path, c, oracle);
    ExecuteDeliversPlan(path, Plan(c), oracle, 0);
  }

  /**
   * When session `j` is the first of its command's sessions to fail, the run
   * exits 1 having written only the plan's first `j` payloads, and the
   * failing one too when the device opened.
   */
  lemma FailureWritesPlanPrefix(args: seq<string>, oracle: nat -> Attempt, j: nat)
    requires Parsed(args) && Scan(args).state.command.value in Commands
    requires j < |Payloads(Plan(Scan(args).state.command.value))|
    requires forall k: nat :: k < j ==> Delivered(oracle(k))
    requires !Delivered(oracle(j))
    ensures Program(args, oracle).exit == 1
    ensures Writes(Program(args, oracle).effects) ==
      Payloads(Plan(Scan(args).state.command.value))[..if oracle(j).Opens? then j + 1 else j]
  {
    var s := Scan(args).state;
    var path, c := s.device.value, s.command.value;
    var d := Dispatch(path, c, oracle);
    UsagesThenDispatch(s.usages, d);
    DispatchFollowsPlan(path, c, oracle);
    ExecuteStopsAtFirstFailure(path, Plan(c), oracle, 0, j);
  }

  /** With an unrecognised command the run writes at most the wake-up byte and exits 1. */
  lemma InvalidCommandWritesOnlyWakeUp(args: seq<string>, oracle: nat -> Attempt)
    requires Parsed(args) && Scan(args).state.command.value !in Commands
    ensures Program(args, oracle).exit == 1
    ensures Writes(Program(args, oracle).effects) == if oracle(0).Opens? then [WakeUp] else []
  {
    var s := Scan(args).state;
    var path, c := s.device.value, s.command.value;
    var d := Dispatch(path, c, oracle);
    UsagesThenDispatch(s.usages, d);
    InvalidCommandOnlyWakes(path, c, oracle);
  }

  /** One more usage message during the scan is one more `Usage` in front of everything else. */
  lemma FinishWithOneMoreUsage(r: ScanResult, oracle: nat -> Attempt)
    ensures Finish(AddUsages(r, 1), oracle) == Run(Finish(r, oracle).exit, [Usage] + Finish(r, oracle).effects)
  {
    if r.Scanned? && r.state.device.Some? && r.state.command.Some? {
      UsageInFront(r.state.usages, Dispatch(r.state.device.value, r.state.command.value, oracle).effects);
    }
  }

  lemma UsageInFront(n: nat, e: seq<Effect>)
    ensures Usages(n + 1) + e == [Usage] + (Usages(n) + e)
  {
  }

  /** An unknown flag, a lone '-' included, only adds one usage message in front of what the rest does. */
  lemma UnknownFlagOnlyPrintsUsage(f: string, rest: seq<string>, oracle: nat -> Attempt)
    requires IsFlag(f) && FlagLetter(f) != 'd' && FlagLetter(f) != 'c'
    ensures Program([f] + rest, oracle) ==
      Run(Program(rest, oracle).exit, [Usage] + Program(rest, oracle).effects)
  {
    UnknownFlagIsSkipped(f, rest, Start);
    FinishWithOneMoreUsage(Scan(rest), oracle);
  }

  /**
   * A 'd' or 'c' flag given last and reached as a flag (the arguments before
   * it end on an argument boundary) leaves its field unset: the program
   * exits 1 without touching the device, whatever earlier flags set.
   */
  lemma TrailingFlagFails(args: seq<string>, f: string, oracle: nat -> Attempt)
    requires IsFlag(f) && (FlagLetter(f) == 'd' || FlagLetter(f) == 'c')
    requires Aligned(args)
    ensures Program(args + [f], oracle).exit == 1
    ensures OpenCalls(Program(args + [f], oracle).effects) == 0
    ensures Writes(Program(args + [f], oracle).effects) == []
  {
    if Scan(args + [f]).Scanned? {
      TrailingFlagUnsets(args, f, Start);
    }
    BadArgumentsTouchNoDevice(args + [f], oracle);
  }
}
