/**
 * The command dispatcher of `main`: wake the device, pause, then send the
 * payloads that the command names, stopping at the first session that
 * fails. `Dispatch` is the `strcmp` chain as written; `Execute` runs a
 * plan of steps and is the reference it is proved against.
 */
module Controller {
  import opened Device

  /** The commands `main` recognises, matched case-sensitively. */
  const Commands: set<string> := {"on", "off", "pulse"}
  /** `usleep(50)` after the wake-up byte, in microseconds. */
  const WakeSettle: nat := 50
  /** `sleep(1)` between switching on and off in a pulse, in microseconds. */
  const PulseHold: nat := 1000000

  /** The match is exact: other spellings of the three commands are not recognised. */
  lemma CommandsAreCaseSensitive()
    ensures "On" !in Commands && "ON" !in Commands && "Off" !in Commands && "Pulse" !in Commands
    ensures "on " !in Commands && "" !in Commands
  {
  }

  datatype Step = Send(payload: Payload) | Pause(micros: nat)

  /** What a recognised command asks of the device, the wake-up included. */
  function Plan(command: string): seq<Step>
    requires command in Commands
  {
    [Send(WakeUp), Pause(WakeSettle)] +
    if command == "on" then [Send(RelayOn)]
    else if command == "off" then [Send(RelayOff)]
    else [Send(RelayOn), Pause(PulseHold), Send(RelayOff)]
  }

  /** The payloads a plan sends, in order. */
  function Payloads(steps: seq<Step>): seq<Payload>
    decreases |steps|
  {
    if steps == [] then []
    else (if steps[0].Send? then [steps[0].payload] else []) + Payloads(steps[1..])
  }

  /** How a run ends: its exit status and what it did. */
  datatype Run = Run(exit: int, effects: seq<Effect>)

  /** Runs a plan; session number `sent` and onwards meet `oracle(sent)`, `oracle(sent + 1)`, ... */
  function Execute(path: string, steps: seq<Step>, oracle: nat -> Attempt, sent: nat): Run
    decreases |steps|
  {
    if steps == [] then Run(0, [])
    else match steps[0]
      case Pause(us) =>
        var r := Execute(path, steps[1..], oracle, sent);
        Run(r.exit, [Paused(us)] + r.effects)
      case Send(p) =>
        var t := Transmit(path, p, oracle(sent));
        if !t.ok then Run(1, t.effects)
        else
          var r := Execute(path, steps[1..], oracle, sent + 1);
          Run(r.exit, t.effects + r.effects)
  }

  /** The dispatch as `main` writes it, with `oracle(k)` deciding write session `k`. */
  function Dispatch(path: string, command: string, oracle: nat -> Attempt): Run
  {
    var wake := Transmit(path, WakeUp, oracle(0));
    if !wake.ok then Run(1, wake.effects)
    else
      var settled := wake.effects + [Paused(WakeSettle)];
      if command == "on" then
        var on := Transmit(path, RelayOn, oracle(1));
        Run(if on.ok then 0 else 1, settled + on.effects)
      else if command == "off" then
        var off := Transmit(path, RelayOff, oracle(1));
        Run(if off.ok then 0 else 1, settled + off.effects)
      else if command == "pulse" then
        var on := Transmit(path, RelayOn, oracle(1));
        if !on.ok then Run(1, settled + on.effects)
        else
          var off := Transmit(path, RelayOff, oracle(2));
          Run(if off.ok then 0 else 1, settled + on.effects + [Paused(PulseHold)] + off.effects)
      else Run(1, settled + [Usage])
  }

  /** A plan's run exits 0 exactly when every session it needs is delivered, and 1 otherwise. */
  lemma {:induction false} ExecuteExit(path: string, steps: seq<Step>, oracle: nat -> Attempt, sent: nat)
    ensures Execute(path, steps, oracle, sent).exit in {0, 1}
    ensures Execute(path, steps, oracle, sent).exit == 0 <==>
      forall k: nat :: sent <= k < sent + |Payloads(steps)| ==> Delivered(oracle(k))
    decreases |steps|
  {
    if steps != [] {
      match steps[0]
      case Pause(_) =>
        ExecuteExit(path, steps[1..], oracle, sent);
      case Send(p) =>
        ExecuteExit(path, steps[1..], oracle, sent + 1);
    }
  }

  /** Every session a plan's run opens is closed again, one at a time. */
  lemma {:induction false} ExecuteSessions(path: string, steps: seq<Step>, oracle: nat -> Attempt, sent: nat)
    ensures Sessions(Execute(path, steps, oracle, sent).effects)
    decreases |steps|
  {
    if steps != [] {
      match steps[0]
      case Pause(us) =>
        ExecuteSessions(path, steps[1..], oracle, sent);
        QuietEffect(Paused(us));
        SessionsAppend([Paused(us)], Execute(path, steps[1..], oracle, sent).effects);
      case Send(p) =>
        var t := Transmit(path, p, oracle(sent));
        TransmitContract(path, p, oracle(sent));
        if t.ok {
          ExecuteSessions(path, steps[1..], oracle, sent + 1);
          SessionsAppend(t.effects, Execute(path, steps[1..], oracle, sent + 1).effects);
        }
    }
  }

  /** A plan's run that exits 0 opened the device once per planned session and wrote the plan's payloads, in order. */
  lemma {:induction false} ExecuteDeliversPlan(path: string, steps: seq<Step>, oracle: nat -> Attempt, sent: nat)
    requires Execute(path, steps, oracle, sent).exit == 0
    ensures OpenCalls(Execute(path, steps, oracle, sent).effects) == |Payloads(steps)|
    ensures Writes(Execute(path, steps, oracle, sent).effects) == Payloads(steps)
    decreases |steps|
  {
    if steps != [] {
      var rest := Execute(path, steps[1..], oracle, sent);
      match steps[0]
      case Pause(us) =>
        ExecuteDeliversPlan(path, steps[1..], oracle, sent);
        QuietEffect(Paused(us));
        WritesAppend([Paused(us)], rest.effects);
        OpenCallsAppend([Paused(us)], rest.effects);
      case Send(p) =>
        var t := Transmit(path, p, oracle(sent));
        TransmitContract(path, p, oracle(sent));
        var r := Execute(path, steps[1..], oracle, sent + 1);
        ExecuteDeliversPlan(path, steps[1..], oracle, sent + 1);
        WritesAppend(t.effects, r.effects);
        OpenCallsAppend(t.effects, r.effects);
    }
  }

  /**
   * When session `sent + j` is the first of the plan's sessions that fails,
   * the run exits 1 having opened the device `j + 1` times, and what it
   * wrote is the plan's first `j` payloads, followed by the failing
   * session's own payload when the device did open: nothing after it.
   */
  lemma {:induction false} ExecuteStopsAtFirstFailure(path: string, steps: seq<Step>, oracle: nat -> Attempt, sent: nat, j: nat)
    requires j < |Payloads(steps)|
    requires forall k: nat :: sent <= k < sent + j ==> Delivered(oracle(k))
    requires !Delivered(oracle(sent + j))
    ensures Execute(path, steps, oracle, sent).exit == 1
    ensures OpenCalls(Execute(path, steps, oracle, sent).effects) == j + 1
    ensures Writes(Execute(path, steps, oracle, sent).effects) ==
      Payloads(steps)[..if oracle(sent + j).Opens? then j + 1 else j]
    decreases |steps|
  {
    var tail := steps[1..];
    assert steps == [steps[0]] + tail;
    match steps[0]
    case Pause(us) =>
      assert Payloads(steps) == Payloads(tail);
      ExecuteStopsAtFirstFailure(path, tail, oracle, sent, j);
      PauseThenStop(path, us, tail, oracle, sent);
    case Send(p) =>
      TransmitContract(path, p, oracle(sent));
      assert Payloads(steps) == [p] + Payloads(tail);
      ExecuteSend(path, p, tail, oracle, sent);
      if j > 0 {
        assert Delivered(oracle(sent));
        ExecuteStopsAtFirstFailure(path, tail, oracle, sent + 1, j - 1);
        var w := if oracle(sent + j).Opens? then j else j - 1;
        DeliveredSendThenStop(Transmit(path, p, oracle(sent)).effects, p,
          Execute(path, tail, oracle, sent + 1).effects, Payloads(tail), w);
      }
  }

  /** A pause in front of a plan adds no open and no write. */
  lemma PauseThenStop(path: string, us: nat, tail: seq<Step>, oracle: nat -> Attempt, sent: nat)
    ensures Execute(path, [Pause(us)] + tail, oracle, sent).exit == Execute(path, tail, oracle, sent).exit
    ensures OpenCalls(Execute(path, [Pause(us)] + tail, oracle, sent).effects) == OpenCalls(Execute(path, tail, oracle, sent).effects)
    ensures Writes(Execute(path, [Pause(us)] + tail, oracle, sent).effects) == Writes(Execute(path, tail, oracle, sent).effects)
  {
    var rest := Execute(path, tail, oracle, sent).effects;
    ExecutePause(path, us, tail, oracle, sent);
    QuietEffect(Paused(us));
    WritesAppend([Paused(us)], rest);
    OpenCallsAppend([Paused(us)], rest);
  }

  /** The step of the induction above: one delivered session in front of a run that stops later. */
  lemma DeliveredSendThenStop(session: seq<Effect>, p: Payload, r: seq<Effect>, later: seq<Payload>, w: nat)
    requires Writes(session) == [p] && OpenCalls(session) == 1
    requires w <= |later| && Writes(r) == later[..w]
    ensures OpenCalls(session + r) == 1 + OpenCalls(r)
    ensures Writes(session + r) == ([p] + later)[..w + 1]
  {
    WritesAppend(session, r);
    OpenCallsAppend(session, r);
    assert ([p] + later)[..w + 1] == [p] + later[..w];
  }

  /** One pause in front of a plan. */
  lemma ExecutePause(path: string, us: nat, rest: seq<Step>, oracle: nat -> Attempt, sent: nat)
    ensures Execute(path, [Pause(us)] + rest, oracle, sent) ==
      Run(Execute(path, rest, oracle, sent).exit, [Paused(us)] + Execute(path, rest, oracle, sent).effects)
  {
    assert ([Pause(us)] + rest)[1..] == rest;
  }

  /** One session in front of a plan: the rest runs only when it is delivered. */
  lemma ExecuteSend(path: string, p: Payload, rest: seq<Step>, oracle: nat -> Attempt, sent: nat)
    ensures Execute(path, [Send(p)] + rest, oracle, sent) ==
      if !Transmit(path, p, oracle(sent)).ok then Run(1, Transmit(path, p, oracle(sent)).effects)
      else Run(Execute(path, rest, oracle, sent + 1).exit,
               Transmit(path, p, oracle(sent)).effects + Execute(path, rest, oracle, sent + 1).effects)
  {
    assert ([Send(p)] + rest)[1..] == rest;
  }

  /** The wake-up session and the settling pause in front of the relay steps. */
  lemma ExecuteWakeFirst(path: string, relay: seq<Step>, oracle: nat -> Attempt)
    ensures Execute(path, [Send(WakeUp), Pause(WakeSettle)] + relay, oracle, 0) ==
      var wake := Transmit(path, WakeUp, oracle(0));
      if !wake.ok then Run(1, wake.effects)
      else Run(Execute(path, relay, oracle, 1).exit,
               wake.effects + [Paused(WakeSettle)] + Execute(path, relay, oracle, 1).effects)
  {
    assert [Send(WakeUp), Pause(WakeSettle)] + relay == [Send(WakeUp)] + ([Pause(WakeSettle)] + relay);
    ExecuteSend(path, WakeUp, [Pause(WakeSettle)] + relay, oracle, 0);
    ExecutePause(path, WakeSettle, relay, oracle, 1);
    var wake := Transmit(path, WakeUp, oracle(0));
    var r := Execute(path, relay, oracle, 1);
    assert wake.effects + ([Paused(WakeSettle)] + r.effects) == wake.effects + [Paused(WakeSettle)] + r.effects;
  }

  /** "on" and "off" send one relay payload after the wake-up. */
  lemma SingleFollowsPlan(path: string, command: string, oracle: nat -> Attempt)
    requires command == "on" || command == "off"
    ensures Dispatch(path, command, oracle) == Execute(path, Plan(command), oracle, 0)
  {
    var p := if command == "on" then RelayOn else RelayOff;
    assert Plan(command) == [Send(WakeUp), Pause(WakeSettle)] + [Send(p)];
    ExecuteWakeFirst(path, [Send(p)], oracle);
    assert [Send(p)] == [Send(p)] + [];
    ExecuteSend(path, p, [], oracle, 1);
    var t := Transmit(path, p, oracle(1));
    assert t.effects + [] == t.effects;
  }

  /** The relay steps of a pulse: "on", the hold, then "off" only if "on" was delivered. */
  lemma ExecutePulseRelay(path: string, oracle: nat -> Attempt)
    ensures Execute(path, [Send(RelayOn), Pause(PulseHold), Send(RelayOff)], oracle, 1) ==
      var on := Transmit(path, RelayOn, oracle(1));
      var off := Transmit(path, RelayOff, oracle(2));
      if !on.ok then Run(1, on.effects)
      else Run(if off.ok then 0 else 1, on.effects + [Paused(PulseHold)] + off.effects)
  {
    assert [Send(RelayOn), Pause(PulseHold), Send(RelayOff)] ==
      [Send(RelayOn)] + ([Pause(PulseHold)] + ([Send(RelayOff)] + []));
    ExecuteSend(path, RelayOn, [Pause(PulseHold)] + [Send(RelayOff)], oracle, 1);
    ExecutePause(path, PulseHold, [Send(RelayOff)], oracle, 2);
    ExecuteSend(path, RelayOff, [], oracle, 2);
    var on := Transmit(path, RelayOn, oracle(1));
    var off := Transmit(path, RelayOff, oracle(2));
    assert on.effects + ([Paused(PulseHold)] + (off.effects + [])) == on.effects + [Paused(PulseHold)] + off.effects;
  }

  /** "pulse" sends "on", holds, then sends "off". */
  lemma PulseFollowsPlan(path: string, oracle: nat -> Attempt)
    ensures Dispatch(path, "pulse", oracle) == Execute(path, Plan("pulse"), oracle, 0)
  {
    var relay := [Send(RelayOn), Pause(PulseHold), Send(RelayOff)];
    assert Plan("pulse") == [Send(WakeUp), Pause(WakeSettle)] + relay;
    ExecuteWakeFirst(path, relay, oracle);
    ExecutePulseRelay(path, oracle);
    var wake := Transmit(path, WakeUp, oracle(0));
    var on := Transmit(path, RelayOn, oracle(1));
    var off := Transmit(path, RelayOff, oracle(2));
    var settled := wake.effects + [Paused(WakeSettle)];
    assert settled + (on.effects + [Paused(PulseHold)] + off.effects) ==
      settled + on.effects + [Paused(PulseHold)] + off.effects;
  }

  /** For a recognised command the `strcmp` chain does exactly what the command's plan does. */
  lemma DispatchFollowsPlan(path: string, command: string, oracle: nat -> Attempt)
    requires command in Commands
    ensures Dispatch(path, command, oracle) == Execute(path, Plan(command), oracle, 0)
  {
    if command == "pulse" {
      PulseFollowsPlan(path, oracle);
    } else {
      SingleFollowsPlan(path, command, oracle);
    }
  }

  /**
   * Any other command, "On" or "PULSE" included, exits 1 after the wake-up
   * session alone: no relay payload is ever written for it.
   */
  lemma InvalidCommandOnlyWakes(path: string, command: string, oracle: nat -> Attempt)
    requires command !in Commands
    ensures Dispatch(path, command, oracle).exit == 1
    ensures OpenCalls(Dispatch(path, command, oracle).effects) == 1
    ensures Writes(Dispatch(path, command, oracle).effects) == if oracle(0).Opens? then [WakeUp] else []
    ensures Sessions(Dispatch(path, command, oracle).effects)
  {
    InvalidCommandEffects(path, command, oracle);
    TransmitContract(path, WakeUp, oracle(0));
    WakeThenUsage(path, oracle(0));
  }

  /** The wake-up session followed by the settling pause and the usage text. */
  lemma WakeThenUsage(path: string, a: Attempt)
    ensures var e := Transmit(path, WakeUp, a).effects + ([Paused(WakeSettle)] + [Usage]);
      OpenCalls(e) == 1 && Writes(e) == (if a.Opens? then [WakeUp] else []) && Sessions(e)
  {
    var wake := Transmit(path, WakeUp, a);
    var tail := [Paused(WakeSettle)] + [Usage];
    TransmitContract(path, WakeUp, a);
    QuietEffect(Paused(WakeSettle));
    QuietEffect(Usage);
    WritesAppend([Paused(WakeSettle)], [Usage]);
    OpenCallsAppend([Paused(WakeSettle)], [Usage]);
    SessionsAppend([Paused(WakeSettle)], [Usage]);
    WritesAppend(wake.effects, tail);
    OpenCallsAppend(wake.effects, tail);
    SessionsAppend(wake.effects, tail);
  }

  /** The effects of an unrecognised command: the wake-up session, then the pause and the usage text if it was delivered. */
  lemma InvalidCommandEffects(path: string, command: string, oracle: nat -> Attempt)
    requires command !in Commands
    ensures Dispatch(path, command, oracle) ==
      var wake := Transmit(path, WakeUp, oracle(0));
      if wake.ok then Run(1, wake.effects + ([Paused(WakeSettle)] + [Usage])) else Run(1, wake.effects)
  {
    var wake := Transmit(path, WakeUp, oracle(0));
    assert wake.effects + [Paused(WakeSettle)] + [Usage] == wake.effects + ([Paused(WakeSettle)] + [Usage]);
  }

  /** Every dispatch exits 0 or 1, and every handle it opens it closes, one at a time. */
  lemma DispatchSessions(path: string, command: string, oracle: nat -> Attempt)
    ensures Dispatch(path, command, oracle).exit in {0, 1}
    ensures Sessions(Dispatch(path, command, oracle).effects)
  {
    if command in Commands {
      DispatchFollowsPlan(path, command, oracle);
      ExecuteExit(path, Plan(command), oracle, 0);
      ExecuteSessions(path, Plan(command), oracle, 0);
    } else {
      InvalidCommandOnlyWakes(path, command, oracle);
    }
  }

  /** The payloads of each recognised command. */
  lemma PlannedPayloads()
    ensures Payloads(Plan("on")) == [WakeUp, RelayOn]
    ensures Payloads(Plan("off")) == [WakeUp, RelayOff]
    ensures Payloads(Plan("pulse")) == [WakeUp, RelayOn, RelayOff]
  {
    var on, off, pulse := Plan("on"), Plan("off"), Plan("pulse");
    assert on[1..][1..] == [Send(RelayOn)] && off[1..][1..] == [Send(RelayOff)];
    assert on[1..][1..][1..] == [] && off[1..][1..][1..] == [];
    var p := pulse[1..][1..];
    assert p == [Send(RelayOn), Pause(PulseHold), Send(RelayOff)];
    assert p[1..][1..] == [Send(RelayOff)] && p[1..][1..][1..] == [];
  }

  /**
   * With every session delivered a pulse is exactly: wake-up session, the
   * settling pause, the "on" session, the one-second hold, the "off" session.
   */
  lemma PulseWhenAllDelivered(path: string, oracle: nat -> Attempt)
    requires Delivered(oracle(0)) && Delivered(oracle(1)) && Delivered(oracle(2))
    ensures Dispatch(path, "pulse", oracle) ==
      Run(0, Session(path, WakeUp, oracle(0).returned) + [Paused(WakeSettle)] +
             Session(path, RelayOn, oracle(1).returned) + [Paused(PulseHold)] +
             Session(path, RelayOff, oracle(2).returned))
  {
  }
}
