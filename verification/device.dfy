/**
 * The device side: the three fixed payloads and the writer shared by
 * `wakeup`, `activate` and `deactivate`, which opens the device, writes one
 * payload and closes the handle again. The operating system is an oracle
 * that says, per write session, whether `open` succeeded and what `write`
 * returned.
 */
module Device {
  /** The three fixed payloads. */
  datatype Payload = WakeUp | RelayOn | RelayOff

  /** The bytes of each payload: carriage-return terminated ASCII lines, `strlen` of them written. */
  function Text(p: Payload): string {
    match p
    case WakeUp => "\r"
    case RelayOn => "relay on 0\r"
    case RelayOff => "relay off 0\r"
  }

  /** Each payload is one line: it ends with the only carriage return it holds. */
  lemma PayloadsAreLines(p: Payload)
    ensures |Text(p)| > 0 && Text(p)[|Text(p)| - 1] == '\r'
    ensures forall i :: 0 <= i < |Text(p)| - 1 ==> Text(p)[i] != '\r'
  {
  }

  /** What one session meets: `open` fails, or it succeeds and `write` returns a count (an `ssize_t`, so possibly -1). */
  datatype Attempt = OpenFails | Opens(returned: int)

  /** The writers' own test of success: the device opened and `write` did not return 0. */
  predicate Delivered(a: Attempt) {
    a.Opens? && a.returned != 0
  }

  /** What the program does to the outside world, in order. */
  datatype Effect =
    | Opened(path: string)
    | OpenFailed(path: string)
    | Wrote(payload: Payload, returned: int)
    | Closed
    | Paused(micros: nat)
    | Usage

  /** The payloads handed to `write`, in order. */
  function Writes(effects: seq<Effect>): seq<Payload>
    decreases |effects|
  {
    if effects == [] then []
    else (if effects[0].Wrote? then [effects[0].payload] else []) + Writes(effects[1..])
  }

  /** How many times the device was opened, successfully or not. */
  function OpenCalls(effects: seq<Effect>): nat
    decreases |effects|
  {
    if effects == [] then 0
    else (if effects[0].Opened? || effects[0].OpenFailed? then 1 else 0) + OpenCalls(effects[1..])
  }

  /**
   * Every successful open is followed at once by one write and a close, and
   * no write or close happens outside such a session: one handle at a time,
   * and none is left open.
   */
  predicate Sessions(effects: seq<Effect>)
    decreases |effects|
  {
    if effects == [] then true
    else match effects[0]
      case Opened(_) => |effects| >= 3 && effects[1].Wrote? && effects[2] == Closed && Sessions(effects[3..])
      case Wrote(_, _) => false
      case Closed => false
      case _ => Sessions(effects[1..])
  }

  /** One complete session: open, write, close. */
  function Session(path: string, payload: Payload, returned: int): seq<Effect> {
    [Opened(path), Wrote(payload, returned), Closed]
  }

  datatype Transfer = Transfer(ok: bool, effects: seq<Effect>)

  /** `wakeup`, `activate` and `deactivate`, which differ only in their payload. */
  function Transmit(path: string, payload: Payload, a: Attempt): Transfer {
    match a
    case OpenFails => Transfer(false, [OpenFailed(path)])
    case Opens(n) => Transfer(n != 0, Session(path, payload, n))
  }

  /**
   * The writers' shared contract: success exactly when the device opens and
   * `write` does not return 0; one open; the payload written once if the
   * device opened; and the handle closed again on both paths.
   */
  lemma TransmitContract(path: string, payload: Payload, a: Attempt)
    ensures Transmit(path, payload, a).ok <==> a.Opens? && a.returned != 0
    ensures Writes(Transmit(path, payload, a).effects) == if a.Opens? then [payload] else []
    ensures OpenCalls(Transmit(path, payload, a).effects) == 1
    ensures Sessions(Transmit(path, payload, a).effects)
  {
    if a.Opens? {
      var e := Session(path, payload, a.returned);
      assert e[1..] == [Wrote(payload, a.returned), Closed] && e[2..] == [Closed] && e[3..] == [];
      assert Writes(e[2..]) == [] && OpenCalls(e[2..]) == 0 && OpenCalls(e[1..]) == 0;
    }
  }

  /** A failed `write` returns -1, which the writers' test counts as success. */
  lemma ErrorReturnCountsAsDelivered(path: string, payload: Payload)
    ensures Transmit(path, payload, Opens(-1)).ok
  {
  }

  lemma {:induction false} WritesAppend(a: seq<Effect>, b: seq<Effect>)
    ensures Writes(a + b) == Writes(a) + Writes(b)
    decreases |a|
  {
    if a != [] {
      assert (a + b)[1..] == a[1..] + b;
      WritesAppend(a[1..], b);
    } else {
      assert a + b == b;
    }
  }

  lemma {:induction false} OpenCallsAppend(a: seq<Effect>, b: seq<Effect>)
    ensures OpenCalls(a + b) == OpenCalls(a) + OpenCalls(b)
    decreases |a|
  {
    if a != [] {
      assert (a + b)[1..] == a[1..] + b;
      OpenCallsAppend(a[1..], b);
    } else {
      assert a + b == b;
    }
  }

  lemma {:induction false} SessionsAppend(a: seq<Effect>, b: seq<Effect>)
    requires Sessions(a) && Sessions(b)
    ensures Sessions(a + b)
    decreases |a|
  {
    if a == [] {
      assert a + b == b;
    } else if a[0].Opened? {
      assert (a + b)[3..] == a[3..] + b;
      SessionsAppend(a[3..], b);
    } else {
      assert (a + b)[1..] == a[1..] + b;
      SessionsAppend(a[1..], b);
    }
  }

  /** Effects that are not device I/O (usage text, pauses) keep all three measures neutral. */
  lemma QuietEffect(e: Effect)
    requires e.Paused? || e.Usage?
    ensures Writes([e]) == [] && OpenCalls([e]) == 0 && Sessions([e])
  {
    assert [e][1..] == [];
  }
}
