/**
 * The command-line scanner of `main`: a walk over the arguments after the
 * program name, in which `-d`/`-c` (or `/d`, `/c`, any case) take the next
 * argument as their value, other flags only print the usage text, and the
 * first argument that is not a flag ends the program with status 1.
 */
module Arguments {
  import opened Wrappers

  /** An argument is scanned as a flag when its first character is '-' or '/'. */
  predicate IsFlag(arg: string) {
    |arg| > 0 && (arg[0] == '-' || arg[0] == '/')
  }

  /** `tolower` in the C locale: only 'A'..'Z' change. */
  function ToLower(c: char): char {
    if 'A' <= c <= 'Z' then (c as int - 'A' as int + 'a' as int) as char else c
  }

  /**
   * The character a flag is switched on: its second character, lower-cased;
   * for a lone '-' or '/' that is the string's terminating NUL.
   */
  function FlagLetter(arg: string): char {
    if |arg| >= 2 then ToLower(arg[1]) else '\0'
  }

  /** The prefix may be '-' or '/', and the letter is read without regard to case. */
  lemma FlagSpellings(rest: string)
    ensures forall f :: f in ["-d", "-D", "/d", "/D"] ==> IsFlag(f + rest) && FlagLetter(f + rest) == 'd'
    ensures forall f :: f in ["-c", "-C", "/c", "/C"] ==> IsFlag(f + rest) && FlagLetter(f + rest) == 'c'
    ensures IsFlag("-") && FlagLetter("-") == '\0' && IsFlag("/") && FlagLetter("/") == '\0'
  {
  }

  /** The scanner's locals: `device` and `command` (None is NULL) and how often usage was printed. */
  datatype Scanner = Scanner(device: Option<string>, command: Option<string>, usages: nat)

  const Start := Scanner(None, None, 0)

  /** The field a flag letter sets ('d' the device, anything else the command). */
  function Field(s: Scanner, letter: char): Option<string> {
    if letter == 'd' then s.device else s.command
  }

  /** The scan either runs past the last argument or stops at a positional argument (exit status 1). */
  datatype ScanResult = Scanned(state: Scanner) | Positional(usages: nat)

  /**
   * The scan from some point on, as a function of the remaining arguments.
   * A 'd' or 'c' flag that is the last argument reads `argv[argc]`, the
   * null pointer, so its field becomes unset again.
   */
  function ScanFrom(args: seq<string>, s: Scanner): ScanResult
    decreases |args|
  {
    if args == [] then Scanned(s)
    else if !IsFlag(args[0]) then Positional(s.usages)
    else if FlagLetter(args[0]) == 'd' then
      if |args| == 1 then Scanned(s.(device := None))
      else ScanFrom(args[2..], s.(device := Some(args[1])))
    else if FlagLetter(args[0]) == 'c' then
      if |args| == 1 then Scanned(s.(command := None))
      else ScanFrom(args[2..], s.(command := Some(args[1])))
    else ScanFrom(args[1..], s.(usages := s.usages + 1))
  }

  /** The whole scan, from both fields unset and no usage printed. */
  function Scan(args: seq<string>): ScanResult {
    ScanFrom(args, Start)
  }

  /**
   * The scanning loop itself: the index moves past a flag's value inside
   * the body, and may end one beyond the last argument.
   */
  method ParseArguments(args: seq<string>) returns (r: ScanResult)
    ensures r == Scan(args)
  {
    var device: Option<string> := None;
    var command: Option<string> := None;
    var usages: nat := 0;
    var i := 0;
    while i < |args|
      invariant 0 <= i <= |args| + 1
      invariant i <= |args| ==> ScanFrom(args[i..], Scanner(device, command, usages)) == Scan(args)
      invariant i == |args| + 1 ==> Scanned(Scanner(device, command, usages)) == Scan(args)
    {
      if IsFlag(args[i]) {
        var letter := FlagLetter(args[i]);
        if letter == 'd' {
          i := i + 1;
          device := if i < |args| then Some(args[i]) else None;
        } else if letter == 'c' {
          i := i + 1;
          command := if i < |args| then Some(args[i]) else None;
        } else {
          usages := usages + 1;
        }
      } else {
        return Positional(usages);
      }
      i := i + 1;
    }
    r := Scanned(Scanner(device, command, usages));
  }

  /** Adds `k` usage messages to a scan's outcome. */
  function AddUsages(r: ScanResult, k: nat): ScanResult {
    match r
    case Scanned(s) => Scanned(s.(usages := s.usages + k))
    case Positional(u) => Positional(u + k)
  }

  /** Usage messages never steer the scan: starting with `k` more only adds `k`. */
  lemma {:induction false} UsagesOnlyAdd(args: seq<string>, s: Scanner, k: nat)
    ensures ScanFrom(args, s.(usages := s.usages + k)) == AddUsages(ScanFrom(args, s), k)
    decreases |args|
  {
    if args == [] || !IsFlag(args[0]) {
    } else if FlagLetter(args[0]) == 'd' {
      if |args| > 1 {
        UsagesOnlyAdd(args[2..], s.(device := Some(args[1])), k);
      }
    } else if FlagLetter(args[0]) == 'c' {
      if |args| > 1 {
        UsagesOnlyAdd(args[2..], s.(command := Some(args[1])), k);
      }
    } else {
      UsagesOnlyAdd(args[1..], s.(usages := s.usages + 1), k);
    }
  }

  /**
   * A flag with any other letter, a lone '-' or '/' included, is not fatal:
   * it prints usage once, takes no value, and the scan goes on as if the
   * flag were not there.
   */
  lemma UnknownFlagIsSkipped(f: string, rest: seq<string>, s: Scanner)
    requires IsFlag(f) && FlagLetter(f) != 'd' && FlagLetter(f) != 'c'
    ensures ScanFrom([f] + rest, s) == AddUsages(ScanFrom(rest, s), 1)
  {
    assert ([f] + rest)[1..] == rest;
    UsagesOnlyAdd(rest, s, 1);
  }

  /** A 'd' or 'c' flag takes the next argument, whatever it is, as its value, and that argument is not scanned. */
  lemma FlagTakesNextArgument(f: string, v: string, rest: seq<string>, s: Scanner)
    requires IsFlag(f)
    ensures FlagLetter(f) == 'd' ==> ScanFrom([f, v] + rest, s) == ScanFrom(rest, s.(device := Some(v)))
    ensures FlagLetter(f) == 'c' ==> ScanFrom([f, v] + rest, s) == ScanFrom(rest, s.(command := Some(v)))
  {
    assert ([f, v] + rest)[2..] == rest;
  }

  /** The field a flag letter sets, set to `v`. */
  function WithField(s: Scanner, letter: char, v: Option<string>): (t: Scanner)
    ensures Field(t, letter) == v && t.usages == s.usages
  {
    if letter == 'd' then s.(device := v) else s.(command := v)
  }

  /**
   * The scan of `args` never reads past its last element: no 'd' or 'c'
   * flag is reached as the last argument, so an argument appended after
   * `args` is reached as an argument of its own, not as a flag's value.
   */
  predicate Aligned(args: seq<string>)
    decreases |args|
  {
    if args == [] || !IsFlag(args[0]) then true
    else if FlagLetter(args[0]) == 'd' || FlagLetter(args[0]) == 'c' then |args| >= 2 && Aligned(args[2..])
    else Aligned(args[1..])
  }

  /** What a field held before the scan does not matter once a later flag of that letter is reached. */
  lemma {:induction false} OverwrittenFieldIgnored(mid: seq<string>, g: string, b: string, rest: seq<string>, s: Scanner, v: Option<string>)
    requires Aligned(mid)
    requires IsFlag(g) && (FlagLetter(g) == 'd' || FlagLetter(g) == 'c')
    ensures ScanFrom(mid + ([g, b] + rest), WithField(s, FlagLetter(g), v)) == ScanFrom(mid + ([g, b] + rest), s)
    decreases |mid|
  {
    var letter := FlagLetter(g);
    var tail := [g, b] + rest;
    var all := mid + tail;
    if mid == [] {
      assert all == [g, b] + rest;
      FlagTakesNextArgument(g, b, rest, s);
      FlagTakesNextArgument(g, b, rest, WithField(s, letter, v));
      assert WithField(WithField(s, letter, v), letter, Some(b)) == WithField(s, letter, Some(b));
    } else if !IsFlag(mid[0]) {
      assert all[0] == mid[0];
    } else if FlagLetter(mid[0]) == 'd' || FlagLetter(mid[0]) == 'c' {
      assert all[0] == mid[0] && all[1] == mid[1];
      assert all[2..] == mid[2..] + tail;
      var l := FlagLetter(mid[0]);
      OverwrittenFieldIgnored(mid[2..], g, b, rest, WithField(s, l, Some(mid[1])), v);
      if l == letter {
        assert WithField(WithField(s, letter, v), l, Some(mid[1])) == WithField(s, l, Some(mid[1]));
      } else {
        assert WithField(WithField(s, letter, v), l, Some(mid[1])) == WithField(WithField(s, l, Some(mid[1])), letter, v);
      }
    } else {
      assert all[0] == mid[0];
      assert all[1..] == mid[1..] + tail;
      OverwrittenFieldIgnored(mid[1..], g, b, rest, s.(usages := s.usages + 1), v);
      assert WithField(s, letter, v).(usages := s.usages + 1) == WithField(s.(usages := s.usages + 1), letter, v);
    }
  }

  /**
   * Of two flags with the same letter, the later one's value is the one
   * kept, whatever arguments the scan reads between them: the earlier flag
   * and its value might as well be absent.
   */
  lemma LaterFlagOverrides(f: string, a: string, mid: seq<string>, g: string, b: string, rest: seq<string>, s: Scanner)
    requires IsFlag(f) && IsFlag(g) && FlagLetter(f) == FlagLetter(g)
    requires FlagLetter(f) == 'd' || FlagLetter(f) == 'c'
    requires Aligned(mid)
    ensures ScanFrom([f, a] + mid + [g, b] + rest, s) == ScanFrom(mid + [g, b] + rest, s)
  {
    var tail := mid + ([g, b] + rest);
    assert [f, a] + mid + [g, b] + rest == [f, a] + tail;
    assert mid + [g, b] + rest == tail;
    FlagTakesNextArgument(f, a, tail, s);
    assert ScanFrom([f, a] + tail, s) == ScanFrom(tail, WithField(s, FlagLetter(f), Some(a)));
    OverwrittenFieldIgnored(mid, g, b, rest, s, Some(a));
  }

  /** A positional argument, the empty string among them, stops the scan where it stands. */
  lemma PositionalStopsScan(p: string, rest: seq<string>, s: Scanner)
    requires !IsFlag(p)
    ensures ScanFrom([p] + rest, s) == Positional(s.usages)
    ensures ScanFrom([""] + rest, s) == Positional(s.usages)
  {
  }

  /** After a 'd' or 'c' flag and its value, a prefix ends on an argument boundary as the rest's prefix does. */
  lemma AlignedAfterValue(args: seq<string>, k: int)
    requires |args| >= 2 && IsFlag(args[0]) && (FlagLetter(args[0]) == 'd' || FlagLetter(args[0]) == 'c')
    requires 2 <= k <= |args|
    ensures Aligned(args[..k]) == Aligned(args[2..][..k - 2])
  {
    assert args[..k][0] == args[0];
    assert args[..k][2..] == args[2..][..k - 2];
  }

  /** After a flag with another letter, a prefix ends on an argument boundary as the rest's prefix does. */
  lemma AlignedAfterSkip(args: seq<string>, k: int)
    requires |args| >= 1 && IsFlag(args[0]) && FlagLetter(args[0]) != 'd' && FlagLetter(args[0]) != 'c'
    requires 1 <= k <= |args|
    ensures Aligned(args[..k]) == Aligned(args[1..][..k - 1])
  {
    assert args[..k][0] == args[0];
    assert args[..k][1..] == args[1..][..k - 1];
  }

  /** Argument `i` does not start with '-' or '/' and is reached as an argument, not as a flag's value. */
  predicate StrayAt(args: seq<string>, i: int) {
    0 <= i < |args| && Aligned(args[..i]) && !IsFlag(args[i])
  }

  /**
   * The scan stops at a positional argument exactly when it reaches, as an
   * argument of its own, one that does not start with '-' or '/'; a value
   * taken by a 'd' or 'c' flag never stops it.
   */
  lemma {:induction false} StopsExactlyAtStray(args: seq<string>, s: Scanner)
    ensures ScanFrom(args, s).Positional? <==> exists i :: StrayAt(args, i)
    decreases |args|
  {
    if args == [] {
    } else if !IsFlag(args[0]) {
      assert args[..0] == [];
      assert StrayAt(args, 0);
    } else {
      var l := FlagLetter(args[0]);
      if l == 'd' || l == 'c' {
        if |args| == 1 {
          assert forall i :: !StrayAt(args, i);
        } else {
          var rest := args[2..];
          assert ScanFrom(args, s) == ScanFrom(rest, WithField(s, l, Some(args[1])));
          StopsExactlyAtStray(rest, WithField(s, l, Some(args[1])));
          assert !StrayAt(args, 1) by {
            assert !Aligned(args[..1]);
          }
          forall i | 2 <= i < |args|
            ensures StrayAt(args, i) == StrayAt(rest, i - 2)
          {
            AlignedAfterValue(args, i);
          }
          if exists i :: StrayAt(rest, i) {
            var i :| StrayAt(rest, i);
            assert StrayAt(args, i + 2);
          }
          if exists i :: StrayAt(args, i) {
            var i :| StrayAt(args, i);
            assert StrayAt(rest, i - 2);
          }
        }
      } else {
        var rest := args[1..];
        assert ScanFrom(args, s) == ScanFrom(rest, s.(usages := s.usages + 1));
        StopsExactlyAtStray(rest, s.(usages := s.usages + 1));
        forall i | 1 <= i < |args|
          ensures StrayAt(args, i) == StrayAt(rest, i - 1)
        {
          AlignedAfterSkip(args, i);
        }
        if exists i :: StrayAt(rest, i) {
          var i :| StrayAt(rest, i);
          assert StrayAt(args, i + 1);
        }
        if exists i :: StrayAt(args, i) {
          var i :| StrayAt(args, i);
          assert StrayAt(rest, i - 1);
        }
      }
    }
  }

  /** `argv[j]` for the arguments after the program name: the null pointer at `argc`. */
  function ArgAt(args: seq<string>, j: nat): Option<string>
    requires j <= |args|
  {
    if j < |args| then Some(args[j]) else None
  }

  /**
   * Argument `i` is a flag with letter `letter` and is not taken as a
   * value; the scan reaches it as a flag when the scan runs to the end
   * (does not stop earlier at a positional argument).
   */
  predicate ReachedAsFlag(args: seq<string>, i: int, letter: char) {
    0 <= i < |args| && Aligned(args[..i]) && IsFlag(args[i]) && FlagLetter(args[i]) == letter
  }

  /** Argument `i` is the last flag with letter `letter` that the scan reaches. */
  predicate LastReached(args: seq<string>, i: int, letter: char) {
    ReachedAsFlag(args, i, letter) && forall k :: i < k < |args| ==> !ReachedAsFlag(args, k, letter)
  }

  /** After a 'd' or 'c' flag and its value, the flags reached are those reached in the rest. */
  lemma ReachedAfterValue(args: seq<string>, k: int, letter: char)
    requires |args| >= 2 && IsFlag(args[0]) && (FlagLetter(args[0]) == 'd' || FlagLetter(args[0]) == 'c')
    requires 2 <= k < |args|
    ensures ReachedAsFlag(args, k, letter) == ReachedAsFlag(args[2..], k - 2, letter)
  {
    assert args[..k][0] == args[0];
    assert args[..k][2..] == args[2..][..k - 2];
  }

  /** After a flag with another letter, the flags reached are those reached in the rest. */
  lemma ReachedAfterSkip(args: seq<string>, k: int, letter: char)
    requires |args| >= 1 && IsFlag(args[0]) && FlagLetter(args[0]) != 'd' && FlagLetter(args[0]) != 'c'
    requires 1 <= k < |args|
    ensures ReachedAsFlag(args, k, letter) == ReachedAsFlag(args[1..], k - 1, letter)
  {
    assert args[..k][0] == args[0];
    assert args[..k][1..] == args[1..][..k - 1];
  }

  /** A finished scan that reaches no 'd' (or 'c') flag keeps the device (or command) it started with. */
  lemma {:induction false} StartValueKept(args: seq<string>, s: Scanner, letter: char)
    requires letter == 'd' || letter == 'c'
    requires ScanFrom(args, s).Scanned?
    requires forall i :: 0 <= i < |args| ==> !ReachedAsFlag(args, i, letter)
    ensures Field(ScanFrom(args, s).state, letter) == Field(s, letter)
    decreases |args|
  {
    if args != [] {
      var l := FlagLetter(args[0]);
      assert ReachedAsFlag(args, 0, l);
      if l == 'd' || l == 'c' {
        if |args| >= 2 {
          var rest := args[2..];
          assert ScanFrom(args, s) == ScanFrom(rest, WithField(s, l, Some(args[1])));
          forall k | 0 <= k < |rest|
            ensures !ReachedAsFlag(rest, k, letter)
          {
            ReachedAfterValue(args, k + 2, letter);
          }
          StartValueKept(rest, WithField(s, l, Some(args[1])), letter);
        }
      } else {
        var rest := args[1..];
        assert ScanFrom(args, s) == ScanFrom(rest, s.(usages := s.usages + 1));
        forall k | 0 <= k < |rest|
          ensures !ReachedAsFlag(rest, k, letter)
        {
          ReachedAfterSkip(args, k + 1, letter);
        }
        StartValueKept(rest, s.(usages := s.usages + 1), letter);
      }
    }
  }

  /**
   * Which value a finished scan keeps: the argument after the last 'd' (or
   * 'c') flag the scan reaches as a flag, or the null pointer when that
   * flag is the last argument.
   */
  lemma {:induction false} ValueFollowsItsFlag(args: seq<string>, s: Scanner, letter: char, i: int)
    requires letter == 'd' || letter == 'c'
    requires ScanFrom(args, s).Scanned?
    requires LastReached(args, i, letter)
    ensures Field(ScanFrom(args, s).state, letter) == ArgAt(args, i + 1)
    decreases |args|
  {
    var l := FlagLetter(args[0]);
    assert ReachedAsFlag(args, 0, l);
    if l == 'd' || l == 'c' {
      if |args| == 1 {
        assert ScanFrom(args, s) == Scanned(WithField(s, l, None));
      } else {
        var s' := WithField(s, l, Some(args[1]));
        var rest := args[2..];
        assert ScanFrom(args, s) == ScanFrom(rest, s');
        assert !ReachedAsFlag(args, 1, letter) by {
          assert !Aligned(args[..1]);
        }
        if i == 0 {
          forall k | 0 <= k < |rest|
            ensures !ReachedAsFlag(rest, k, letter)
          {
            ReachedAfterValue(args, k + 2, letter);
          }
          StartValueKept(rest, s', letter);
        } else {
          ReachedAfterValue(args, i, letter);
          forall k | i - 2 < k < |rest|
            ensures !ReachedAsFlag(rest, k, letter)
          {
            ReachedAfterValue(args, k + 2, letter);
          }
          ValueFollowsItsFlag(rest, s', letter, i - 2);
        }
      }
    } else {
      var s' := s.(usages := s.usages + 1);
      var rest := args[1..];
      assert ScanFrom(args, s) == ScanFrom(rest, s');
      ReachedAfterSkip(args, i, letter);
      forall k | i - 1 < k < |rest|
        ensures !ReachedAsFlag(rest, k, letter)
      {
        ReachedAfterSkip(args, k + 1, letter);
      }
      ValueFollowsItsFlag(rest, s', letter, i - 1);
    }
  }

  /**
   * A 'd' or 'c' flag appended to arguments whose scan ends on an argument
   * boundary is reached as a flag, reads the null pointer after the last
   * argument, and leaves its field unset, whatever earlier flags set.
   */
  lemma TrailingFlagUnsets(args: seq<string>, f: string, s: Scanner)
    requires IsFlag(f) && (FlagLetter(f) == 'd' || FlagLetter(f) == 'c')
    requires Aligned(args) && ScanFrom(args + [f], s).Scanned?
    ensures Field(ScanFrom(args + [f], s).state, FlagLetter(f)) == None
  {
    var all := args + [f];
    assert all[..|args|] == args;
    assert LastReached(all, |args|, FlagLetter(f));
    ValueFollowsItsFlag(all, s, FlagLetter(f), |args|);
  }
}
