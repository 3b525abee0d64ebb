/** The raw-mode key reader: one key per call from a stream of runes, with every escape sequence
    swallowed whole. */
module TerminalKeys {

  /** What the reader's channel and clock deliver, in order. A `Pause` is the moment at which the
      deadline of a sequence being read would pass; a reader without a deadline waits it out. `Eof`
      is the event that carries the end-of-file error, `Failure` one with any other error. The end
      of the stream is the closed channel. */
  datatype Arrival = Rune(value: nat) | Pause | Eof | Failure(error: nat) | Cancel

  datatype Received = Got(value: nat) | Late | Ended | Broken(error: nat) | Aborted

  datatype Stop = EndOfInput | ReadFailed(error: nat) | Cancelled | Incomplete | Unsupported

  datatype Read = Pressed(value: nat) | Stopped(stop: Stop)

  const ESC := 27
  const BRACKET := 0x5b
  const SS3 := 0x4f // O
  const LIMIT := 32

  predicate Final(value: nat) {
    0x40 <= value <= 0x7e
  }

  predicate Parameter(value: nat) {
    0x20 <= value <= 0x3f
  }

  /** Parameters run from the blank to "?", final bytes from "@" to "~". */
  lemma SequenceBytes(value: nat)
    ensures Parameter(value) <==> ' ' as int <= value < '@' as int
    ensures Final(value) <==> '@' as int <= value <= '~' as int
  {
  }

  // ---------------------------------------------------------------------------------------------
  // What one call reads.
  // ---------------------------------------------------------------------------------------------

  /** Cancellation is never used up; everything else is. */
  function Receive(events: seq<Arrival>, timed: bool): (result: (Received, seq<Arrival>))
    ensures |result.1| <= |events|
    ensures result.0.Got? || result.0 == Late ==> |result.1| < |events|
    decreases |events|
  {
    if events == [] then (Ended, [])
    else
      match events[0]
      case Rune(value) => (Got(value), events[1..])
      case Pause => if timed then (Late, events[1..]) else Receive(events[1..], timed)
      case Eof => (Ended, events[1..])
      case Failure(error) => (Broken(error), events[1..])
      case Cancel => (Aborted, events)
  }

  /** The rest of a sequence, of which `index` runes have been read since the introducer. */
  function Body(events: seq<Arrival>, bracket: bool, index: nat): (result: (Read, seq<Arrival>))
    requires index <= LIMIT
    ensures |result.1| <= |events|
    decreases LIMIT - index
  {
    if index == LIMIT then (Stopped(Unsupported), events)
    else
      var (received, rest) := Receive(events, true);
      if !received.Got? then (Stopped(Incomplete), rest)
      else if index == 0 && bracket && received.value == BRACKET then Body(rest, bracket, index + 1)
      else if Final(received.value) then (Pressed(0), rest)
      else if !Parameter(received.value) then (Stopped(Unsupported), rest)
      else Body(rest, bracket, index + 1)
  }

  function Next(events: seq<Arrival>): (result: (Read, seq<Arrival>))
    ensures |result.1| <= |events|
    ensures result.0.Pressed? ==> |result.1| < |events|
  {
    var (first, after) := Receive(events, false);
    match first
    case Ended => (Stopped(EndOfInput), after)
    case Broken(error) => (Stopped(ReadFailed(error)), after)
    case Aborted => (Stopped(Cancelled), after)
    case Late => (Stopped(Cancelled), after)
    case Got(value) =>
      if value != ESC then (Pressed(value), after)
      else
        var (second, rest) := Receive(after, true);
        match second
        case Late => (Pressed(ESC), rest)
        case Ended => (Pressed(ESC), rest)
        case Broken(error) => (Stopped(ReadFailed(error)), rest)
        case Aborted => (Stopped(Cancelled), rest)
        case Got(introducer) =>
          if introducer != BRACKET && introducer != SS3 then (Pressed(0), rest)
          else Body(rest, introducer == BRACKET, 0)
  }

  class TerminalInput {
    var events: seq<Arrival>

    constructor (events: seq<Arrival>)
      ensures this.events == events
    {
      this.events := events;
    }

    method ReadRune(timed: bool) returns (received: Received)
      modifies this
      ensures (received, events) == Receive(old(events), timed)
    {
      while !timed && events != [] && events[0] == Pause
        invariant Receive(events, timed) == Receive(old(events), timed)
      {
        events := events[1..];
      }
      if events == [] {
        return Ended;
      }
      match events[0] {
        case Rune(value) => received := Got(value);
        case Pause => received := Late;
        case Eof => received := Ended;
        case Failure(error) => received := Broken(error);
        case Cancel => return Aborted;
      }
      events := events[1..];
    }

    method ReadKey() returns (read: Read)
      modifies this
      ensures (read, events) == Next(old(events))
    {
      var received := ReadRune(false);
      if !received.Got? || received.value != ESC {
        match received {
          case Got(value) => return Pressed(value);
          case Broken(error) => return Stopped(ReadFailed(error));
          case Ended => return Stopped(EndOfInput);
          case _ => return Stopped(Cancelled);
        }
      }
      received := ReadRune(true);
      match received {
        case Late => return Pressed(ESC);
        case Ended => return Pressed(ESC);
        case Broken(error) => return Stopped(ReadFailed(error));
        case Aborted => return Stopped(Cancelled);
        case Got(_) =>
      }
      if received.value != BRACKET && received.value != SS3 {
        return Pressed(0);
      }
      var introducer := received.value;
      ghost var body := events;
      for index := 0 to LIMIT
        invariant Body(events, introducer == BRACKET, index) == Body(body, introducer == BRACKET, 0)
      {
        received := ReadRune(true);
        if !received.Got? {
          return Stopped(Incomplete);
        }
        if index == 0 && introducer == BRACKET && received.value == BRACKET {
          continue;
        }
        if Final(received.value) {
          return Pressed(0);
        }
        if !Parameter(received.value) {
          break;
        }
      }
      return Stopped(Unsupported);
    }
  }

  // ---------------------------------------------------------------------------------------------
  // Repeated reading refines a small automaton.
  // ---------------------------------------------------------------------------------------------

  /** The keys read until a read fails, and how it failed. */
  datatype Keys = Keys(pressed: seq<nat>, stop: Stop)

  function Before(value: nat, keys: Keys): Keys {
    Keys([value] + keys.pressed, keys.stop)
  }

  function ReadAll(events: seq<Arrival>): Keys
    decreases |events|
  {
    var (read, rest) := Next(events);
    match read
    case Pressed(value) => Before(value, ReadAll(rest))
    case Stopped(stop) => Keys([], stop)
  }

  /** Where a stream stands: between keys, after an escape, or inside a sequence. `linux` is set
      while a second bracket may still follow. */
  datatype Mode = Ground | Escaped | Inside(linux: bool, count: nat)

  datatype Move = Quiet(mode: Mode) | Key(value: nat) | Halt(stop: Stop)

  /** One arrival at a time. Only a rune that arrives between keys is ever reported as itself. */
  function Advance(mode: Mode, arrival: Arrival): Move {
    match mode
    case Ground =>
      (match arrival
       case Rune(value) => if value == ESC then Quiet(Escaped) else Key(value)
       case Pause => Quiet(Ground)
       case Eof => Halt(EndOfInput)
       case Failure(error) => Halt(ReadFailed(error))
       case Cancel => Halt(Cancelled))
    case Escaped =>
      (match arrival
       case Rune(value) =>
         if value == BRACKET then Quiet(Inside(true, 0)) else if value == SS3 then Quiet(Inside(false, 0)) else Key(0)
       case Pause => Key(ESC)
       case Eof => Key(ESC)
       case Failure(error) => Halt(ReadFailed(error))
       case Cancel => Halt(Cancelled))
    case Inside(linux, count) =>
      if !arrival.Rune? then Halt(Incomplete)
      else if Final(arrival.value) && !(linux && arrival.value == BRACKET) then Key(0)
      else if !Parameter(arrival.value) && !(linux && arrival.value == BRACKET) then Halt(Unsupported)
      else if count + 1 == LIMIT then Halt(Unsupported)
      else Quiet(Inside(false, count + 1))
  }

  function Scan(events: seq<Arrival>, mode: Mode): Keys
    decreases |events|
  {
    if events == [] then
      match mode
      case Ground => Keys([], EndOfInput)
      case Escaped => Keys([ESC], EndOfInput)
      case Inside(_, _) => Keys([], Incomplete)
    else
      match Advance(mode, events[0])
      case Quiet(next) => Scan(events[1..], next)
      case Key(value) => Before(value, Scan(events[1..], Ground))
      case Halt(stop) => Keys([], stop)
  }

  /** The keys after one read, scanned. */
  function Then(result: (Read, seq<Arrival>)): Keys {
    match result.0
    case Pressed(value) => Before(value, Scan(result.1, Ground))
    case Stopped(stop) => Keys([], stop)
  }

  lemma {:induction false} BodyIsScanned(events: seq<Arrival>, bracket: bool, index: nat)
    requires index < LIMIT
    ensures Scan(events, Inside(bracket && index == 0, index)) == Then(Body(events, bracket, index))
    decreases LIMIT - index
  {
    if events != [] && events[0].Rune? && index + 1 < LIMIT {
      BodyIsScanned(events[1..], bracket, index + 1);
    }
  }

  lemma {:induction false} NextIsScanned(events: seq<Arrival>)
    ensures Scan(events, Ground) == Then(Next(events))
    decreases |events|
  {
    if events != [] && events[0] == Pause {
      NextIsScanned(events[1..]);
    } else if events != [] && events[0] == Rune(ESC) {
      var rest := events[1..];
      if rest != [] && rest[0].Rune? && (rest[0].value == BRACKET || rest[0].value == SS3) {
        BodyIsScanned(rest[1..], rest[0].value == BRACKET, 0);
      }
    }
  }

  /** On every stream, reading key after key gives exactly what the automaton reports. */
  lemma {:induction false} ReadAllIsScan(events: seq<Arrival>)
    ensures ReadAll(events) == Scan(events, Ground)
    decreases |events|
  {
    NextIsScanned(events);
    var (read, rest) := Next(events);
    if read.Pressed? {
      ReadAllIsScan(rest);
    }
  }

  /** The mode in which the automaton takes the arrival at position `n`, if it gets there. */
  function ModeAt(events: seq<Arrival>, mode: Mode, n: nat): Mode
    requires n <= |events|
    decreases n
  {
    if n == 0 then mode
    else
      match Advance(mode, events[0])
      case Quiet(next) => ModeAt(events[1..], next, n - 1)
      case _ => ModeAt(events[1..], Ground, n - 1)
  }

  /** On every stream, a key other than the two codes 0 and 27 is a rune that arrived between
      keys: no rune from inside an escape sequence is ever returned. */
  lemma {:induction false} KeysComeFromTheGround(events: seq<Arrival>, mode: Mode, k: nat)
    requires k < |Scan(events, mode).pressed| && Scan(events, mode).pressed[k] !in {0, ESC}
    ensures exists n :: 0 <= n < |events| && ModeAt(events, mode, n) == Ground && events[n] == Rune(Scan(events, mode).pressed[k])
    decreases |events|
  {
    var value := Scan(events, mode).pressed[k];
    var move := Advance(mode, events[0]);
    if move.Key? && k == 0 {
      assert ModeAt(events, mode, 0) == Ground && events[0] == Rune(value);
    } else {
      var next := if move.Quiet? then move.mode else Ground;
      var j := if move.Key? then k - 1 else k;
      KeysComeFromTheGround(events[1..], next, j);
      var n :| 0 <= n < |events[1..]| && ModeAt(events[1..], next, n) == Ground && events[1..][n] == Rune(value);
      assert ModeAt(events, mode, n + 1) == Ground && events[n + 1] == Rune(value);
    }
  }

  /** No rune comes next: a pause, the end-of-file event, or the end of the stream. */
  predicate SilentAt(events: seq<Arrival>, n: nat)
    requires n <= |events|
  {
    n == |events| || events[n] == Pause || events[n] == Eof
  }

  /** The key 27 arises only from an escape that is followed by a pause or by the end of the input. */
  lemma {:induction false} EscapeNeedsSilence(events: seq<Arrival>, mode: Mode, k: nat)
    requires k < |Scan(events, mode).pressed| && Scan(events, mode).pressed[k] == ESC
    ensures exists n :: 0 <= n <= |events| && ModeAt(events, mode, n) == Escaped && SilentAt(events, n)
    decreases |events|
  {
    if events == [] {
      assert ModeAt(events, mode, 0) == Escaped && SilentAt(events, 0);
    } else {
      var move := Advance(mode, events[0]);
      if move.Key? && k == 0 {
        assert ModeAt(events, mode, 0) == Escaped && SilentAt(events, 0);
      } else {
        var next := if move.Quiet? then move.mode else Ground;
        var j := if move.Key? then k - 1 else k;
        EscapeNeedsSilence(events[1..], next, j);
        var n :| 0 <= n <= |events[1..]| && ModeAt(events[1..], next, n) == Escaped && SilentAt(events[1..], n);
        assert ModeAt(events, mode, n + 1) == Escaped && SilentAt(events, n + 1);
      }
    }
  }

  lemma ReadEscapeNeedsSilence(events: seq<Arrival>, k: nat)
    requires k < |ReadAll(events).pressed| && ReadAll(events).pressed[k] == ESC
    ensures exists n :: 0 <= n <= |events| && ModeAt(events, Ground, n) == Escaped && SilentAt(events, n)
  {
    ReadAllIsScan(events);
    EscapeNeedsSilence(events, Ground, k);
  }

  lemma ReadKeysComeFromTheGround(events: seq<Arrival>, k: nat)
    requires k < |ReadAll(events).pressed| && ReadAll(events).pressed[k] !in {0, ESC}
    ensures exists n :: 0 <= n < |events| && ModeAt(events, Ground, n) == Ground && events[n] == Rune(ReadAll(events).pressed[k])
  {
    ReadAllIsScan(events);
    KeysComeFromTheGround(events, Ground, k);
  }

  // ---------------------------------------------------------------------------------------------
  // Well-formed input (ECMA-48, section 5.4; the Linux console's function keys).
  // ---------------------------------------------------------------------------------------------

  /** What a key press sends. `Lone` is the escape key on its own, followed by a pause. */
  datatype Press =
    | Plain(value: nat)
    | Alt(value: nat)
    | Lone
    | Csi(parameters: seq<nat>, final: nat)
    | Single(parameters: seq<nat>, final: nat)
    | Linux(parameters: seq<nat>, final: nat)
  {
    predicate WellFormed() {
      match this
      case Plain(value) => value != ESC
      case Alt(value) => value != BRACKET && value != SS3
      case Lone => true
      case Csi(parameters, final) => Complete(parameters, final, 0) && (parameters == [] ==> final != BRACKET)
      case Single(parameters, final) => Complete(parameters, final, 0)
      case Linux(parameters, final) => Complete(parameters, final, 1)
    }

    function Arrivals(): seq<Arrival> {
      match this
      case Plain(value) => [Rune(value)]
      case Alt(value) => [Rune(ESC), Rune(value)]
      case Lone => [Rune(ESC), Pause]
      case Csi(parameters, final) => [Rune(ESC), Rune(BRACKET)] + Tail(parameters, final)
      case Single(parameters, final) => [Rune(ESC), Rune(SS3)] + Tail(parameters, final)
      case Linux(parameters, final) => [Rune(ESC), Rune(BRACKET), Rune(BRACKET)] + Tail(parameters, final)
    }

    function Meaning(): nat {
      match this
      case Plain(value) => value
      case Lone => ESC
      case _ => 0
    }
  }

  /** The parameters and the final rune fit into what is left of the bound. */
  predicate Complete(parameters: seq<nat>, final: nat, read: nat) {
    (forall i :: 0 <= i < |parameters| ==> Parameter(parameters[i])) && Final(final) && read + |parameters| < LIMIT
  }

  function Tail(parameters: seq<nat>, final: nat): seq<Arrival> {
    if parameters == [] then [Rune(final)] else [Rune(parameters[0])] + Tail(parameters[1..], final)
  }

  function Sent(presses: seq<Press>): seq<Arrival> {
    if presses == [] then [] else presses[0].Arrivals() + Sent(presses[1..])
  }

  function Meanings(presses: seq<Press>): seq<nat> {
    seq(|presses|, i requires 0 <= i < |presses| => presses[i].Meaning())
  }

  /** A well-formed press is used up exactly: the next call starts with what follows it. */
  lemma PressIsUsedUp(press: Press, rest: seq<Arrival>)
    requires press.WellFormed()
    ensures Next(press.Arrivals() + rest) == (Pressed(press.Meaning()), rest)
  {
    var events := press.Arrivals() + rest;
    match press
    case Plain(value) => assert events[1..] == rest;
    case Alt(value) => assert events[1..][1..] == rest;
    case Lone => assert events[1..][1..] == rest;
    case Csi(parameters, final) => SequenceIsUsedUp(events, BRACKET, parameters, final, rest);
    case Single(parameters, final) => SequenceIsUsedUp(events, SS3, parameters, final, rest);
    case Linux(parameters, final) => LinuxIsUsedUp(events, parameters, final, rest);
  }

  lemma SequenceIsUsedUp(events: seq<Arrival>, introducer: nat, parameters: seq<nat>, final: nat, rest: seq<Arrival>)
    requires introducer in {BRACKET, SS3} && Complete(parameters, final, 0)
    requires introducer == BRACKET && parameters == [] ==> final != BRACKET
    requires events == [Rune(ESC), Rune(introducer)] + Tail(parameters, final) + rest
    ensures Next(events) == (Pressed(0), rest)
  {
    assert events[1..][1..] == Tail(parameters, final) + rest;
    TailIsUsedUp(parameters, final, rest, introducer == BRACKET, 0);
  }

  lemma LinuxIsUsedUp(events: seq<Arrival>, parameters: seq<nat>, final: nat, rest: seq<Arrival>)
    requires Complete(parameters, final, 1)
    requires events == [Rune(ESC), Rune(BRACKET), Rune(BRACKET)] + Tail(parameters, final) + rest
    ensures Next(events) == (Pressed(0), rest)
  {
    assert events[1..][1..][1..] == Tail(parameters, final) + rest;
    TailIsUsedUp(parameters, final, rest, true, 1);
  }

  lemma {:induction false} TailIsUsedUp(parameters: seq<nat>, final: nat, rest: seq<Arrival>, bracket: bool, index: nat)
    requires Complete(parameters, final, index) && (bracket && index == 0 && parameters == [] ==> final != BRACKET)
    ensures Body(Tail(parameters, final) + rest, bracket, index) == (Pressed(0), rest)
    decreases |parameters|
  {
    var events := Tail(parameters, final) + rest;
    if parameters == [] {
      assert events[1..] == rest;
    } else {
      assert Parameter(parameters[0]);
      assert events[1..] == Tail(parameters[1..], final) + rest;
      TailIsUsedUp(parameters[1..], final, rest, bracket, index + 1);
    }
  }

  /** Reading back what a sequence of key presses sends gives one key for each press: the rune of a
      plain key, 27 for the lone escape key, 0 for every complete sequence. */
  lemma {:induction false} PressesAreReadBack(presses: seq<Press>)
    requires forall i :: 0 <= i < |presses| ==> presses[i].WellFormed()
    ensures ReadAll(Sent(presses)) == Keys(Meanings(presses), EndOfInput)
    decreases |presses|
  {
    if presses != [] {
      PressIsUsedUp(presses[0], Sent(presses[1..]));
      PressesAreReadBack(presses[1..]);
      assert Meanings(presses) == [presses[0].Meaning()] + Meanings(presses[1..]);
    }
  }
}
