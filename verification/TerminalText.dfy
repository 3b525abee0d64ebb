/** Text from a mailbox made safe to print: terminal sequences are taken out of the bytes, then
    controls and white space are tidied in the decoded runes. */
module TerminalText {
  import opened Wrappers

  type Byte = b: int | 0 <= b < 256

  const ESC: Byte := 0x1b
  const BEL: Byte := 0x07
  const CSI: Byte := 0x5b // [
  const OSC: Byte := 0x5d // ]
  const BACKSLASH: Byte := 0x5c

  // ---------------------------------------------------------------------------------------------
  // Stripping terminal sequences.
  // ---------------------------------------------------------------------------------------------

  predicate Final(b: Byte) {
    0x40 <= b <= 0x7e
  }

  /** What follows a control sequence, given what follows its introducer. */
  function AfterControl(value: seq<Byte>): (rest: seq<Byte>)
    ensures |rest| <= |value|
  {
    if value == [] then [] else if Final(value[0]) then value[1..] else AfterControl(value[1..])
  }

  /** What follows an operating system command, given what follows its introducer. */
  function AfterCommand(value: seq<Byte>): (rest: seq<Byte>)
    ensures |rest| <= |value|
  {
    if value == [] then []
    else if value[0] == BEL then value[1..]
    else if value[0] == ESC && |value| > 1 && value[1] == BACKSLASH then value[2..]
    else AfterCommand(value[1..])
  }

  function Strip(value: seq<Byte>): seq<Byte>
    decreases |value|
  {
    if value == [] then []
    else if value[0] != ESC then [value[0]] + Strip(value[1..])
    else if |value| == 1 then []
    else if value[1] == CSI then Strip(AfterControl(value[2..]))
    else if value[1] == OSC then Strip(AfterCommand(value[2..]))
    else Strip(value[2..])
  }

  lemma StripStep(value: seq<Byte>, index: nat)
    requires index < |value|
    ensures var rest := Strip(value[index..]);
            if value[index] != ESC then rest == [value[index]] + Strip(value[index + 1..])
            else if index + 1 == |value| then rest == []
            else if value[index + 1] == CSI then rest == Strip(AfterControl(value[index + 2..]))
            else if value[index + 1] == OSC then rest == Strip(AfterCommand(value[index + 2..]))
            else rest == Strip(value[index + 2..])
  {
    var at := value[index..];
    assert at[1..] == value[index + 1..];
    if index + 1 < |value| {
      assert at[2..] == value[index + 2..];
    }
  }

  lemma AfterControlStep(value: seq<Byte>, index: nat)
    requires index < |value|
    ensures AfterControl(value[index..]) == if Final(value[index]) then value[index + 1..] else AfterControl(value[index + 1..])
  {
    assert value[index..][1..] == value[index + 1..];
  }

  lemma AfterCommandStep(value: seq<Byte>, index: nat)
    requires index < |value|
    ensures var rest := AfterCommand(value[index..]);
            if value[index] == BEL then rest == value[index + 1..]
            else if value[index] == ESC && index + 1 < |value| && value[index + 1] == BACKSLASH then rest == value[index + 2..]
            else rest == AfterCommand(value[index + 1..])
  {
    var at := value[index..];
    assert at[1..] == value[index + 1..];
    if index + 1 < |value| {
      assert at[2..] == value[index + 2..];
    }
  }

  /** The inner loop over a control sequence, from behind its introducer. */
  method SkipControl(value: seq<Byte>, start: nat) returns (index: nat)
    requires start <= |value|
    ensures start <= index <= |value| && value[index..] == AfterControl(value[start..])
  {
    index := start;
    while index < |value|
      invariant start <= index <= |value|
      invariant AfterControl(value[index..]) == AfterControl(value[start..])
    {
      AfterControlStep(value, index);
      var final := value[index];
      index := index + 1;
      if Final(final) {
        return;
      }
    }
  }

  /** The inner loop over an operating system command, ended by BEL or by ST. */
  method SkipCommand(value: seq<Byte>, start: nat) returns (index: nat)
    requires start <= |value|
    ensures start <= index <= |value| && value[index..] == AfterCommand(value[start..])
  {
    index := start;
    while index < |value|
      invariant start <= index <= |value|
      invariant AfterCommand(value[index..]) == AfterCommand(value[start..])
    {
      AfterCommandStep(value, index);
      if value[index] == BEL {
        index := index + 1;
        return;
      }
      if value[index] == ESC && index + 1 < |value| && value[index + 1] == BACKSLASH {
        index := index + 2;
        return;
      }
      index := index + 1;
    }
  }

  method StripTerminalSequences(value: seq<Byte>) returns (result: seq<Byte>)
    ensures result == Strip(value)
    ensures ESC !in result
  {
    result := [];
    var index := 0;
    assert value[0..] == value;
    while index < |value|
      invariant 0 <= index <= |value|
      invariant result + Strip(value[index..]) == Strip(value)
      decreases |value| - index
    {
      StripStep(value, index);
      if value[index] != ESC {
        assert result + ([value[index]] + Strip(value[index + 1..])) == result + [value[index]] + Strip(value[index + 1..]);
        result := result + [value[index]];
        index := index + 1;
        continue;
      }
      index := index + 1;
      if index >= |value| {
        break;
      }
      if value[index] == CSI {
        index := SkipControl(value, index + 1);
      } else if value[index] == OSC {
        index := SkipCommand(value, index + 1);
      } else {
        index := index + 1;
      }
    }
    StripIsClean(value);
  }

  // ---------------------------------------------------------------------------------------------
  // What stripping takes out (ECMA-48, sections 5.4 and 8.3.89).
  // ---------------------------------------------------------------------------------------------

  /** Plain bytes, a control sequence, an operating system command ended by BEL or by ST, or a
      two-byte escape. */
  datatype Piece =
    | Text(text: seq<Byte>)
    | Control(parameters: seq<Byte>, end: Byte)
    | Command(payload: seq<Byte>, bell: bool)
    | Short(b: Byte)
  {
    predicate WellFormed() {
      match this
      case Text(text) => ESC !in text
      case Control(parameters, end) => (forall i :: 0 <= i < |parameters| ==> !Final(parameters[i])) && Final(end)
      case Command(payload, _) =>
        BEL !in payload && forall i :: 0 <= i < |payload| - 1 ==> !(payload[i] == ESC && payload[i + 1] == BACKSLASH)
      case Short(b) => b != CSI && b != OSC
    }

    function Bytes(): seq<Byte> {
      match this
      case Text(text) => text
      case Control(parameters, end) => [ESC, CSI] + parameters + [end]
      case Command(payload, bell) => [ESC, OSC] + payload + if bell then [BEL] else [ESC, BACKSLASH]
      case Short(b) => [ESC, b]
    }
  }

  function Interleaved(pieces: seq<Piece>): seq<Byte> {
    if pieces == [] then [] else pieces[0].Bytes() + Interleaved(pieces[1..])
  }

  function TextOf(pieces: seq<Piece>): seq<Byte> {
    if pieces == [] then [] else (if pieces[0].Text? then pieces[0].text else []) + TextOf(pieces[1..])
  }

  lemma {:induction false} StripText(text: seq<Byte>, rest: seq<Byte>)
    requires ESC !in text
    ensures Strip(text + rest) == text + Strip(rest)
    decreases |text|
  {
    if text == [] {
      assert text + rest == rest;
    } else {
      assert (text + rest)[1..] == text[1..] + rest;
      StripText(text[1..], rest);
      assert [text[0]] + (text[1..] + Strip(rest)) == text + Strip(rest);
    }
  }

  lemma {:induction false} ControlEnds(parameters: seq<Byte>, end: Byte, rest: seq<Byte>)
    requires (forall i :: 0 <= i < |parameters| ==> !Final(parameters[i])) && Final(end)
    ensures AfterControl(parameters + [end] + rest) == rest
    decreases |parameters|
  {
    var value := parameters + [end] + rest;
    if parameters == [] {
      assert value[1..] == rest;
    } else {
      assert !Final(parameters[0]);
      assert value[1..] == parameters[1..] + [end] + rest;
      ControlEnds(parameters[1..], end, rest);
    }
  }

  lemma {:induction false} CommandEnds(payload: seq<Byte>, bell: bool, rest: seq<Byte>)
    requires Command(payload, bell).WellFormed()
    ensures AfterCommand(payload + (if bell then [BEL] else [ESC, BACKSLASH]) + rest) == rest
    decreases |payload|
  {
    var terminator := if bell then [BEL] else [ESC, BACKSLASH];
    var value := payload + terminator + rest;
    if payload == [] {
      assert value[|terminator|..] == rest;
      assert value[0] == terminator[0];
    } else {
      assert value[1..] == payload[1..] + terminator + rest;
      assert value[0] == payload[0] != BEL;
      assert !(value[0] == ESC && value[1] == BACKSLASH) by {
        if |payload| > 1 {
          assert value[1] == payload[1];
        } else {
          assert value[1] == terminator[0];
        }
      }
      assert Command(payload[1..], bell).WellFormed() by {
        forall i | 0 <= i < |payload[1..]| - 1 ensures !(payload[1..][i] == ESC && payload[1..][i + 1] == BACKSLASH) {
          assert payload[1..][i] == payload[i + 1] && payload[1..][i + 1] == payload[(i + 1) + 1];
        }
      }
      CommandEnds(payload[1..], bell, rest);
    }
  }

  /** Only what follows a sequence is left of it. */
  lemma StripControl(parameters: seq<Byte>, end: Byte, rest: seq<Byte>)
    requires Control(parameters, end).WellFormed()
    ensures Strip(Control(parameters, end).Bytes() + rest) == Strip(rest)
  {
    var value := Control(parameters, end).Bytes() + rest;
    ControlEnds(parameters, end, rest);
    assert value[2..] == parameters + [end] + rest;
    assert value[0] == ESC && value[1] == CSI;
  }

  lemma StripCommand(payload: seq<Byte>, bell: bool, rest: seq<Byte>)
    requires Command(payload, bell).WellFormed()
    ensures Strip(Command(payload, bell).Bytes() + rest) == Strip(rest)
  {
    var value := Command(payload, bell).Bytes() + rest;
    CommandEnds(payload, bell, rest);
    assert value[2..] == payload + (if bell then [BEL] else [ESC, BACKSLASH]) + rest;
    assert value[0] == ESC && value[1] == OSC;
  }

  lemma StripShort(b: Byte, rest: seq<Byte>)
    requires Short(b).WellFormed()
    ensures Strip(Short(b).Bytes() + rest) == Strip(rest)
  {
    assert ([ESC, b] + rest)[2..] == rest;
  }

  lemma StripPiece(piece: Piece, rest: seq<Byte>)
    requires piece.WellFormed()
    ensures Strip(piece.Bytes() + rest) == (if piece.Text? then piece.text else []) + Strip(rest)
  {
    match piece
    case Text(text) => StripText(text, rest);
    case Control(parameters, end) => StripControl(parameters, end, rest);
    case Command(payload, bell) => StripCommand(payload, bell, rest);
    case Short(b) => StripShort(b, rest);
  }

  /** Stripping undoes any interleaving of text with complete terminal sequences. */
  lemma {:induction false} StripUndoesInterleaving(pieces: seq<Piece>)
    requires forall i :: 0 <= i < |pieces| ==> pieces[i].WellFormed()
    ensures Strip(Interleaved(pieces)) == TextOf(pieces)
    decreases |pieces|
  {
    if pieces != [] {
      StripPiece(pieces[0], Interleaved(pieces[1..]));
      StripUndoesInterleaving(pieces[1..]);
    }
  }

  /** `kept` is what remains of `value` when some of its bytes are left out. */
  ghost predicate Subsequence(kept: seq<Byte>, value: seq<Byte>)
    decreases |value|
  {
    if value == [] then kept == []
    else Subsequence(kept, value[1..]) || (kept != [] && kept[0] == value[0] && Subsequence(kept[1..], value[1..]))
  }

  lemma {:induction false} SubsequenceOfLonger(kept: seq<Byte>, value: seq<Byte>, n: nat)
    requires n <= |value| && Subsequence(kept, value[n..])
    ensures Subsequence(kept, value)
    decreases n
  {
    if n == 0 {
      assert value[0..] == value;
    } else {
      assert value[1..][n - 1..] == value[n..];
      SubsequenceOfLonger(kept, value[1..], n - 1);
    }
  }

  lemma {:induction false} AfterControlIsSuffix(value: seq<Byte>)
    ensures AfterControl(value) == value[|value| - |AfterControl(value)|..]
    decreases |value|
  {
    if value != [] && !Final(value[0]) {
      AfterControlIsSuffix(value[1..]);
    }
  }

  lemma {:induction false} AfterCommandIsSuffix(value: seq<Byte>)
    ensures AfterCommand(value) == value[|value| - |AfterCommand(value)|..]
    decreases |value|
  {
    if value != [] && value[0] != BEL && !(value[0] == ESC && |value| > 1 && value[1] == BACKSLASH) {
      AfterCommandIsSuffix(value[1..]);
    }
  }

  /** Whatever the bytes, only bytes of the input come out, in order, and no ESC among them. */
  lemma {:induction false} StripIsClean(value: seq<Byte>)
    ensures ESC !in Strip(value)
    ensures Subsequence(Strip(value), value)
    decreases |value|
  {
    if value == [] {
    } else if value[0] != ESC {
      StripIsClean(value[1..]);
      assert Strip(value)[1..] == Strip(value[1..]);
    } else if |value| == 1 {
      assert Subsequence([], value[1..]);
    } else {
      var rest :=
        if value[1] == CSI then AfterControl(value[2..]) else if value[1] == OSC then AfterCommand(value[2..]) else value[2..];
      AfterControlIsSuffix(value[2..]);
      AfterCommandIsSuffix(value[2..]);
      StripIsClean(rest);
      assert rest == value[|value| - |rest|..];
      SubsequenceOfLonger(Strip(value), value, |value| - |rest|);
    }
  }

  /** Stripping leaves exactly the ESC-free inputs alone, so stripping twice is stripping once. */
  lemma StripIsIdempotent(value: seq<Byte>)
    ensures Strip(value) == value <==> ESC !in value
    ensures Strip(Strip(value)) == Strip(value)
  {
    StripIsClean(value);
    StripText(Strip(value), []);
    assert Strip(value) + [] == Strip(value);
    if ESC !in value {
      StripText(value, []);
      assert value + [] == value;
    }
  }

  // ---------------------------------------------------------------------------------------------
  // Runes (The Unicode Standard, section 3.9, table 3-7: well-formed UTF-8).
  // ---------------------------------------------------------------------------------------------

  type Rune = r: int | 0 <= r < 0x110000

  const REPLACEMENT: Rune := 0xfffd
  const SPACE: Rune := 0x20
  const ELLIPSIS: Rune := 0x2026

  predicate Continuation(value: seq<Byte>, i: nat) {
    i < |value| && 0x80 <= value[i] < 0xc0
  }

  /** How many bytes the first rune takes; a byte that starts no well-formed rune stands alone. */
  function Width(value: seq<Byte>): (width: nat)
    requires value != []
    ensures 1 <= width <= |value|
    ensures forall i :: 1 <= i < width ==> Continuation(value, i)
  {
    var b := value[0];
    if !Continuation(value, 1) then 1
    else if 0xc2 <= b < 0xe0 then 2
    else if !Continuation(value, 2) then 1
    else if 0xe0 <= b < 0xf0 then
      if (b == 0xe0 && value[1] < 0xa0) || (b == 0xed && value[1] >= 0xa0) then 1 else 3
    else if !Continuation(value, 3) then 1
    else if 0xf0 <= b < 0xf5 then
      if (b == 0xf0 && value[1] < 0x90) || (b == 0xf4 && value[1] >= 0x90) then 1 else 4
    else 1
  }

  /** The payload bits of a byte. */
  function Low(b: Byte, modulus: int): (low: int)
    requires modulus > 0
    ensures 0 <= low < modulus && (low == b % modulus)
  {
    var n: int := b;
    n % modulus
  }

  function FirstRune(value: seq<Byte>): Rune
    requires value != []
  {
    var b := value[0];
    match Width(value)
    case 1 => if b < 0x80 then b else REPLACEMENT
    case 2 => Low(b, 32) * 64 + Low(value[1], 64)
    case 3 => Low(b, 16) * 4096 + Low(value[1], 64) * 64 + Low(value[2], 64)
    case _ => Low(b, 8) * 262144 + Low(value[1], 64) * 4096 + Low(value[2], 64) * 64 + Low(value[3], 64)
  }

  function Decode(value: seq<Byte>): (runes: seq<Rune>)
    ensures |runes| <= |value|
    decreases |value|
  {
    if value == [] then [] else [FirstRune(value)] + Decode(value[Width(value)..])
  }

  predicate IsControl(r: Rune) {
    r < 0x20 || 0x7f <= r < 0xa0
  }

  predicate IsSpace(r: Rune) {
    || r == 0x20 || 0x09 <= r <= 0x0d || r == 0x85 || r == 0xa0 || r == 0x1680 || 0x2000 <= r <= 0x200a
    || r == 0x2028 || r == 0x2029 || r == 0x202f || r == 0x205f || r == 0x3000
  }

  function Map(runes: seq<Rune>, mapping: Rune -> Rune): (result: seq<Rune>) {
    seq(|runes|, i requires 0 <= i < |runes| => mapping(runes[i]))
  }

  /** The length of the run of non-spaces at the start. */
  function FieldLength(runes: seq<Rune>): (n: nat)
    ensures n <= |runes| && (forall i :: 0 <= i < n ==> !IsSpace(runes[i])) && (n < |runes| ==> IsSpace(runes[n]))
  {
    if runes == [] || IsSpace(runes[0]) then 0 else 1 + FieldLength(runes[1..])
  }

  /** The maximal runs of non-spaces. */
  function Fields(runes: seq<Rune>): seq<seq<Rune>>
    decreases |runes|
  {
    if runes == [] then []
    else if IsSpace(runes[0]) then Fields(runes[1..])
    else [runes[..FieldLength(runes)]] + Fields(runes[FieldLength(runes)..])
  }

  function Join<T>(parts: seq<seq<T>>, separator: seq<T>): seq<T> {
    if parts == [] then [] else if |parts| == 1 then parts[0]
    else parts[0] + separator + Join(parts[1..], separator)
  }

  function Squeeze(runes: seq<Rune>): seq<Rune> {
    Join(Fields(runes), [SPACE])
  }

  /** One line: the only spaces are single blanks between other runes. */
  ghost predicate Tidy(runes: seq<Rune>) {
    && (forall i :: 0 <= i < |runes| && IsSpace(runes[i]) ==> runes[i] == SPACE && 0 < i < |runes| - 1)
    && (forall i :: 0 <= i < |runes| - 1 ==> !(IsSpace(runes[i]) && IsSpace(runes[i + 1])))
  }

  /** The runes that are not spaces, in order. */
  function Ink(runes: seq<Rune>): seq<Rune> {
    if runes == [] then [] else (if IsSpace(runes[0]) then [] else [runes[0]]) + Ink(runes[1..])
  }

  lemma {:induction false} InkOfConcat(left: seq<Rune>, right: seq<Rune>)
    ensures Ink(left + right) == Ink(left) + Ink(right)
    decreases |left|
  {
    if left == [] {
      assert left + right == right;
    } else {
      assert (left + right)[1..] == left[1..] + right;
      InkOfConcat(left[1..], right);
    }
  }

  lemma {:induction false} SqueezeMeaning(runes: seq<Rune>)
    ensures Tidy(Squeeze(runes))
    ensures Ink(Squeeze(runes)) == Ink(runes)
    ensures |Squeeze(runes)| <= |runes|
    ensures runes != [] && IsSpace(runes[0]) ==> |Squeeze(runes)| < |runes|
    ensures Fields(runes) == [] <==> Squeeze(runes) == []
    decreases |runes|
  {
    if runes == [] {
    } else if IsSpace(runes[0]) {
      SqueezeMeaning(runes[1..]);
    } else {
      var n := FieldLength(runes);
      SqueezeMeaning(runes[n..]);
      SqueezeFirstField(runes, n, Squeeze(runes[n..]));
    }
  }

  lemma SqueezeFirstField(runes: seq<Rune>, n: nat, squeezed: seq<Rune>)
    requires runes != [] && !IsSpace(runes[0]) && n == FieldLength(runes) && squeezed == Squeeze(runes[n..])
    requires Tidy(squeezed) && Ink(squeezed) == Ink(runes[n..])
    requires if n < |runes| then |squeezed| < |runes[n..]| else squeezed == []
    requires Fields(runes[n..]) == [] <==> squeezed == []
    ensures Tidy(Squeeze(runes)) && Ink(Squeeze(runes)) == Ink(runes) && |Squeeze(runes)| <= |runes|
    ensures Fields(runes) != [] && Squeeze(runes) != []
  {
    var field, rest := runes[..n], runes[n..];
    InkOfConcat(field, rest);
    assert runes == field + rest;
    assert Fields(runes) == [field] + Fields(rest);
    if squeezed == [] {
      assert Squeeze(runes) == field;
      assert Ink(runes) == Ink(field) + [];
    } else {
      assert Squeeze(runes) == field + [SPACE] + squeezed by {
        assert Fields(runes)[1..] == Fields(rest);
      }
      InkOfConcat(field + [SPACE], squeezed);
      InkOfConcat(field, [SPACE]);
      assert Ink([SPACE]) == [];
      TidyJoin(field, squeezed);
    }
  }

  lemma TidyJoin(field: seq<Rune>, rest: seq<Rune>)
    requires field != [] && rest != [] && Tidy(rest) && forall i :: 0 <= i < |field| ==> !IsSpace(field[i])
    ensures Tidy(field + [SPACE] + rest)
  {
    var all := field + [SPACE] + rest;
    var m := |field| + 1;
    assert forall i :: 0 <= i < |field| ==> all[i] == field[i];
    assert forall i :: m <= i < |all| ==> all[i] == rest[i - m];
    assert !IsSpace(rest[0]);
    forall i | 0 <= i < |all| - 1 ensures !(IsSpace(all[i]) && IsSpace(all[i + 1])) {
      if i >= m {
        assert all[i] == rest[i - m] && all[i + 1] == rest[i - m + 1];
      }
    }
  }

  lemma TailIsTidy(runes: seq<Rune>, n: nat)
    requires Tidy(runes) && n < |runes| && IsSpace(runes[n])
    ensures runes[n] == SPACE && n + 1 < |runes| && Tidy(runes[n + 1..])
  {
    var tail := runes[n + 1..];
    assert forall i :: 0 <= i < |tail| ==> tail[i] == runes[n + 1 + i];
    forall i | 0 <= i < |tail| - 1 ensures !(IsSpace(tail[i]) && IsSpace(tail[i + 1])) {
      assert tail[i] == runes[n + 1 + i] && tail[i + 1] == runes[(n + 1 + i) + 1];
    }
  }

  lemma SqueezeAt(runes: seq<Rune>, n: nat)
    requires runes != [] && !IsSpace(runes[0]) && n == FieldLength(runes) && n < |runes| && Squeeze(runes[n + 1..]) != []
    ensures Squeeze(runes) == runes[..n] + [SPACE] + Squeeze(runes[n + 1..])
  {
    var rest := runes[n..];
    assert rest[1..] == runes[n + 1..];
    SqueezeMeaning(runes[n + 1..]);
    assert Fields(runes)[1..] == Fields(rest) == Fields(runes[n + 1..]);
  }

  /** A tidy line is left alone. */
  lemma {:induction false} SqueezeKeepsTidy(runes: seq<Rune>)
    requires Tidy(runes)
    ensures Squeeze(runes) == runes
    decreases |runes|
  {
    if runes != [] {
      assert !IsSpace(runes[0]);
      var n := FieldLength(runes);
      if n == |runes| {
        assert Fields(runes[n..]) == [] && runes[..n] == runes;
      } else {
        TailIsTidy(runes, n);
        SqueezeKeepsTidy(runes[n + 1..]);
        SqueezeAt(runes, n);
        assert runes == runes[..n] + [SPACE] + runes[n + 1..];
      }
    }
  }

  // ---------------------------------------------------------------------------------------------
  // The two sanitizers. Results are runes; the printed string is their UTF-8 encoding.
  // ---------------------------------------------------------------------------------------------

  function BlankControls(r: Rune): Rune {
    if IsControl(r) then SPACE else r
  }

  function BlankMostControls(r: Rune): Rune {
    if r == 0x0a || r == 0x09 then r else BlankControls(r)
  }

  /** A cell before it is cut to length. */
  function CleanCell(value: seq<Byte>): seq<Rune> {
    Squeeze(Map(Decode(Strip(value)), BlankControls))
  }

  /** `None` is a panic: there is no room even for the ellipsis. */
  function SanitizeCell(value: seq<Byte>, maximumRunes: int): Option<seq<Rune>> {
    var clean := CleanCell(value);
    if |clean| <= maximumRunes then Some(clean)
    else if maximumRunes < 1 then None
    else Some(clean[..maximumRunes - 1] + [ELLIPSIS])
  }

  function SanitizeTerminalText(value: seq<Byte>): seq<Rune> {
    Map(Decode(Strip(value)), BlankMostControls)
  }

  function Comma(): seq<Byte> {
    [0x2c, 0x20]
  }

  function MailReviewRecipients(recipients: seq<seq<Byte>>): Option<seq<Rune>> {
    var value := Join(recipients, Comma());
    SanitizeCell(value, |value| + 1)
  }

  lemma {:induction false} StripShortens(value: seq<Byte>)
    ensures |Strip(value)| <= |value|
    decreases |value|
  {
    if |value| > 1 || (value != [] && value[0] != ESC) {
      if value[0] != ESC {
        StripShortens(value[1..]);
      } else if value[1] == CSI {
        StripShortens(AfterControl(value[2..]));
      } else if value[1] == OSC {
        StripShortens(AfterCommand(value[2..]));
      } else {
        StripShortens(value[2..]);
      }
    }
  }

  lemma {:induction false} InkIsInput(runes: seq<Rune>, r: Rune)
    ensures r in Ink(runes) <==> r in runes && !IsSpace(r)
  {
    if runes != [] {
      InkIsInput(runes[1..], r);
      assert runes == [runes[0]] + runes[1..];
    }
  }

  lemma CleanCellMeaning(value: seq<Byte>)
    ensures var runes, clean := Decode(Strip(value)), CleanCell(value);
            && Tidy(clean) && Ink(clean) == Ink(Map(runes, BlankControls))
            && |clean| <= |value|
            && forall r :: r in clean ==> !IsControl(r)
  {
    StripShortens(value);
    var mapped := Map(Decode(Strip(value)), BlankControls);
    SqueezeMeaning(mapped);
    forall r | r in CleanCell(value) ensures !IsControl(r) {
      if IsSpace(r) {
        assert r == SPACE;
      } else {
        InkIsInput(CleanCell(value), r);
        InkIsInput(mapped, r);
        var i :| 0 <= i < |mapped| && mapped[i] == r;
        assert mapped[i] == BlankControls(Decode(Strip(value))[i]);
      }
    }
  }

  /** With room for at least one rune a cell never panics, fits, holds no control rune, and shows
      every visible rune of the stripped text in order up to where it is cut. */
  lemma SanitizedCellFits(value: seq<Byte>, maximumRunes: int)
    ensures SanitizeCell(value, maximumRunes) == None <==> maximumRunes < 1 && |CleanCell(value)| > maximumRunes
    ensures SanitizeCell(value, maximumRunes).Some? ==>
              var cell := SanitizeCell(value, maximumRunes).value;
              && |cell| <= maximumRunes
              && (forall r :: r in cell ==> !IsControl(r))
              && (if |CleanCell(value)| <= maximumRunes
                  then Tidy(cell) && Ink(cell) == Ink(Map(Decode(Strip(value)), BlankControls))
                  else |cell| == maximumRunes && cell[maximumRunes - 1] == ELLIPSIS && cell[..maximumRunes - 1] == CleanCell(value)[..maximumRunes - 1])
  {
    CleanCellMeaning(value);
  }

  /** Every recipient of a reviewed message is shown: the list is never cut. */
  lemma RecipientsAreNeverCut(recipients: seq<seq<Byte>>)
    ensures MailReviewRecipients(recipients) == Some(CleanCell(Join(recipients, Comma())))
  {
    CleanCellMeaning(Join(recipients, Comma()));
  }

  /** Longer text keeps its lines and tabs; every other control rune becomes a blank. */
  lemma TerminalTextIsSafe(value: seq<Byte>)
    ensures var runes, shown := Decode(Strip(value)), SanitizeTerminalText(value);
            && |shown| == |runes|
            && (forall i :: 0 <= i < |shown| ==> IsControl(shown[i]) ==> shown[i] in {0x0a, 0x09})
            && (forall i :: 0 <= i < |shown| ==> shown[i] == if IsControl(runes[i]) && runes[i] !in {0x0a, 0x09} then SPACE else runes[i])
  {
    var runes, shown := Decode(Strip(value)), SanitizeTerminalText(value);
    assert forall i :: 0 <= i < |runes| ==> shown[i] == BlankMostControls(runes[i]);
  }

  /** The classes of runes and bytes: the controls are C0, delete and C1; white space is what Unicode
      calls so; a control sequence ends with a byte from "@" to "~". */
  lemma CharacterClasses(r: Rune, b: Byte)
    ensures IsControl(r) <==> 0 <= r <= 31 || r == 127 || 128 <= r <= 159
    ensures IsSpace(r) <==>
            || r in {9, 10, 11, 12, 13, 32, 133, 160, 5760, 8232, 8233, 8239, 8287, 12288}
            || r in {8192, 8193, 8194, 8195, 8196, 8197, 8198, 8199, 8200, 8201, 8202}
    ensures Final(b) <==> '@' as int <= b <= '~' as int
  {
  }

  // ---------------------------------------------------------------------------------------------
  // Runes back to bytes.
  // ---------------------------------------------------------------------------------------------

  /** A Unicode scalar value; surrogates are not encoded. */
  predicate Scalar(r: Rune) {
    r < 0xd800 || 0xe000 <= r
  }

  function EncodeRune(r: Rune): (bytes: seq<Byte>)
    ensures bytes != []
  {
    var q := r / 64;
    var p := q / 64;
    if r < 0x80 then [r]
    else if r < 0x800 then [0xc0 + q, 0x80 + r % 64]
    else if r < 0x10000 then [0xe0 + p, 0x80 + q % 64, 0x80 + r % 64]
    else [0xf0 + p / 64, 0x80 + p % 64, 0x80 + q % 64, 0x80 + r % 64]
  }

  function Encode(runes: seq<Rune>): seq<Byte> {
    if runes == [] then [] else EncodeRune(runes[0]) + Encode(runes[1..])
  }

  lemma WidthOfEncoded(r: Rune, rest: seq<Byte>)
    requires Scalar(r)
    ensures Width(EncodeRune(r) + rest) == |EncodeRune(r)|
  {
  }

  /** A rune is read from more than one byte only if those bytes are its encoding. */
  lemma LongRuneIsEncoded(value: seq<Byte>)
    requires value != [] && Width(value) > 1
    ensures Scalar(FirstRune(value)) && EncodeRune(FirstRune(value)) == value[..Width(value)]
  {
    if Width(value) == 2 {
      TwoIsEncoded(value);
    } else if Width(value) == 3 {
      ThreeIsEncoded(value);
    } else {
      FourIsEncoded(value);
    }
  }

  lemma TwoIsEncoded(value: seq<Byte>)
    requires value != [] && Width(value) == 2
    ensures Scalar(FirstRune(value)) && EncodeRune(FirstRune(value)) == value[..2]
  {
    var h, l := Low(value[0], 32), Low(value[1], 64);
    assert value[0] == 0xc0 + h && value[1] == 0x80 + l;
    Digit(h, l);
  }

  lemma ThreeIsEncoded(value: seq<Byte>)
    requires value != [] && Width(value) == 3
    ensures Scalar(FirstRune(value)) && EncodeRune(FirstRune(value)) == value[..3]
  {
    var h, m, l := Low(value[0], 16), Low(value[1], 64), Low(value[2], 64);
    assert value[0] == 0xe0 + h && value[1] == 0x80 + m && value[2] == 0x80 + l;
    Digit(h, m);
    Digit(h * 64 + m, l);
  }

  lemma FourIsEncoded(value: seq<Byte>)
    requires value != [] && Width(value) == 4
    ensures Scalar(FirstRune(value)) && EncodeRune(FirstRune(value)) == value[..4]
  {
    var h, m, n, l := Low(value[0], 8), Low(value[1], 64), Low(value[2], 64), Low(value[3], 64);
    assert value[0] == 0xf0 + h && value[1] == 0x80 + m && value[2] == 0x80 + n && value[3] == 0x80 + l;
    Digit(h, m);
    Digit(h * 64 + m, n);
    Digit((h * 64 + m) * 64 + n, l);
  }

  lemma Digit(high: int, low: int)
    requires 0 <= high && 0 <= low < 64
    ensures (high * 64 + low) / 64 == high && (high * 64 + low) % 64 == low
  {
  }

  lemma FirstOfEncoded(r: Rune, rest: seq<Byte>)
    requires Scalar(r)
    ensures FirstRune(EncodeRune(r) + rest) == r
  {
    WidthOfEncoded(r, rest);
    var value := EncodeRune(r) + rest;
    var q := r / 64;
    var p := q / 64;
    if 0x80 <= r < 0x800 {
      TwoBytes(value, r, q);
    } else if 0x800 <= r < 0x10000 {
      ThreeBytes(value, r, q, p);
    } else if 0x10000 <= r {
      FourBytes(value, r, q, p);
    }
  }

  lemma TwoBytes(value: seq<Byte>, r: Rune, q: int)
    requires q == r / 64 && r < 0x800 && |value| >= 2 && value[0] == 0xc0 + q && value[1] == 0x80 + r % 64 && Width(value) == 2
    ensures FirstRune(value) == r
  {
    assert Low(value[0], 32) == q && Low(value[1], 64) == r % 64;
  }

  lemma ThreeBytes(value: seq<Byte>, r: Rune, q: int, p: int)
    requires q == r / 64 && p == q / 64 && r < 0x10000 && |value| >= 3 && Width(value) == 3
    requires value[0] == 0xe0 + p && value[1] == 0x80 + q % 64 && value[2] == 0x80 + r % 64
    ensures FirstRune(value) == r
  {
    LowBits(p, q, r);
    assert Low(value[0], 16) == p && Low(value[1], 64) == q % 64 && Low(value[2], 64) == r % 64;
  }

  lemma FourBytes(value: seq<Byte>, r: Rune, q: int, p: int)
    requires q == r / 64 && p == q / 64 && |value| >= 4 && Width(value) == 4
    requires value[0] == 0xf0 + p / 64 && value[1] == 0x80 + p % 64 && value[2] == 0x80 + q % 64 && value[3] == 0x80 + r % 64
    ensures FirstRune(value) == r
  {
    LowBits(p, q, r);
    assert Low(value[0], 8) == p / 64;
    assert Low(value[1], 64) == p % 64;
    assert Low(value[2], 64) == q % 64;
    assert Low(value[3], 64) == r % 64;
  }

  lemma LowBits(p: int, q: int, r: int)
    requires 0 <= p && p == q / 64 && q == r / 64
    ensures r == p * 4096 + q % 64 * 64 + r % 64
    ensures r == p / 64 * 262144 + p % 64 * 4096 + q % 64 * 64 + r % 64
  {
  }

  lemma {:induction false} EncodedReadsBack(runes: seq<Rune>)
    requires forall i :: 0 <= i < |runes| ==> Scalar(runes[i])
    ensures Decode(Encode(runes)) == runes
    decreases |runes|
  {
    if runes != [] {
      var rest := Encode(runes[1..]);
      WidthOfEncoded(runes[0], rest);
      FirstOfEncoded(runes[0], rest);
      assert Encode(runes)[|EncodeRune(runes[0])|..] == rest;
      EncodedReadsBack(runes[1..]);
    }
  }

  lemma FirstIsScalar(value: seq<Byte>)
    requires value != []
    ensures Scalar(FirstRune(value))
  {
  }

  lemma {:induction false} DecodedIsScalar(value: seq<Byte>, i: nat)
    requires i < |Decode(value)|
    ensures Scalar(Decode(value)[i])
    decreases |value|
  {
    FirstIsScalar(value);
    if i > 0 {
      DecodedIsScalar(value[Width(value)..], i - 1);
    }
  }

  lemma {:induction false} EncodedHasNoEscape(runes: seq<Rune>)
    requires forall i :: 0 <= i < |runes| ==> !IsControl(runes[i])
    ensures ESC !in Encode(runes)
    decreases |runes|
  {
    if runes != [] {
      assert !IsControl(runes[0]);
      EncodedHasNoEscape(runes[1..]);
    }
  }

  /** Cleaning the printed form of a clean cell changes nothing. */
  lemma CleaningIsStable(value: seq<Byte>)
    ensures CleanCell(Encode(CleanCell(value))) == CleanCell(value)
  {
    var clean := CleanCell(value);
    CleanCellMeaning(value);
    assert forall i :: 0 <= i < |clean| ==> clean[i] in clean;
    EncodedHasNoEscape(clean);
    StripIsIdempotent(Encode(clean));
    forall i | 0 <= i < |clean| ensures Scalar(clean[i]) {
      CleanCellIsScalar(value, clean[i]);
    }
    EncodedReadsBack(clean);
    assert Map(clean, BlankControls) == clean;
    SqueezeKeepsTidy(clean);
  }

  lemma CleanCellIsScalar(value: seq<Byte>, r: Rune)
    requires r in CleanCell(value)
    ensures Scalar(r)
  {
    CleanCellMeaning(value);
    if !IsSpace(r) {
      var runes := Decode(Strip(value));
      var mapped := Map(runes, BlankControls);
      InkIsInput(CleanCell(value), r);
      InkIsInput(mapped, r);
      var i :| 0 <= i < |mapped| && mapped[i] == r;
      DecodedIsScalar(Strip(value), i);
    }
  }
}
