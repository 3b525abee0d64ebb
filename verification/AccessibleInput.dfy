/** Line-bounded standard input for the accessible settings prompts. When the input ends or the
    context is cancelled, a prompt is fed a harmless fallback line, and nothing it then answers
    counts as a choice. */
module AccessibleInput {
  import opened Wrappers

  type Byte = b: int | 0 <= b < 256

  const NEWLINE: Byte := 10
  const MAXIMUM_INPUT := 65536

  datatype Error = EndOfFile | SourceFailed | ContextDone

  /** `input` is what the line reader has not handed over yet, `failure` how it ends, `stopped`
      that the reader goroutine has returned. */
  datatype Reader = Reader(
    input: seq<Byte>,
    failure: Error,
    stopped: bool,
    cancelled: bool,
    fallback: seq<Byte>,
    pending: seq<Byte>,
    pendingErr: Option<Error>,
    exhausted: bool)

  /** One byte more than the maximum is read, so that oversized input ends like short input. */
  function Fresh(source: seq<Byte>, failure: Error): Reader {
    var input := if |source| > MAXIMUM_INPUT then source[..MAXIMUM_INPUT + 1] else source;
    Reader(input, if |source| > MAXIMUM_INPUT then EndOfFile else failure, false, false, [], [], None, false)
  }

  // ---------------------------------------------------------------------------------------------
  // One read.
  // ---------------------------------------------------------------------------------------------

  datatype Result = Result(reader: Reader, data: seq<Byte>, err: Option<Error>)

  /** Where the first line ends, newline included; `None` if no line is complete. */
  function LineEnd(input: seq<Byte>): (end: Option<nat>)
    ensures end.Some? ==> 0 < end.value <= |input| && input[end.value - 1] == NEWLINE && forall i :: 0 <= i < end.value - 1 ==> input[i] != NEWLINE
    ensures end == None <==> NEWLINE !in input
  {
    if input == [] then None
    else if input[0] == NEWLINE then Some(1)
    else
      assert input == [input[0]] + input[1..];
      match LineEnd(input[1..])
      case None => None
      case Some(end) => Some(end + 1)
  }

  function Smaller(a: nat, b: nat): nat {
    if a < b then a else b
  }

  /** Copies as much of the pending bytes as the buffer holds. */
  function Deliver(reader: Reader, capacity: nat): Result {
    var n := Smaller(capacity, |reader.pending|);
    Result(reader.(pending := reader.pending[n..]), reader.pending[..n], None)
  }

  function FinishWithFallback(reader: Reader, capacity: nat, err: Error): Result {
    if reader.fallback == [] then Result(reader.(exhausted := true), [], Some(err))
    else Deliver(reader.(exhausted := true, pending := reader.fallback, pendingErr := Some(err)), capacity)
  }

  /** `cancel`: the context is done by the time this read would wait for a line. */
  function ReadInto(reader: Reader, capacity: nat, cancel: bool): Result {
    if capacity == 0 then Result(reader, [], None)
    else if reader.pending != [] then Deliver(reader, capacity)
    else if reader.pendingErr.Some? then Result(reader.(pendingErr := None, exhausted := true), [], reader.pendingErr)
    else if reader.cancelled || cancel then FinishWithFallback(reader.(cancelled := true), capacity, ContextDone)
    else if reader.stopped then FinishWithFallback(reader, capacity, EndOfFile)
    else
      match LineEnd(reader.input)
      case None => FinishWithFallback(reader.(input := [], stopped := true), capacity, reader.failure)
      case Some(end) => Deliver(reader.(input := reader.input[end..], pending := reader.input[..end]), capacity)
  }

  class SettingsAccessibleReader {
    var input: seq<Byte>
    const failure: Error
    var stopped: bool
    var cancelled: bool
    var fallback: seq<Byte>
    var pending: seq<Byte>
    var pendingErr: Option<Error>
    var exhausted: bool

    function Contents(): Reader
      reads this
    {
      Reader(input, failure, stopped, cancelled, fallback, pending, pendingErr, exhausted)
    }

    constructor (source: seq<Byte>, failure: Error)
      ensures Contents() == Fresh(source, failure)
    {
      input := source;
      this.failure := if |source| > MAXIMUM_INPUT then EndOfFile else failure;
      stopped, cancelled, fallback, pending, pendingErr, exhausted := false, false, [], [], None, false;
      new;
      if |source| > MAXIMUM_INPUT {
        input := source[..MAXIMUM_INPUT + 1];
      }
    }

    /** Copies pending bytes into a buffer of the given size. */
    method CopyPending(capacity: nat) returns (data: seq<Byte>)
      modifies this`pending
      ensures Result(Contents(), data, None) == Deliver(old(Contents()), capacity)
    {
      var n := Smaller(capacity, |pending|);
      data := pending[..n];
      pending := pending[n..];
    }

    method Finish(capacity: nat, err: Error) returns (data: seq<Byte>, result: Option<Error>)
      modifies this
      ensures Result(Contents(), data, result) == FinishWithFallback(old(Contents()), capacity, err)
    {
      exhausted := true;
      if fallback == [] {
        return [], Some(err);
      }
      pending := fallback;
      pendingErr := Some(err);
      data := CopyPending(capacity);
      result := None;
    }

    /** The goroutine's half: one whole line, or the end. */
    method ReadLine() returns (line: seq<Byte>, err: Option<Error>)
      modifies this`input, this`stopped
      ensures match LineEnd(old(input))
              case Some(end) => line == old(input)[..end] && err == None && input == old(input)[end..] && stopped == old(stopped)
              case None => line == old(input) && err == Some(failure) && input == [] && stopped
    {
      var i := 0;
      while i < |input| && input[i] != NEWLINE
        invariant 0 <= i <= |input| && forall j :: 0 <= j < i ==> input[j] != NEWLINE
      {
        i := i + 1;
      }
      if i == |input| {
        line, err, input, stopped := input, Some(failure), [], true;
      } else {
        line, err, input := input[..i + 1], None, input[i + 1..];
      }
    }

    method Read(capacity: nat, cancel: bool) returns (data: seq<Byte>, err: Option<Error>)
      modifies this
      ensures Result(Contents(), data, err) == ReadInto(old(Contents()), capacity, cancel)
    {
      if capacity == 0 {
        return [], None;
      }
      if |pending| > 0 {
        data := CopyPending(capacity);
        return data, None;
      }
      if pendingErr.Some? {
        err := pendingErr;
        pendingErr := None;
        exhausted := true;
        return [], err;
      }
      cancelled := cancelled || cancel;
      if cancelled {
        data, err := Finish(capacity, ContextDone);
        return;
      }
      if stopped {
        data, err := Finish(capacity, EndOfFile);
        return;
      }
      var line, lineErr := ReadLine();
      if lineErr.Some? {
        data, err := Finish(capacity, lineErr.value);
        return;
      }
      pending := line;
      data := CopyPending(capacity);
      return data, None;
    }
  }

  // ---------------------------------------------------------------------------------------------
  // Whole runs of reads.
  // ---------------------------------------------------------------------------------------------

  /** Prompts read, and set the fallback line before and after they run. */
  datatype Use = Read(capacity: nat, cancel: bool) | Prepare(fallback: seq<Byte>)

  function Apply(reader: Reader, use: Use): Result {
    match use
    case Read(capacity, cancel) => ReadInto(reader, capacity, cancel)
    case Prepare(fallback) => Result(reader.(fallback := fallback), [], None)
  }

  function After(reader: Reader, uses: seq<Use>): Reader
    decreases |uses|
  {
    if uses == [] then reader else After(Apply(reader, uses[0]).reader, uses[1..])
  }

  /** Everything the prompts were given. */
  function Given(reader: Reader, uses: seq<Use>): seq<Byte>
    decreases |uses|
  {
    if uses == [] then [] else Apply(reader, uses[0]).data + Given(Apply(reader, uses[0]).reader, uses[1..])
  }

  /** What the prompts were given up to the moment the input was exhausted. */
  function Typed(reader: Reader, uses: seq<Use>): seq<Byte>
    decreases |uses|
  {
    if uses == [] || Apply(reader, uses[0]).reader.exhausted then []
    else Apply(reader, uses[0]).data + Typed(Apply(reader, uses[0]).reader, uses[1..])
  }

  /** The input up to its last newline. */
  function CompleteLines(input: seq<Byte>): seq<Byte> {
    if input == [] then []
    else if input[|input| - 1] == NEWLINE then input
    else CompleteLines(input[..|input| - 1])
  }

  function Outstanding(reader: Reader): seq<Byte> {
    reader.pending + CompleteLines(reader.input)
  }

  predicate OneLine(line: seq<Byte>) {
    forall i :: 0 <= i < |line| - 1 ==> line[i] != NEWLINE
  }

  /** Until the input is exhausted no error is waiting, and never is more than one line. */
  predicate Valid(reader: Reader) {
    (!reader.exhausted ==> reader.pendingErr == None && !reader.stopped && !reader.cancelled) && OneLine(reader.pending) && OneLine(reader.fallback)
  }

  predicate GoodUse(use: Use) {
    use.Prepare? ==> OneLine(use.fallback)
  }

  lemma {:induction false} CompleteLinesSplit(input: seq<Byte>, end: nat)
    requires 0 < end <= |input| && input[end - 1] == NEWLINE
    ensures CompleteLines(input) == input[..end] + CompleteLines(input[end..])
    decreases |input|
  {
    if input[|input| - 1] == NEWLINE {
      if end < |input| {
        assert input[end..][|input| - end - 1] == NEWLINE;
      }
      assert input == input[..end] + input[end..];
    } else {
      var shorter := input[..|input| - 1];
      CompleteLinesSplit(shorter, end);
      assert shorter[..end] == input[..end];
      assert shorter[end..] == input[end..][..|input| - end - 1];
    }
  }

  lemma {:induction false} NoCompleteLines(input: seq<Byte>)
    requires NEWLINE !in input
    ensures CompleteLines(input) == []
  {
    if input != [] {
      assert input[|input| - 1] in input;
      NoCompleteLines(input[..|input| - 1]);
    }
  }

  /** What one read keeps, from `reader` to `result`. */
  predicate Keeps(reader: Reader, result: Result, capacity: nat) {
    && Valid(result.reader) && OneLine(result.data) && |result.data| <= capacity
    && (capacity > 0 ==> (result.data == [] <==> result.err.Some?))
    && (reader.exhausted ==> result.reader.exhausted)
    && (result.err.Some? ==> result.reader.exhausted)
    && (!result.reader.exhausted ==> Outstanding(reader) == result.data + Outstanding(result.reader))
    && (result.reader.exhausted && !reader.exhausted && !result.reader.cancelled ==> Outstanding(reader) == [])
  }

  lemma DeliverKeeps(reader: Reader, capacity: nat)
    requires Valid(reader) && reader.pending != [] && capacity > 0
    ensures Keeps(reader, Deliver(reader, capacity), capacity)
  {
    var n := Smaller(capacity, |reader.pending|);
    assert reader.pending == reader.pending[..n] + reader.pending[n..];
    assert reader.pending[..n] + (reader.pending[n..] + CompleteLines(reader.input)) == Outstanding(reader);
  }

  lemma FinishKeeps(reader: Reader, before: Reader, capacity: nat, err: Error)
    requires Valid(before) && reader.fallback == before.fallback && reader.pending == [] && capacity > 0
    requires before.pending == [] && (before.exhausted || reader.cancelled || CompleteLines(before.input) == [])
    ensures Keeps(before, FinishWithFallback(reader, capacity, err), capacity)
  {
  }

  /** One read: it stays within one line, never returns neither bytes nor an error for a buffer
      with room, and until the input is exhausted it takes its bytes from the front of what is
      outstanding. */
  lemma ReadKeeps(reader: Reader, capacity: nat, cancel: bool)
    requires Valid(reader)
    ensures Keeps(reader, ReadInto(reader, capacity, cancel), capacity)
  {
    if capacity == 0 {
    } else if reader.pending != [] {
      DeliverKeeps(reader, capacity);
    } else if reader.pendingErr.Some? {
    } else if reader.cancelled || cancel {
      FinishKeeps(reader.(cancelled := true), reader, capacity, ContextDone);
    } else if reader.stopped {
      FinishKeeps(reader, reader, capacity, EndOfFile);
    } else {
      match LineEnd(reader.input)
      case None =>
        NoCompleteLines(reader.input);
        FinishKeeps(reader.(input := [], stopped := true), reader, capacity, reader.failure);
      case Some(end) =>
        LineKeeps(reader, end, capacity);
    }
  }

  lemma LineKeeps(reader: Reader, end: nat, capacity: nat)
    requires Valid(reader) && reader.pending == [] && reader.pendingErr == None && capacity > 0
    requires 0 < end <= |reader.input| && reader.input[end - 1] == NEWLINE && forall i :: 0 <= i < end - 1 ==> reader.input[i] != NEWLINE
    ensures Keeps(reader, Deliver(reader.(input := reader.input[end..], pending := reader.input[..end]), capacity), capacity)
  {
    CompleteLinesSplit(reader.input, end);
    var next := reader.(input := reader.input[end..], pending := reader.input[..end]);
    assert Outstanding(next) == Outstanding(reader);
    DeliverKeeps(next, capacity);
  }

  lemma UseKeeps(reader: Reader, use: Use)
    requires Valid(reader) && GoodUse(use)
    ensures var result := Apply(reader, use);
            && Valid(result.reader) && OneLine(result.data)
            && (reader.exhausted ==> result.reader.exhausted)
            && (!result.reader.exhausted ==> Outstanding(reader) == result.data + Outstanding(result.reader))
            && (result.reader.exhausted && !reader.exhausted && !result.reader.cancelled ==> Outstanding(reader) == [])
  {
    if use.Read? {
      ReadKeeps(reader, use.capacity, use.cancel);
    }
  }

  lemma {:induction false} ExhaustionStays(reader: Reader, uses: seq<Use>)
    requires reader.exhausted
    ensures After(reader, uses).exhausted
    decreases |uses|
  {
    if uses != [] {
      ExhaustionStays(Apply(reader, uses[0]).reader, uses[1..]);
    }
  }

  lemma {:induction false} CancellationStays(reader: Reader, uses: seq<Use>)
    requires reader.cancelled
    ensures After(reader, uses).cancelled
    decreases |uses|
  {
    if uses != [] {
      CancellationStays(Apply(reader, uses[0]).reader, uses[1..]);
    }
  }

  /** Over any run of reads with any buffer sizes: what the prompts are given before the input is
      exhausted is an in-order prefix of the complete lines outstanding; as long as it is not
      exhausted nothing is lost; and if it is exhausted without a cancellation, every complete line
      had been given out. */
  lemma {:induction false} TypedIsPrefix(reader: Reader, uses: seq<Use>)
    requires Valid(reader) && !reader.exhausted && forall i :: 0 <= i < |uses| ==> GoodUse(uses[i])
    ensures Typed(reader, uses) <= Outstanding(reader)
    ensures !After(reader, uses).exhausted ==>
              Given(reader, uses) == Typed(reader, uses) && Outstanding(reader) == Typed(reader, uses) + Outstanding(After(reader, uses))
    ensures After(reader, uses).exhausted && !After(reader, uses).cancelled ==> Typed(reader, uses) == Outstanding(reader)
    decreases |uses|
  {
    if uses != [] {
      var result := Apply(reader, uses[0]);
      UseKeeps(reader, uses[0]);
      if result.reader.exhausted {
        ExhaustionStays(result.reader, uses[1..]);
        if result.reader.cancelled {
          CancellationStays(result.reader, uses[1..]);
        }
      } else {
        TypedIsPrefix(result.reader, uses[1..]);
        Glue(result.data, Typed(result.reader, uses[1..]), Outstanding(result.reader));
      }
    }
  }

  lemma Glue(data: seq<Byte>, typed: seq<Byte>, outstanding: seq<Byte>)
    requires typed <= outstanding
    ensures data + typed <= data + outstanding
    ensures forall left :: outstanding == typed + left ==> data + outstanding == data + typed + left
  {
  }

  /** The same from the start: only complete lines of the first 65537 bytes are ever given out. */
  lemma FreshInputIsRespected(source: seq<Byte>, failure: Error, uses: seq<Use>)
    requires forall i :: 0 <= i < |uses| ==> GoodUse(uses[i])
    ensures var reader := Fresh(source, failure);
            && Typed(reader, uses) <= CompleteLines(reader.input)
            && reader.input <= source && |reader.input| <= MAXIMUM_INPUT + 1
            && (After(reader, uses).exhausted && !After(reader, uses).cancelled ==> Typed(reader, uses) == CompleteLines(reader.input))
  {
    var reader := Fresh(source, failure);
    TypedIsPrefix(reader, uses);
    assert [] + CompleteLines(reader.input) == CompleteLines(reader.input);
  }

  // ---------------------------------------------------------------------------------------------
  // Prompts.
  // ---------------------------------------------------------------------------------------------

  /** How the form library comes back: with a value, aborted by the user, or with an error. */
  datatype Form<T> = Completed(value: T) | UserAborted | FormFailed

  datatype Answer<T> = Chosen(value: T) | NotSelected | PromptFailed

  /** Select and multiple select. */
  function SelectAnswer<T>(reader: Reader, form: Form<T>): Answer<T> {
    match form
    case UserAborted => NotSelected
    case FormFailed => PromptFailed
    case Completed(value) =>
      if reader.cancelled then PromptFailed else if reader.exhausted then NotSelected else Chosen(value)
  }

  predicate Blank(b: Byte) {
    9 <= b <= 13 || b == 32
  }

  /** The ASCII blanks: tab, line feed, vertical tab, form feed, carriage return and space. */
  lemma Blanks(b: Byte)
    ensures Blank(b) <==> b in {9, 10, 11, 12, 13, 32}
  {
  }

  /** White space trimmed off both ends. */
  function Trim(text: seq<Byte>): seq<Byte>
    decreases |text|
  {
    if text == [] then []
    else if Blank(text[0]) then Trim(text[1..])
    else if Blank(text[|text| - 1]) then Trim(text[..|text| - 1])
    else text
  }

  /** ":cancel" */
  const CANCEL: seq<Byte> := [58, 99, 97, 110, 99, 101, 108]

  function InputAnswer(reader: Reader, form: Form<seq<Byte>>, accessible: bool): Answer<seq<Byte>> {
    match form
    case UserAborted => NotSelected
    case FormFailed => PromptFailed
    case Completed(value) =>
      if reader.cancelled then PromptFailed
      else if reader.exhausted || (accessible && Trim(value) == CANCEL) then NotSelected
      else Chosen(Trim(value))
  }

  /** A confirmation that is not a choice keeps the account. */
  function ConfirmAnswer(reader: Reader, form: Form<bool>): Answer<bool> {
    match form
    case UserAborted => NotSelected
    case FormFailed => PromptFailed
    case Completed(confirmed) =>
      if reader.cancelled then PromptFailed else if reader.exhausted || !confirmed then NotSelected else Chosen(true)
  }

  predicate IsChoice<T>(answer: Answer<T>) {
    answer.Chosen?
  }

  /** Nothing typed can be had any more when `reader` is read: the context is done, the line reader
      has stopped, or what is left of the input has no complete line. */
  predicate NothingTypedIsLeft(reader: Reader, cancel: bool) {
    reader.pending == [] && (reader.cancelled || cancel || reader.stopped || NEWLINE !in reader.input)
  }

  /** The read that exhausts the input is the one that finds nothing typed; it is told apart by
      that and not by its bytes, which are those of the fallback line, or an error without one. */
  lemma ExhaustingReadGivesFallback(reader: Reader, capacity: nat, cancel: bool)
    requires Valid(reader) && !reader.exhausted && capacity > 0
    ensures var result := ReadInto(reader, capacity, cancel);
            && (result.reader.exhausted <==> NothingTypedIsLeft(reader, cancel))
            && (result.reader.exhausted ==>
                  && result.data == reader.fallback[..Smaller(capacity, |reader.fallback|)]
                  && (result.err.Some? <==> reader.fallback == []))
  {
  }

  /** A prompt that reads in any way and comes back with anything reports a choice only if the
      input was never exhausted, so that all it was given are the complete lines typed next, and
      none of it a fallback line, even one that reads the same. */
  lemma ChoicesAreTyped<T>(reader: Reader, uses: seq<Use>, form: Form<T>, text: Form<seq<Byte>>, confirmed: Form<bool>, accessible: bool)
    requires Valid(reader) && forall i :: 0 <= i < |uses| ==> GoodUse(uses[i])
    requires var last := After(reader, uses);
             IsChoice(SelectAnswer(last, form)) || IsChoice(InputAnswer(last, text, accessible)) || IsChoice(ConfirmAnswer(last, confirmed))
    ensures !reader.exhausted && !After(reader, uses).exhausted
    ensures Given(reader, uses) == Typed(reader, uses) <= Outstanding(reader)
  {
    if reader.exhausted {
      ExhaustionStays(reader, uses);
    } else {
      TypedIsPrefix(reader, uses);
    }
  }

  /** Once a read has exhausted the input, handing out a fallback byte or an error, no prompt
      reports a choice, whatever it reads before it comes back. */
  lemma FallbackIsNeverAChoice<T>(reader: Reader, capacity: nat, cancel: bool, more: seq<Use>, form: Form<T>, text: Form<seq<Byte>>,
                                  confirmed: Form<bool>, accessible: bool)
    requires Valid(reader) && ReadInto(reader, capacity, cancel).reader.exhausted
    ensures var last := After(ReadInto(reader, capacity, cancel).reader, more);
            && !IsChoice(SelectAnswer(last, form)) && !IsChoice(InputAnswer(last, text, accessible))
            && !IsChoice(ConfirmAnswer(last, confirmed))
  {
    ExhaustionStays(ReadInto(reader, capacity, cancel).reader, more);
  }

  // ---------------------------------------------------------------------------------------------
  // What exactly a prompt answers.
  // ---------------------------------------------------------------------------------------------

  /** `core` is what is left of a text without the blanks at both ends. */
  predicate Between(text: seq<Byte>, i: nat, j: nat, core: seq<Byte>) {
    && i <= j <= |text| && core == text[i..j]
    && (forall k :: 0 <= k < i ==> Blank(text[k]))
    && (forall k :: j <= k < |text| ==> Blank(text[k]))
    && (core == [] || (!Blank(core[0]) && !Blank(core[|core| - 1])))
  }

  ghost predicate WithoutBlanks(text: seq<Byte>, core: seq<Byte>) {
    exists i: nat, j: nat :: Between(text, i, j, core)
  }

  lemma {:induction false} TrimIsBetween(text: seq<Byte>) returns (i: nat, j: nat)
    ensures Between(text, i, j, Trim(text))
    decreases |text|
  {
    if text == [] {
      i, j := 0, 0;
    } else if Blank(text[0]) {
      i, j := TrimIsBetween(text[1..]);
      assert forall k :: 0 < k < |text| ==> text[1..][k - 1] == text[k];
      assert text[1..][i..j] == text[i + 1..j + 1];
      i, j := i + 1, j + 1;
    } else if Blank(text[|text| - 1]) {
      i, j := TrimIsBetween(text[..|text| - 1]);
    } else {
      i, j := 0, |text|;
    }
  }

  /** Only one text is left without the blanks at both ends. */
  lemma BetweenIsUnique(text: seq<Byte>, i: nat, j: nat, one: seq<Byte>, k: nat, l: nat, other: seq<Byte>)
    requires Between(text, i, j, one) && Between(text, k, l, other)
    ensures one == other
  {
    if one != [] && other != [] {
      assert one[0] == text[i] && other[0] == text[k];
      assert one[|one| - 1] == text[j - 1] && other[|other| - 1] == text[l - 1];
    }
  }

  lemma TrimMeaning(text: seq<Byte>, core: seq<Byte>)
    ensures Trim(text) == core <==> WithoutBlanks(text, core)
  {
    var i, j := TrimIsBetween(text);
    if WithoutBlanks(text, core) {
      var k: nat, l: nat :| Between(text, k, l, core);
      BetweenIsUnique(text, i, j, Trim(text), k, l, core);
    }
  }

  /** The input is as good as typed: nobody has given up on it. */
  predicate Live(reader: Reader) {
    !reader.cancelled && !reader.exhausted
  }

  /** What every prompt answers after any run of reads. A select answers exactly the value that the
      form completed with, a confirmation only a `true`, an input the text without the blanks at both
      ends unless that is the cancel word typed into an accessible prompt; each of them only on an
      input that is neither cancelled nor exhausted. A prompt fails exactly when its form failed, or
      completed on a cancelled input. */
  lemma AnswersMeaning<T>(reader: Reader, uses: seq<Use>, form: Form<T>, value: T, text: Form<seq<Byte>>, typed: seq<Byte>, confirmed: Form<bool>, accessible: bool)
    ensures var last := After(reader, uses);
            && (SelectAnswer(last, form) == Chosen(value) <==> form == Completed(value) && Live(last))
            && (SelectAnswer(last, form) == PromptFailed <==> form.FormFailed? || (form.Completed? && last.cancelled))
            && (ConfirmAnswer(last, confirmed) == Chosen(true) <==> confirmed == Completed(true) && Live(last))
            && ConfirmAnswer(last, confirmed) != Chosen(false)
            && (ConfirmAnswer(last, confirmed) == PromptFailed <==> confirmed.FormFailed? || (confirmed.Completed? && last.cancelled))
            && (InputAnswer(last, text, accessible) == Chosen(typed) <==>
                  text.Completed? && WithoutBlanks(text.value, typed) && Live(last) && !(accessible && typed == CANCEL))
            && (InputAnswer(last, text, accessible) == PromptFailed <==> text.FormFailed? || (text.Completed? && last.cancelled))
  {
    if text.Completed? {
      TrimMeaning(text.value, typed);
    }
  }

  lemma {:induction false} AfterOneMore(reader: Reader, uses: seq<Use>, i: nat)
    requires i < |uses|
    ensures After(reader, uses[..i + 1]) == Apply(After(reader, uses[..i]), uses[i]).reader
    decreases i
  {
    if i == 0 {
      assert uses[..1][1..] == [];
    } else {
      var rest := uses[1..];
      assert uses[..i + 1][1..] == rest[..i] && uses[..i][1..] == rest[..i - 1] && rest[i - 1] == uses[i];
      AfterOneMore(Apply(reader, uses[0]).reader, rest, i - 1);
    }
  }

  /** Use `i` is a read for at least a byte that finds nothing typed. */
  predicate FindsNothing(reader: Reader, uses: seq<Use>, i: nat)
    requires i < |uses|
  {
    uses[i].Read? && uses[i].capacity > 0 && NothingTypedIsLeft(After(reader, uses[..i]), uses[i].cancel)
  }

  /** The input is exhausted exactly when some read of the run found nothing typed: neither a buffer
      without room, nor setting a fallback, nor reading typed bytes exhausts it. */
  lemma {:induction false} ExhaustedExactly(reader: Reader, uses: seq<Use>, n: nat)
    requires Valid(reader) && !reader.exhausted && n <= |uses| && forall i :: 0 <= i < |uses| ==> GoodUse(uses[i])
    ensures Valid(After(reader, uses[..n]))
    ensures After(reader, uses[..n]).exhausted <==> exists i :: 0 <= i < n && FindsNothing(reader, uses, i)
    decreases n
  {
    if n > 0 {
      ExhaustedExactly(reader, uses, n - 1);
      AfterOneMore(reader, uses, n - 1);
      var before, use := After(reader, uses[..n - 1]), uses[n - 1];
      UseKeeps(before, use);
      if !before.exhausted && use.Read? && use.capacity > 0 {
        ExhaustingReadGivesFallback(before, use.capacity, use.cancel);
      }
      assert !before.exhausted ==> (Apply(before, use).reader.exhausted <==> FindsNothing(reader, uses, n - 1));
    }
  }

  /** Reading leaves the fallback alone. */
  lemma ReadingKeepsFallback(reader: Reader, capacity: nat, cancel: bool)
    ensures ReadInto(reader, capacity, cancel).reader.fallback == reader.fallback
  {
  }

  /** The fallback in force is the one prepared last, whatever has been read since. */
  lemma {:induction false} FallbackIsLastPrepared(reader: Reader, uses: seq<Use>, m: nat, n: nat)
    requires m < n <= |uses| && uses[m].Prepare? && forall i :: m < i < n ==> uses[i].Read?
    ensures After(reader, uses[..n]).fallback == uses[m].fallback
    decreases n
  {
    AfterOneMore(reader, uses, n - 1);
    if m < n - 1 {
      FallbackIsLastPrepared(reader, uses, m, n - 1);
      ReadingKeepsFallback(After(reader, uses[..n - 1]), uses[n - 1].capacity, uses[n - 1].cancel);
    }
  }
}
