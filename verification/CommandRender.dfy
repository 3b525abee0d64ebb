/** Commands shown to a reader, quoted for a POSIX shell or for PowerShell, and the two shells'
    readings of them. */
module CommandRender {
  import opened Wrappers

  predicate Safe(c: char) {
    || 'a' <= c <= 'z' || 'A' <= c <= 'Z' || '0' <= c <= '9'
    || c == '_' || c == '.' || c == '/' || c == ':' || c == '@' || c == '%' || c == '+' || c == '=' || c == ',' || c == '-'
  }

  /** Letters, digits and ten marks are shown without quotes, by their ASCII codes. */
  lemma SafeCharacters(c: char)
    ensures Safe(c) <==>
            || 48 <= c as int < 58 || 65 <= c as int < 91 || 97 <= c as int < 123
            || c as int in {37, 43, 44, 45, 46, 47, 58, 61, 64, 95}
  {
  }

  predicate AllSafe(value: string) {
    forall i :: 0 <= i < |value| ==> Safe(value[i])
  }

  /** Every occurrence of one character replaced by a string. */
  function ReplaceAll(value: string, c: char, replacement: string): string {
    if value == "" then ""
    else (if value[0] == c then replacement else [value[0]]) + ReplaceAll(value[1..], c, replacement)
  }

  function Quote(windows: bool, value: string): string {
    if windows then "'" + ReplaceAll(value, '\'', "''") + "'"
    else if value != "" && AllSafe(value) then value
    else "'" + ReplaceAll(value, '\'', "'\"'\"'") + "'"
  }

  function Join(parts: seq<string>, separator: string): string {
    if parts == [] then "" else if |parts| == 1 then parts[0]
    else parts[0] + separator + Join(parts[1..], separator)
  }

  function QuoteEach(windows: bool, values: seq<string>): seq<string> {
    seq(|values|, i requires 0 <= i < |values| => Quote(windows, values[i]))
  }

  function Render(windows: bool, name: string, arguments: seq<string>): string {
    Join((if windows then ["&"] else []) + QuoteEach(windows, [name] + arguments), " ")
  }

  // ---------------------------------------------------------------------------------------------
  // The POSIX shell: token recognition and quoting (IEEE Std 1003.1-2017, Shell Command Language,
  // sections 2.2 and 2.3). `None` is any text whose reading needs more than that: operators,
  // expansions, patterns, comments, a second line, or an unfinished quotation.
  // ---------------------------------------------------------------------------------------------

  datatype Quoting = Plain | Single | Double

  predicate Special(c: char) {
    || c == '|' || c == '&' || c == ';' || c == '<' || c == '>' || c == '(' || c == ')' || c == '$'
    || c == '`' || c == '*' || c == '?' || c == '[' || c == '#' || c == '~' || c == '\n'
  }

  /** In double quotes a backslash escapes only these. */
  predicate Escapable(c: char) {
    c == '$' || c == '`' || c == '"' || c == '\\'
  }

  function Extend(word: Option<string>, c: char): Option<string> {
    Some((if word.Some? then word.value else "") + [c])
  }

  function Begun(word: Option<string>): Option<string> {
    if word.Some? then word else Some("")
  }

  function Prepend(word: Option<string>, words: Option<seq<string>>): Option<seq<string>> {
    if word.Some? && words.Some? then Some([word.value] + words.value) else words
  }

  /** The words of `text`, with `word` being the part already read of the current one. */
  function Shell(text: string, quoting: Quoting, word: Option<string>): Option<seq<string>>
    decreases |text|
  {
    if text == "" then
      if quoting == Plain then Prepend(word, Some([])) else None
    else
      var c, rest := text[0], text[1..];
      match quoting
      case Single => if c == '\'' then Shell(rest, Plain, word) else Shell(rest, Single, Extend(word, c))
      case Double =>
        if c == '"' then Shell(rest, Plain, word)
        else if c == '$' || c == '`' then None
        else if c == '\\' && rest != "" && Escapable(rest[0]) then Shell(rest[1..], Double, Extend(word, rest[0]))
        else if c == '\\' && rest != "" && rest[0] == '\n' then Shell(rest[1..], Double, word)
        else Shell(rest, Double, Extend(word, c))
      case Plain =>
        if c == ' ' || c == '\t' then Prepend(word, Shell(rest, Plain, None))
        else if c == '\'' then Shell(rest, Single, Begun(word))
        else if c == '"' then Shell(rest, Double, Begun(word))
        else if c == '\\' then
          if rest == "" then None
          else if rest[0] == '\n' then Shell(rest[1..], Plain, word)
          else Shell(rest[1..], Plain, Extend(word, rest[0]))
        else if Special(c) then None
        else Shell(rest, Plain, Extend(word, c))
  }

  function ShellWords(text: string): Option<seq<string>> {
    Shell(text, Plain, None)
  }

  const EMBEDDED := "'\"'\"'"

  lemma EmbeddedQuote(rest: string, word: string)
    ensures Shell(EMBEDDED + rest, Single, Some(word)) == Shell(rest, Single, Some(word + "'"))
  {
    var text := EMBEDDED + rest;
    assert text[1..] == "\"'\"'" + rest;
    assert text[1..][1..] == "'\"'" + rest;
    assert text[1..][1..][1..] == "\"'" + rest;
    assert text[1..][1..][1..][1..] == "'" + rest;
    assert text[1..][1..][1..][1..][1..] == rest;
    assert Shell(text, Single, Some(word)) == Shell(text[1..], Plain, Some(word));
    assert Shell(text[1..], Plain, Some(word)) == Shell(text[1..][1..], Double, Some(word));
    assert Shell(text[1..][1..], Double, Some(word)) == Shell(text[1..][1..][1..], Double, Some(word + "'"));
    assert Shell(text[1..][1..][1..], Double, Some(word + "'")) == Shell(text[1..][1..][1..][1..], Plain, Some(word + "'"));
  }

  lemma {:induction false} SingleQuotedReadsBack(value: string, rest: string, word: string)
    ensures Shell(ReplaceAll(value, '\'', EMBEDDED) + "'" + rest, Single, Some(word)) == Shell(rest, Plain, Some(word + value))
    decreases |value|
  {
    var closing := "'" + rest;
    if value == "" {
      assert ReplaceAll(value, '\'', EMBEDDED) + "'" + rest == closing;
      assert closing[1..] == rest;
      assert word + value == word;
    } else {
      var tail := ReplaceAll(value[1..], '\'', EMBEDDED) + "'" + rest;
      SingleQuotedReadsBack(value[1..], rest, word + [value[0]]);
      assert word + [value[0]] + value[1..] == word + value;
      if value[0] == '\'' {
        assert ReplaceAll(value, '\'', EMBEDDED) + "'" + rest == EMBEDDED + tail;
        EmbeddedQuote(tail, word);
      } else {
        var text := ReplaceAll(value, '\'', EMBEDDED) + "'" + rest;
        assert text == [value[0]] + tail;
        assert text[1..] == tail;
      }
    }
  }

  lemma SafeStep(text: string, word: Option<string>)
    requires text != "" && Safe(text[0])
    ensures Shell(text, Plain, word) == Shell(text[1..], Plain, Extend(word, text[0]))
  {
  }

  lemma {:induction false} SafeReadsBack(value: string, rest: string, word: string)
    requires AllSafe(value)
    ensures Shell(value + rest, Plain, Some(word)) == Shell(rest, Plain, Some(word + value))
    decreases |value|
  {
    if value == "" {
      assert value + rest == rest;
      assert word + value == word;
    } else {
      SafeReadsBack(value[1..], rest, word + [value[0]]);
      SafeStep(value + rest, Some(word));
      assert (value + rest)[1..] == value[1..] + rest;
      assert word + [value[0]] + value[1..] == word + value;
    }
  }

  lemma QuoteReadsBack(value: string, rest: string)
    ensures Shell(Quote(false, value) + rest, Plain, None) == Shell(rest, Plain, Some(value))
  {
    var text := Quote(false, value) + rest;
    if value != "" && AllSafe(value) {
      SafeReadsBack(value[1..], rest, "" + [value[0]]);
      assert text[1..] == value[1..] + rest;
      assert "" + [value[0]] + value[1..] == value;
      SafeStep(text, None);
    } else {
      SingleQuotedReadsBack(value, rest, "");
      assert text[1..] == ReplaceAll(value, '\'', EMBEDDED) + "'" + rest;
      assert "" + value == value;
    }
  }

  lemma {:induction false} JoinReadsBack(values: seq<string>)
    requires values != []
    ensures ShellWords(Join(QuoteEach(false, values), " ")) == Some(values)
    decreases |values|
  {
    var text := Join(QuoteEach(false, values), " ");
    if |values| == 1 {
      QuoteReadsBack(values[0], "");
      assert Quote(false, values[0]) + "" == text;
      assert values == [values[0]] == [values[0]] + [];
    } else {
      JoinReadsBack(values[1..]);
      assert QuoteEach(false, values)[1..] == QuoteEach(false, values[1..]);
      var rest := Join(QuoteEach(false, values[1..]), " ");
      QuoteReadsBack(values[0], " " + rest);
      assert text == Quote(false, values[0]) + (" " + rest);
      assert (" " + rest)[1..] == rest;
      assert Shell(" " + rest, Plain, Some(values[0])) == Prepend(Some(values[0]), Shell(rest, Plain, None));
      assert values == [values[0]] + values[1..];
    }
  }

  /** A POSIX shell reads the shown command as exactly the name and arguments it was made from,
      whatever characters they hold, including empty strings, spaces, quotes and newlines. */
  lemma ShellRoundTrip(name: string, arguments: seq<string>)
    ensures ShellWords(Render(false, name, arguments)) == Some([name] + arguments)
  {
    JoinReadsBack([name] + arguments);
    assert [] + QuoteEach(false, [name] + arguments) == QuoteEach(false, [name] + arguments);
  }

  // ---------------------------------------------------------------------------------------------
  // PowerShell: verbatim string literals (Windows PowerShell Language Specification 3.0, section
  // 2.3.5.2). Five characters delimit them, and two in a row inside stand for one.
  // ---------------------------------------------------------------------------------------------

  /** `ascii` is a stricter reading in which only the ASCII quote delimits. */
  predicate SingleQuote(ascii: bool, c: char) {
    c == '\'' || (!ascii && Curly(c))
  }

  predicate Curly(c: char) {
    c == '\U{2018}' || c == '\U{2019}' || c == '\U{201A}' || c == '\U{201B}'
  }

  /** One or more literals separated by single spaces; `None` is anything else. */
  function Literals(ascii: bool, text: string): Option<seq<string>>
    decreases |text|, 0
  {
    if text != "" && SingleQuote(ascii, text[0]) then Literal(ascii, text[1..], "") else None
  }

  /** Inside a literal of which `word` has been read. */
  function Literal(ascii: bool, text: string, word: string): Option<seq<string>>
    decreases |text|, 1
  {
    if text == "" then None
    else if !SingleQuote(ascii, text[0]) then Literal(ascii, text[1..], word + [text[0]])
    else if |text| > 1 && SingleQuote(ascii, text[1]) then Literal(ascii, text[2..], word + [text[1]])
    else if |text| == 1 then Some([word])
    else if text[1] == ' ' then Prepend(Some(word), Literals(ascii, text[2..]))
    else None
  }

  /** A command line that calls its first literal with the others as arguments. */
  function CalledWords(ascii: bool, text: string): Option<seq<string>> {
    if |text| >= 2 && text[0] == '&' && text[1] == ' ' then Literals(ascii, text[2..]) else None
  }

  function PowerShellWords(text: string): Option<seq<string>> {
    CalledWords(false, text)
  }

  predicate NoCurly(value: string) {
    forall i :: 0 <= i < |value| ==> !Curly(value[i])
  }

  /** One character of the value, doubled if it is the ASCII quote, is read as itself. */
  lemma LiteralStep(ascii: bool, c: char, tail: string, word: string)
    requires ascii || !Curly(c)
    ensures Literal(ascii, (if c == '\'' then "''" else [c]) + tail, word) == Literal(ascii, tail, word + [c])
  {
    if c == '\'' {
      assert ("''" + tail)[2..] == tail;
    } else {
      assert ([c] + tail)[1..] == tail;
    }
  }

  lemma {:induction false} LiteralReadsBack(ascii: bool, value: string, rest: string, word: string)
    requires (ascii || NoCurly(value)) && (rest == "" || !SingleQuote(ascii, rest[0]))
    ensures Literal(ascii, ReplaceAll(value, '\'', "''") + "'" + rest, word) == Literal(ascii, "'" + rest, word + value)
    decreases |value|
  {
    if value == "" {
      assert ReplaceAll(value, '\'', "''") + "'" + rest == "'" + rest;
      assert word + value == word;
    } else {
      var tail := ReplaceAll(value[1..], '\'', "''") + "'" + rest;
      assert forall i :: 0 <= i < |value[1..]| ==> value[1..][i] == value[i + 1];
      LiteralReadsBack(ascii, value[1..], rest, word + [value[0]]);
      assert word + [value[0]] + value[1..] == word + value;
      LiteralStep(ascii, value[0], tail, word);
      assert ReplaceAll(value, '\'', "''") + "'" + rest == (if value[0] == '\'' then "''" else [value[0]]) + tail;
    }
  }

  lemma {:induction false} LiteralsReadBack(ascii: bool, values: seq<string>)
    requires values != [] && (ascii || forall i :: 0 <= i < |values| ==> NoCurly(values[i]))
    ensures Literals(ascii, Join(QuoteEach(true, values), " ")) == Some(values)
    decreases |values|
  {
    var text := Join(QuoteEach(true, values), " ");
    var body := ReplaceAll(values[0], '\'', "''");
    if |values| == 1 {
      LiteralReadsBack(ascii, values[0], "", "");
      assert text[1..] == body + "'" + "";
      assert "'" + "" == "'";
      assert "" + values[0] == values[0];
      assert values == [values[0]];
    } else {
      LiteralsReadBack(ascii, values[1..]);
      assert QuoteEach(true, values)[1..] == QuoteEach(true, values[1..]);
      var rest := Join(QuoteEach(true, values[1..]), " ");
      LiteralReadsBack(ascii, values[0], " " + rest, "");
      assert text[1..] == body + "'" + (" " + rest);
      assert ("'" + (" " + rest))[2..] == rest;
      assert Literal(ascii, "'" + (" " + rest), values[0]) == Prepend(Some(values[0]), Literals(ascii, rest));
      assert values == [values[0]] + values[1..];
      assert "" + values[0] == values[0];
    }
  }

  // How many quote characters of each sort there are.

  function Quotes(value: string): nat {
    if value == "" then 0 else (if SingleQuote(false, value[0]) then 1 else 0) + Quotes(value[1..])
  }

  function Curlies(value: string): nat {
    if value == "" then 0 else (if Curly(value[0]) then 1 else 0) + Curlies(value[1..])
  }

  function QuotesIn(values: seq<string>): nat {
    if values == [] then 0 else Quotes(values[0]) + QuotesIn(values[1..])
  }

  function CurliesIn(values: seq<string>): nat {
    if values == [] then 0 else Curlies(values[0]) + CurliesIn(values[1..])
  }

  lemma {:induction false} QuotesOfConcat(left: string, right: string)
    ensures Quotes(left + right) == Quotes(left) + Quotes(right)
    decreases |left|
  {
    if left == "" {
      assert left + right == right;
    } else {
      assert (left + right)[1..] == left[1..] + right;
      QuotesOfConcat(left[1..], right);
    }
  }

  /** Reading back spends two quote characters on each literal and two on each quote inside. */
  lemma {:induction false} LiteralCountsQuotes(text: string, word: string, words: seq<string>)
    requires Literal(false, text, word) == Some(words)
    ensures words != [] && Quotes(text) + 1 + 2 * Quotes(word) == 2 * |words| + 2 * QuotesIn(words)
    decreases |text|, 1
  {
    if !SingleQuote(false, text[0]) {
      QuotesOfConcat(word, [text[0]]);
      LiteralCountsQuotes(text[1..], word + [text[0]], words);
    } else if |text| > 1 && SingleQuote(false, text[1]) {
      QuotesOfConcat(word, [text[1]]);
      assert text[1..][1..] == text[2..];
      LiteralCountsQuotes(text[2..], word + [text[1]], words);
    } else if |text| == 1 {
      assert words == [word];
    } else {
      assert text[1..][1..] == text[2..];
      LiteralsCountQuotes(text[2..], words[1..]);
    }
  }

  lemma {:induction false} LiteralsCountQuotes(text: string, words: seq<string>)
    requires Literals(false, text) == Some(words)
    ensures words != [] && Quotes(text) == 2 * |words| + 2 * QuotesIn(words)
    decreases |text|, 0
  {
    LiteralCountsQuotes(text[1..], "", words);
  }

  lemma {:induction false} DoublingCountsQuotes(value: string)
    ensures Quotes(ReplaceAll(value, '\'', "''")) + Curlies(value) == 2 * Quotes(value)
  {
    if value != "" {
      DoublingCountsQuotes(value[1..]);
      var head := if value[0] == '\'' then "''" else [value[0]];
      QuotesOfConcat(head, ReplaceAll(value[1..], '\'', "''"));
      assert "''"[1..] == "'";
    }
  }

  lemma QuoteCounts(value: string)
    ensures Quotes(Quote(true, value)) + Curlies(value) == 2 + 2 * Quotes(value)
  {
    DoublingCountsQuotes(value);
    QuotesOfConcat("'" + ReplaceAll(value, '\'', "''"), "'");
    QuotesOfConcat("'", ReplaceAll(value, '\'', "''"));
  }

  lemma {:induction false} JoinCountsQuotes(values: seq<string>)
    ensures Quotes(Join(QuoteEach(true, values), " ")) + CurliesIn(values) == 2 * |values| + 2 * QuotesIn(values)
    decreases |values|
  {
    if values != [] {
      QuoteCounts(values[0]);
      JoinCountsQuotes(values[1..]);
      assert QuoteEach(true, values)[1..] == QuoteEach(true, values[1..]);
      if |values| > 1 {
        var rest := Join(QuoteEach(true, values[1..]), " ");
        QuotesOfConcat(Quote(true, values[0]) + " ", rest);
        QuotesOfConcat(Quote(true, values[0]), " ");
      }
    }
  }

  lemma {:induction false} NoneCurly(values: seq<string>, i: nat)
    requires CurliesIn(values) == 0 && i < |values|
    ensures NoCurly(values[i])
    decreases i
  {
    if i > 0 {
      NoneCurly(values[1..], i - 1);
    } else {
      CurliesAbsent(values[0]);
    }
  }

  lemma {:induction false} CurliesAbsent(value: string)
    requires Curlies(value) == 0
    ensures NoCurly(value)
  {
    if value != "" {
      CurliesAbsent(value[1..]);
      assert forall i :: 0 < i < |value| ==> value[i] == value[1..][i - 1];
    }
  }

  lemma RenderIsCall(name: string, arguments: seq<string>)
    ensures var text, shown := Join(QuoteEach(true, [name] + arguments), " "), Render(true, name, arguments);
            |shown| >= 2 && shown[0] == '&' && shown[1] == ' ' && shown[2..] == text
  {
    var values := [name] + arguments;
    assert (["&"] + QuoteEach(true, values))[1..] == QuoteEach(true, values);
  }

  /** PowerShell reads the shown command back exactly when no word holds one of the four
      typographic quotes, which are left as they are although PowerShell takes them for quotes. */
  lemma PowerShellRoundTrip(name: string, arguments: seq<string>)
    ensures PowerShellWords(Render(true, name, arguments)) == Some([name] + arguments)
       <==> forall i :: 0 <= i < |[name] + arguments| ==> NoCurly(([name] + arguments)[i])
  {
    var values := [name] + arguments;
    var text := Join(QuoteEach(true, values), " ");
    RenderIsCall(name, arguments);
    if forall i :: 0 <= i < |values| ==> NoCurly(values[i]) {
      LiteralsReadBack(false, values);
    }
    if Literals(false, text) == Some(values) {
      LiteralsCountQuotes(text, values);
      JoinCountsQuotes(values);
      forall i | 0 <= i < |values| ensures NoCurly(values[i]) {
        NoneCurly(values, i);
      }
    }
  }

  /** Different commands are never shown alike, for either shell. */
  lemma ShownCommandsDiffer(windows: bool, name: string, arguments: seq<string>, other: string, others: seq<string>)
    requires Render(windows, name, arguments) == Render(windows, other, others)
    ensures name == other && arguments == others
  {
    if windows {
      RenderIsCall(name, arguments);
      RenderIsCall(other, others);
      LiteralsReadBack(true, [name] + arguments);
      LiteralsReadBack(true, [other] + others);
    } else {
      ShellRoundTrip(name, arguments);
      ShellRoundTrip(other, others);
    }
    assert name == ([name] + arguments)[0] && arguments == ([name] + arguments)[1..];
    assert other == ([other] + others)[0] && others == ([other] + others)[1..];
  }

  /** A name with one typographic quote is not read back. */
  lemma CurlyQuoteIsLost()
    ensures PowerShellWords(Render(true, "\U{2019}", [])) != Some(["\U{2019}"])
  {
    PowerShellRoundTrip("\U{2019}", []);
    assert !NoCurly((["\U{2019}"] + [])[0]) by {
      assert Curly("\U{2019}"[0]);
    }
    assert ["\U{2019}"] + [] == ["\U{2019}"];
  }

  // ---------------------------------------------------------------------------------------------
  // The rendering loop.
  // ---------------------------------------------------------------------------------------------

  method FormatCommand(windows: bool, name: string, arguments: seq<string>) returns (text: string)
    ensures text == Render(windows, name, arguments)
    ensures !windows ==> ShellWords(text) == Some([name] + arguments)
  {
    var parts: seq<string> := [];
    if windows {
      parts := parts + ["&"];
    }
    ghost var prefix := parts;
    parts := parts + [Quote(windows, name)];
    for i := 0 to |arguments|
      invariant parts == prefix + QuoteEach(windows, [name] + arguments[..i])
    {
      assert [name] + arguments[..i + 1] == [name] + arguments[..i] + [arguments[i]];
      parts := parts + [Quote(windows, arguments[i])];
    }
    assert arguments[..|arguments|] == arguments;
    text := Join(parts, " ");
    ShellRoundTrip(name, arguments);
  }
}
