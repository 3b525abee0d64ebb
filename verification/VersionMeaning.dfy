/** Which texts are versions, and which of two comes first, without the functions that decide it
    (Semantic Versioning 2.0.0, sections 2, 9, 10 and 11). */
module VersionMeaning {
  import opened Wrappers
  import opened OwnerVersions

  // ---------------------------------------------------------------------------------------------
  // Precedence.
  // ---------------------------------------------------------------------------------------------

  /** The number in front at the first difference is the smaller one. */
  ghost predicate CoreBelow(x: seq<nat>, y: seq<nat>) {
    exists i :: 0 <= i < |x| && i < |y| && x[..i] == y[..i] && x[i] < y[i]
  }

  /** A proper prefix, or a smaller character at the first difference. */
  ghost predicate TextBelow(x: string, y: string) {
    x < y || exists i :: 0 <= i < |x| && i < |y| && x[..i] == y[..i] && x[i] < y[i]
  }

  /** Numbers by value, text by its characters, and any number before any text. */
  ghost predicate IdentifierBelow(x: Identifier, y: Identifier) {
    match (x, y)
    case (Numeric(m), Numeric(n)) => m < n
    case (Numeric(_), Alphanumeric(_)) => true
    case (Alphanumeric(_), Numeric(_)) => false
    case (Alphanumeric(a), Alphanumeric(b)) => TextBelow(a, b)
  }

  /** A proper prefix, or the lower identifier at the first difference. */
  ghost predicate IdentifiersBelow(x: seq<Identifier>, y: seq<Identifier>) {
    x < y || exists i :: 0 <= i < |x| && i < |y| && x[..i] == y[..i] && IdentifierBelow(x[i], y[i])
  }

  /** The release comes after all its prereleases. */
  ghost predicate Precedes(x: Version, y: Version) {
    || CoreBelow(x.core, y.core)
    || (x.core == y.core && x.prerelease != [] && (y.prerelease == [] || IdentifiersBelow(x.prerelease, y.prerelease)))
  }

  lemma {:induction false} CoreMeaning(x: seq<nat>, y: seq<nat>)
    requires |x| == |y|
    ensures CompareCore(x, y) < 0 <==> CoreBelow(x, y)
    decreases |x|
  {
    if x != [] && x[0] == y[0] {
      CoreMeaning(x[1..], y[1..]);
      if i :| 0 <= i < |x[1..]| && i < |y[1..]| && x[1..][..i] == y[1..][..i] && x[1..][i] < y[1..][i] {
        assert x[..i + 1] == [x[0]] + x[1..][..i] && y[..i + 1] == [y[0]] + y[1..][..i];
      }
      if i :| 0 <= i < |x| && i < |y| && x[..i] == y[..i] && x[i] < y[i] {
        assert x[1..][..i - 1] == x[..i][1..] && y[1..][..i - 1] == y[..i][1..];
      }
    } else if x != [] {
      assert x[..0] == y[..0];
      assert forall i :: 0 < i <= |x| && i <= |y| ==> x[..i][0] == x[0] && y[..i][0] == y[0];
    }
  }

  lemma {:induction false} TextMeaning(x: string, y: string)
    ensures CompareText(x, y) < 0 <==> TextBelow(x, y)
    decreases |x|
  {
    if x != "" && y != "" && x[0] == y[0] {
      TextMeaning(x[1..], y[1..]);
      assert x < y <==> x[1..] < y[1..];
      if i :| 0 <= i < |x[1..]| && i < |y[1..]| && x[1..][..i] == y[1..][..i] && x[1..][i] < y[1..][i] {
        assert x[..i + 1] == [x[0]] + x[1..][..i] && y[..i + 1] == [y[0]] + y[1..][..i];
      }
      if i :| 0 <= i < |x| && i < |y| && x[..i] == y[..i] && x[i] < y[i] {
        assert x[1..][..i - 1] == x[..i][1..] && y[1..][..i - 1] == y[..i][1..];
      }
    } else if x != "" && y != "" {
      assert x[..0] == y[..0];
      assert forall i :: 0 < i <= |x| && i <= |y| ==> x[..i][0] == x[0] && y[..i][0] == y[0];
    }
  }

  lemma IdentifierMeaning(x: Identifier, y: Identifier)
    ensures CompareIdentifier(x, y) < 0 <==> IdentifierBelow(x, y)
  {
    if x.Alphanumeric? && y.Alphanumeric? {
      TextMeaning(x.text, y.text);
    }
  }

  lemma {:induction false} IdentifiersMeaning(x: seq<Identifier>, y: seq<Identifier>)
    ensures CompareIdentifiers(x, y) < 0 <==> IdentifiersBelow(x, y)
    decreases |x|
  {
    if x != [] && y != [] && x[0] == y[0] {
      IdentifiersMeaning(x[1..], y[1..]);
      assert x < y <==> x[1..] < y[1..];
      if i :| 0 <= i < |x[1..]| && i < |y[1..]| && x[1..][..i] == y[1..][..i] && IdentifierBelow(x[1..][i], y[1..][i]) {
        assert x[..i + 1] == [x[0]] + x[1..][..i] && y[..i + 1] == [y[0]] + y[1..][..i];
      }
      IdentifierMeaning(x[0], x[0]);
      if i :| 0 <= i < |x| && i < |y| && x[..i] == y[..i] && IdentifierBelow(x[i], y[i]) {
        assert x[1..][..i - 1] == x[..i][1..] && y[1..][..i - 1] == y[..i][1..];
      }
    } else if x != [] && y != [] {
      IdentifierMeaning(x[0], y[0]);
      assert x[..0] == y[..0];
      assert forall i :: 0 < i <= |x| && i <= |y| ==> x[..i][0] == x[0] && y[..i][0] == y[0];
    }
  }

  /** Precedence is decided by the numbers of the core at their first difference, then by the
      prerelease: a version with one comes before the version without, and two are decided by their
      identifiers at the first difference, a proper prefix first. */
  lemma PrecedenceMeaning(x: Version, y: Version)
    requires |x.core| == |y.core|
    ensures Compare(x, y) < 0 <==> Precedes(x, y)
    ensures Compare(x, y) > 0 <==> Precedes(y, x)
  {
    VersionOrder(x, y, x);
    CoreMeaning(x.core, y.core);
    CoreMeaning(y.core, x.core);
    CoreOrder(x.core, y.core, x.core);
    IdentifiersMeaning(x.prerelease, y.prerelease);
    IdentifiersMeaning(y.prerelease, x.prerelease);
    IdentifiersOrder(x.prerelease, y.prerelease, x.prerelease);
  }

  // ---------------------------------------------------------------------------------------------
  // Numbers and their texts.
  // ---------------------------------------------------------------------------------------------

  function Digit(n: nat): (c: char)
    requires n < 10
    ensures IsDigit(c)
  {
    ('0' as int + n) as char
  }

  function Decimal(n: nat): (text: string)
    ensures text != "" && AllDigits(text)
  {
    if n < 10 then [Digit(n)] else Decimal(n / 10) + [Digit(n % 10)]
  }

  lemma {:induction false} DecimalIsNumber(n: nat)
    ensures Value(Decimal(n)) == n
    ensures Decimal(n)[0] == '0' ==> n == 0
    ensures Number(Decimal(n)) == Some(n)
  {
    if n >= 10 {
      DecimalIsNumber(n / 10);
      assert Decimal(n)[..|Decimal(n)| - 1] == Decimal(n / 10);
    } else {
      assert Decimal(n)[..0] == "";
    }
  }

  lemma DecimalGrows(n: nat, d: nat)
    requires n > 0 && d < 10
    ensures Decimal(10 * n + d) == Decimal(n) + [Digit(d)]
  {
    assert (10 * n + d) / 10 == n && (10 * n + d) % 10 == d;
  }

  lemma {:induction false} NumberIsDecimal(text: string)
    requires Number(text).Some?
    ensures text == Decimal(Value(text)) && (text[0] != '0' ==> Value(text) > 0)
    decreases |text|
  {
    var last := |text| - 1;
    var digit := text[last] as int - '0' as int;
    assert IsDigit(text[last]) && text[last] == Digit(digit);
    if last == 0 {
      assert text[..0] == "" && text == [text[0]];
    } else {
      var front := text[..last];
      assert AllDigits(front) && front[0] == text[0];
      NumberIsDecimal(front);
      DecimalGrows(Value(front), digit);
      assert text == front + [text[last]];
    }
  }

  lemma NumberMeaning(text: string, n: nat)
    ensures Number(text) == Some(n) <==> text == Decimal(n)
  {
    DecimalIsNumber(n);
    if Number(text) == Some(n) {
      NumberIsDecimal(text);
    }
  }

  // ---------------------------------------------------------------------------------------------
  // Splitting and joining.
  // ---------------------------------------------------------------------------------------------

  function Join(parts: seq<string>, c: char): string
    requires parts != []
  {
    if |parts| == 1 then parts[0] else parts[0] + [c] + Join(parts[1..], c)
  }

  predicate Free(text: string, c: char) {
    c !in text
  }

  predicate AllFree(parts: seq<string>, c: char) {
    forall i :: 0 <= i < |parts| ==> Free(parts[i], c)
  }

  lemma {:induction false} IndexOfAppended(front: string, rest: string, c: char)
    requires Free(front, c) && (rest == "" || rest[0] == c)
    ensures IndexOf(front + rest, c) == |front|
    decreases |front|
  {
    if front == "" {
      assert front + rest == rest;
    } else {
      assert front[0] in front && forall d :: d in front[1..] ==> d in front;
      assert (front + rest)[1..] == front[1..] + rest;
      IndexOfAppended(front[1..], rest, c);
    }
  }

  lemma {:induction false} BeforeIndexIsFree(text: string, c: char)
    ensures Free(text[..IndexOf(text, c)], c)
    decreases |text|
  {
    if text != "" && text[0] != c {
      BeforeIndexIsFree(text[1..], c);
      assert text[..IndexOf(text, c)] == [text[0]] + text[1..][..IndexOf(text[1..], c)];
    }
  }

  lemma {:induction false} SplitOfJoin(parts: seq<string>, c: char)
    requires parts != [] && AllFree(parts, c)
    ensures Split(Join(parts, c), c) == parts
    decreases |parts|
  {
    assert Free(parts[0], c);
    if |parts| == 1 {
      assert parts[0] + "" == parts[0];
      IndexOfAppended(parts[0], "", c);
    } else {
      assert forall i :: 0 <= i < |parts[1..]| ==> parts[1..][i] == parts[i + 1];
      SplitOfJoin(parts[1..], c);
      var text, rest := Join(parts, c), [c] + Join(parts[1..], c);
      assert text == parts[0] + rest;
      IndexOfAppended(parts[0], rest, c);
      assert text[..|parts[0]|] == parts[0] && text[|parts[0]| + 1..] == Join(parts[1..], c);
    }
  }

  lemma {:induction false} JoinOfSplit(text: string, c: char)
    ensures Join(Split(text, c), c) == text && AllFree(Split(text, c), c)
    decreases |text|
  {
    var n := IndexOf(text, c);
    BeforeIndexIsFree(text, c);
    if n < |text| {
      JoinOfSplit(text[n + 1..], c);
      JoinOfMore(text[..n], Split(text[n + 1..], c), c);
      assert text == text[..n] + [c] + text[n + 1..];
    } else {
      assert text[..n] == text;
    }
  }

  lemma JoinOfMore(first: string, rest: seq<string>, c: char)
    requires rest != []
    ensures Join([first] + rest, c) == first + [c] + Join(rest, c)
    ensures Free(first, c) && AllFree(rest, c) ==> AllFree([first] + rest, c)
  {
    assert ([first] + rest)[1..] == rest;
  }

  // ---------------------------------------------------------------------------------------------
  // The written form of a version.
  // ---------------------------------------------------------------------------------------------

  predicate ValidIdentifier(identifier: Identifier) {
    identifier.Alphanumeric? ==> BuildIdentifier(identifier.text) && !AllDigits(identifier.text)
  }

  predicate ValidIdentifiers(identifiers: seq<Identifier>) {
    forall i :: 0 <= i < |identifiers| ==> ValidIdentifier(identifiers[i])
  }

  function Written(identifier: Identifier): string {
    match identifier
    case Numeric(value) => Decimal(value)
    case Alphanumeric(text) => text
  }

  function Decimals(numbers: seq<nat>): seq<string> {
    seq(|numbers|, i requires 0 <= i < |numbers| => Decimal(numbers[i]))
  }

  function WrittenAll(identifiers: seq<Identifier>): seq<string> {
    seq(|identifiers|, i requires 0 <= i < |identifiers| => Written(identifiers[i]))
  }

  lemma {:induction false} NumbersMeaning(parts: seq<string>, numbers: seq<nat>)
    ensures ParseNumbers(parts) == Some(numbers) <==> parts == Decimals(numbers)
    decreases |parts|
  {
    if parts != [] && numbers != [] {
      NumberMeaning(parts[0], numbers[0]);
      NumbersMeaning(parts[1..], numbers[1..]);
      assert Decimals(numbers) == [Decimal(numbers[0])] + Decimals(numbers[1..]);
      assert parts == [parts[0]] + parts[1..] && numbers == [numbers[0]] + numbers[1..];
    } else if parts == [] {
      assert numbers != [] ==> |Decimals(numbers)| != 0;
    }
  }

  lemma IdentifierIsWritten(text: string, identifier: Identifier)
    ensures ParseIdentifier(text) == Some(identifier) <==> text == Written(identifier) && ValidIdentifier(identifier)
  {
    if identifier.Numeric? {
      NumberMeaning(text, identifier.value);
      DecimalIsNumber(identifier.value);
    }
  }

  lemma {:induction false} IdentifiersAreWritten(parts: seq<string>, identifiers: seq<Identifier>)
    ensures ParseIdentifiers(parts) == Some(identifiers) <==> parts == WrittenAll(identifiers) && ValidIdentifiers(identifiers)
    decreases |parts|
  {
    if parts != [] && identifiers != [] {
      IdentifierIsWritten(parts[0], identifiers[0]);
      IdentifiersAreWritten(parts[1..], identifiers[1..]);
      assert WrittenAll(identifiers) == [Written(identifiers[0])] + WrittenAll(identifiers[1..]);
      assert parts == [parts[0]] + parts[1..] && identifiers == [identifiers[0]] + identifiers[1..];
      assert ValidIdentifiers(identifiers) <==> ValidIdentifier(identifiers[0]) && ValidIdentifiers(identifiers[1..]);
    } else if parts == [] {
      assert identifiers != [] ==> |WrittenAll(identifiers)| != 0;
    }
  }

  function CoreText(numbers: seq<nat>): string
    requires numbers != []
  {
    Join(Decimals(numbers), '.')
  }

  function PrereleaseText(identifiers: seq<Identifier>): string {
    if identifiers == [] then "" else "-" + Join(WrittenAll(identifiers), '.')
  }

  function BuildText(build: seq<string>): string {
    if build == [] then "" else "+" + Join(build, '.')
  }

  /** Three numbers, then an optional prerelease, then optional build metadata. */
  predicate FullForm(text: string, version: Version, build: seq<string>) {
    && |version.core| == 3 && ValidIdentifiers(version.prerelease) && BuildIdentifiers(build)
    && text == CoreText(version.core) + PrereleaseText(version.prerelease) + BuildText(build)
  }

  /** Only the first `n` numbers, the others being zero. */
  predicate ShortForm(text: string, version: Version, n: nat) {
    && |version.core| == 3 && 0 < n < 3 && version.prerelease == []
    && (forall i :: n <= i < 3 ==> version.core[i] == 0)
    && text == CoreText(version.core[..n])
  }

  lemma {:induction false} JoinIsFree(parts: seq<string>, c: char, d: char)
    requires parts != [] && AllFree(parts, d) && c != d
    ensures Free(Join(parts, c), d)
    decreases |parts|
  {
    assert Free(parts[0], d);
    if |parts| > 1 {
      assert forall i :: 0 <= i < |parts[1..]| ==> parts[1..][i] == parts[i + 1];
      JoinIsFree(parts[1..], c, d);
    }
  }

  lemma DecimalsAreFree(numbers: seq<nat>, d: char)
    requires !IsDigit(d)
    ensures AllFree(Decimals(numbers), d)
  {
    forall i | 0 <= i < |numbers| ensures Free(Decimals(numbers)[i], d) {
      assert AllDigits(Decimal(numbers[i]));
    }
  }

  lemma WrittenAreFree(identifiers: seq<Identifier>, d: char)
    requires ValidIdentifiers(identifiers) && !IsIdentifierCharacter(d)
    ensures AllFree(WrittenAll(identifiers), d)
  {
    forall i | 0 <= i < |identifiers| ensures Free(WrittenAll(identifiers)[i], d) {
      assert ValidIdentifier(identifiers[i]);
      if identifiers[i].Numeric? {
        assert AllDigits(Decimal(identifiers[i].value));
      }
    }
  }

  lemma CoreTextIsRead(numbers: seq<nat>)
    requires numbers != []
    ensures Split(CoreText(numbers), '.') == Decimals(numbers)
    ensures Free(CoreText(numbers), '+') && Free(CoreText(numbers), '-')
  {
    DecimalsAreFree(numbers, '.');
    DecimalsAreFree(numbers, '+');
    DecimalsAreFree(numbers, '-');
    SplitOfJoin(Decimals(numbers), '.');
    JoinIsFree(Decimals(numbers), '.', '+');
    JoinIsFree(Decimals(numbers), '.', '-');
  }

  lemma PrereleaseTextIsRead(identifiers: seq<Identifier>)
    requires ValidIdentifiers(identifiers)
    ensures identifiers != [] ==> Split(PrereleaseText(identifiers)[1..], '.') == WrittenAll(identifiers)
    ensures Free(PrereleaseText(identifiers), '+')
  {
    if identifiers != [] {
      WrittenAreFree(identifiers, '.');
      WrittenAreFree(identifiers, '+');
      SplitOfJoin(WrittenAll(identifiers), '.');
      JoinIsFree(WrittenAll(identifiers), '.', '+');
    }
  }

  lemma BuildTextIsRead(build: seq<string>)
    requires BuildIdentifiers(build) && build != []
    ensures Split(BuildText(build)[1..], '.') == build
  {
    forall i | 0 <= i < |build| ensures Free(build[i], '.') {
      assert BuildIdentifier(build[i]);
    }
    SplitOfJoin(build, '.');
  }

  /** Where the two separators of a full form are. */
  lemma FullFormSplits(version: Version, build: seq<string>, front: string, text: string)
    requires |version.core| == 3 && ValidIdentifiers(version.prerelease) && BuildIdentifiers(build)
    requires front == CoreText(version.core) + PrereleaseText(version.prerelease) && text == front + BuildText(build)
    ensures IndexOf(text, '+') == |front| && text[..|front|] == front
    ensures IndexOf(front, '-') == |CoreText(version.core)| && front[..|CoreText(version.core)|] == CoreText(version.core)
  {
    CoreTextIsRead(version.core);
    PrereleaseTextIsRead(version.prerelease);
    IndexOfAppended(front, BuildText(build), '+');
    IndexOfAppended(CoreText(version.core), PrereleaseText(version.prerelease), '-');
  }

  /** What is read from a core, a prerelease and build metadata that have been taken apart. */
  function Assembled(core: string, prerelease: Option<string>, build: Option<string>): Option<Version> {
    var numbers := ParseNumbers(Split(core, '.'));
    if numbers == None || |numbers.value| > 3 then None
    else if build.Some? && !BuildIdentifiers(Split(build.value, '.')) then None
    else if |numbers.value| < 3 then
      if build == None && prerelease == None then Some(Version((numbers.value + [0, 0, 0])[..3], [])) else None
    else if prerelease == None then Some(Version(numbers.value, []))
    else
      match ParseIdentifiers(Split(prerelease.value, '.'))
      case None => None
      case Some(identifiers) => Some(Version(numbers.value, identifiers))
  }

  function Tail(text: string, n: nat): Option<string>
    requires n <= |text|
  {
    if n < |text| then Some(text[n + 1..]) else None
  }

  lemma ParseByParts(text: string, plus: nat, main: string, dash: nat)
    requires plus == IndexOf(text, '+') && main == text[..plus] && dash == IndexOf(main, '-')
    ensures ParseVersion(text) == Assembled(main[..dash], Tail(main, dash), Tail(text, plus))
  {
  }

  lemma FullFormAssembles(version: Version, build: seq<string>)
    requires |version.core| == 3 && ValidIdentifiers(version.prerelease) && BuildIdentifiers(build)
    ensures Assembled(CoreText(version.core), Tail(PrereleaseText(version.prerelease), 0), Tail(BuildText(build), 0)) == Some(version)
  {
    CoreTextIsRead(version.core);
    NumbersMeaning(Split(CoreText(version.core), '.'), version.core);
    if build != [] {
      BuildTextIsRead(build);
    }
    if version.prerelease != [] {
      PrereleaseTextIsRead(version.prerelease);
      IdentifiersAreWritten(WrittenAll(version.prerelease), version.prerelease);
    }
  }

  lemma TailOfConcat(front: string, rest: string)
    ensures Tail(front + rest, |front|) == Tail(rest, 0)
  {
    if rest != "" {
      assert (front + rest)[|front| + 1..] == rest[1..];
    }
  }

  lemma FullFormIsRead(text: string, version: Version, build: seq<string>)
    requires FullForm(text, version, build)
    ensures ParseVersion(text) == Some(version)
  {
    var core, prerelease := CoreText(version.core), PrereleaseText(version.prerelease);
    var front := core + prerelease;
    FullFormSplits(version, build, front, text);
    ParseByParts(text, |front|, front, |core|);
    TailOfConcat(front, BuildText(build));
    TailOfConcat(core, prerelease);
    FullFormAssembles(version, build);
  }

  lemma ShortFormIsRead(text: string, version: Version, n: nat)
    requires ShortForm(text, version, n)
    ensures ParseVersion(text) == Some(version)
  {
    var numbers := version.core[..n];
    CoreTextIsRead(numbers);
    NumbersMeaning(Split(text, '.'), numbers);
    assert text + "" == text;
    IndexOfAppended(text, "", '+');
    IndexOfAppended(text, "", '-');
    assert text[..|text|] == text;
    assert (numbers + [0, 0, 0])[..3] == version.core;
  }

  lemma ReadNumbers(text: string, numbers: seq<nat>)
    requires ParseNumbers(Split(text, '.')) == Some(numbers)
    ensures numbers != [] && text == CoreText(numbers)
  {
    NumbersMeaning(Split(text, '.'), numbers);
    JoinOfSplit(text, '.');
  }

  lemma AssembledIsWritten(core: string, prerelease: Option<string>, build: Option<string>, version: Version) returns (parts: seq<string>)
    requires Assembled(core, prerelease, build) == Some(version)
    ensures BuildIdentifiers(parts) && BuildText(parts) == (if build == None then "" else "+" + build.value)
    ensures version.prerelease == [] <==> prerelease == None
    ensures ValidIdentifiers(version.prerelease) && (prerelease.Some? ==> PrereleaseText(version.prerelease) == "-" + prerelease.value)
    ensures |version.core| == 3 && (CoreText(version.core) == core || (build == None && prerelease == None && exists n :: ShortForm(core, version, n)))
  {
    var numbers := ParseNumbers(Split(core, '.')).value;
    ReadNumbers(core, numbers);
    if build.Some? {
      JoinOfSplit(build.value, '.');
    }
    parts := if build == None then [] else Split(build.value, '.');
    if prerelease.Some? {
      JoinOfSplit(prerelease.value, '.');
      IdentifiersAreWritten(Split(prerelease.value, '.'), version.prerelease);
    }
    if |numbers| < 3 {
      assert version.core[..|numbers|] == numbers;
      assert ShortForm(core, version, |numbers|);
    }
  }

  lemma Reassembled(text: string, n: nat, c: char)
    requires n == IndexOf(text, c)
    ensures text == text[..n] + (if Tail(text, n) == None then "" else [c] + Tail(text, n).value)
  {
  }

  lemma ReadIsWritten(text: string, version: Version) returns (build: seq<string>)
    requires ParseVersion(text) == Some(version)
    ensures FullForm(text, version, build) || ShortForm(text, version, 1) || ShortForm(text, version, 2)
  {
    var plus := IndexOf(text, '+');
    var main := text[..plus];
    var dash := IndexOf(main, '-');
    ParseByParts(text, plus, main, dash);
    Reassembled(text, plus, '+');
    Reassembled(main, dash, '-');
    build := AssembledIsWritten(main[..dash], Tail(main, dash), Tail(text, plus), version);
    if CoreText(version.core) == main[..dash] {
      assert text == CoreText(version.core) + PrereleaseText(version.prerelease) + BuildText(build);
    } else {
      assert text == main[..dash] && exists n :: ShortForm(main[..dash], version, n);
    }
  }

  /** Exactly the texts that are read, and what they are read as: three decimal numbers without
      leading zeros in their places, an optional prerelease, and optional build metadata that is
      ignored; or one or two numbers on their own, the missing ones being zero. */
  lemma VersionTexts(text: string, version: Version)
    ensures ParseVersion(text) == Some(version) <==>
            (exists build :: FullForm(text, version, build)) || ShortForm(text, version, 1) || ShortForm(text, version, 2)
  {
    if build :| FullForm(text, version, build) {
      FullFormIsRead(text, version, build);
    } else if ShortForm(text, version, 1) {
      ShortFormIsRead(text, version, 1);
    } else if ShortForm(text, version, 2) {
      ShortFormIsRead(text, version, 2);
    }
    if ParseVersion(text) == Some(version) {
      var build := ReadIsWritten(text, version);
    }
  }

  /** A leading "v" makes no difference, and no version starts with one. */
  lemma LeadingV(text: string)
    ensures Parse("v" + text) == ParseVersion(text)
    ensures text == "" || text[0] != 'v' ==> Parse(text) == ParseVersion(text)
  {
    assert ("v" + text)[1..] == text;
  }

  /** When an owner is refused as newer: both texts are versions and the caller's precedes. */
  lemma NewerMeaning(owner: string, current: string)
    ensures Newer(owner, current) <==> IsVersion(owner) && IsVersion(current) && Precedes(VersionOf(current), VersionOf(owner))
  {
    NewerCompares(owner, current);
    PrecedenceMeaning(VersionOf(owner), VersionOf(current));
  }

  /** Releases "a.b.c" are ordered by their numbers, so that a client of an older release never
      replaces the owner of a newer one. */
  lemma ReleasesCompareByNumbers(x: seq<nat>, y: seq<nat>)
    requires |x| == |y| == 3
    ensures Newer(CoreText(x), CoreText(y)) <==> CoreBelow(y, x)
  {
    var left, right := Version(x, []), Version(y, []);
    ReleaseIsParsed(x);
    ReleaseIsParsed(y);
    PrecedenceMeaning(left, right);
  }

  lemma ReleaseIsParsed(numbers: seq<nat>)
    requires |numbers| == 3
    ensures Parse(CoreText(numbers)) == Some(Version(numbers, []))
  {
    var text := CoreText(numbers);
    assert text + "" + "" == text;
    assert FullForm(text, Version(numbers, []), []);
    FullFormIsRead(text, Version(numbers, []), []);
    StartsWithDigit(numbers);
    LeadingV(text);
  }

  lemma StartsWithDigit(numbers: seq<nat>)
    requires numbers != []
    ensures CoreText(numbers) != "" && IsDigit(CoreText(numbers)[0])
  {
    assert Decimals(numbers)[0] == Decimal(numbers[0]);
  }
}
