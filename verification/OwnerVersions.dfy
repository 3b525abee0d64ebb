/** Version strings of session owners and their precedence (Semantic Versioning 2.0.0, sections 9
    to 11, with the shorthands "1" and "1.2"). */
module OwnerVersions {
  import opened Wrappers

  datatype Identifier = Numeric(value: nat) | Alphanumeric(text: string)

  datatype Version = Version(core: seq<nat>, prerelease: seq<Identifier>)

  // ---------------------------------------------------------------------------------------------
  // Parsing.
  // ---------------------------------------------------------------------------------------------

  predicate IsDigit(c: char) {
    '0' <= c <= '9'
  }

  predicate IsIdentifierCharacter(c: char) {
    IsDigit(c) || 'a' <= c <= 'z' || 'A' <= c <= 'Z' || c == '-'
  }

  /** Digits, letters and the hyphen, by their ASCII codes. */
  lemma IdentifierCharacters(c: char)
    ensures IsDigit(c) <==> 48 <= c as int < 58
    ensures IsIdentifierCharacter(c) <==> 48 <= c as int < 58 || 65 <= c as int < 91 || 97 <= c as int < 123 || c as int == 45
  {
  }

  predicate AllDigits(text: string) {
    forall i :: 0 <= i < |text| ==> IsDigit(text[i])
  }

  /** The position of the first `c`, or the length. */
  function IndexOf(text: string, c: char): (n: nat)
    ensures n <= |text| && (n < |text| ==> text[n] == c)
  {
    if text == "" || text[0] == c then 0 else 1 + IndexOf(text[1..], c)
  }

  function Split(text: string, c: char): (parts: seq<string>)
    ensures parts != []
    decreases |text|
  {
    var n := IndexOf(text, c);
    if n == |text| then [text] else [text[..n]] + Split(text[n + 1..], c)
  }

  function Value(digits: string): nat
    requires AllDigits(digits)
  {
    if digits == "" then 0
    else
      var last := |digits| - 1;
      assert AllDigits(digits[..last]);
      10 * Value(digits[..last]) + (digits[last] as int - '0' as int)
  }

  /** No leading zeros. */
  function Number(text: string): Option<nat> {
    if text != "" && AllDigits(text) && (text[0] == '0' ==> |text| == 1) then Some(Value(text)) else None
  }

  function ParseIdentifier(text: string): Option<Identifier> {
    if text == "" || exists i :: 0 <= i < |text| && !IsIdentifierCharacter(text[i]) then None
    else if !AllDigits(text) then Some(Alphanumeric(text))
    else if Number(text).Some? then Some(Numeric(Number(text).value))
    else None
  }

  /** Build identifiers may have leading zeros. */
  predicate BuildIdentifier(text: string) {
    text != "" && forall i :: 0 <= i < |text| ==> IsIdentifierCharacter(text[i])
  }

  predicate BuildIdentifiers(parts: seq<string>) {
    forall i :: 0 <= i < |parts| ==> BuildIdentifier(parts[i])
  }

  function ParseNumbers(parts: seq<string>): Option<seq<nat>> {
    if parts == [] then Some([])
    else if Number(parts[0]).Some? && ParseNumbers(parts[1..]).Some?
    then Some([Number(parts[0]).value] + ParseNumbers(parts[1..]).value) else None
  }

  function ParseIdentifiers(parts: seq<string>): Option<seq<Identifier>> {
    if parts == [] then Some([])
    else if ParseIdentifier(parts[0]).Some? && ParseIdentifiers(parts[1..]).Some?
    then Some([ParseIdentifier(parts[0]).value] + ParseIdentifiers(parts[1..]).value) else None
  }

  /** A version without its "v". The shorthands take neither prerelease nor build. */
  function ParseVersion(text: string): Option<Version> {
    var plus := IndexOf(text, '+');
    var main := text[..plus];
    var dash := IndexOf(main, '-');
    var numbers := ParseNumbers(Split(main[..dash], '.'));
    if numbers == None || |numbers.value| > 3 then None
    else if plus < |text| && !BuildIdentifiers(Split(text[plus + 1..], '.')) then None
    else if |numbers.value| < 3 then
      if plus == |text| && dash == |main| then Some(Version((numbers.value + [0, 0, 0])[..3], [])) else None
    else if dash == |main| then Some(Version(numbers.value, []))
    else
      match ParseIdentifiers(Split(main[dash + 1..], '.'))
      case None => None
      case Some(identifiers) => Some(Version(numbers.value, identifiers))
  }

  /** One leading "v" is optional. */
  function Parse(text: string): Option<Version> {
    ParseVersion(if text != "" && text[0] == 'v' then text[1..] else text)
  }

  // ---------------------------------------------------------------------------------------------
  // Precedence (section 11). Negative, zero or positive, like every comparison here.
  // ---------------------------------------------------------------------------------------------

  function CompareText(left: string, right: string): (order: int)
    ensures -1 <= order <= 1
    ensures order == 0 <==> left == right
  {
    if left == "" && right == "" then 0
    else if left == "" then -1
    else if right == "" then 1
    else if left[0] != right[0] then (if left[0] < right[0] then -1 else 1)
    else
      assert left == [left[0]] + left[1..] && right == [right[0]] + right[1..];
      CompareText(left[1..], right[1..])
  }

  function CompareNumbers(left: nat, right: nat): int {
    if left < right then -1 else if left > right then 1 else 0
  }

  function CompareIdentifier(left: Identifier, right: Identifier): (order: int)
    ensures -1 <= order <= 1
    ensures order == 0 <==> left == right
  {
    if left.Numeric? && right.Numeric? then CompareNumbers(left.value, right.value)
    else if left.Numeric? then -1
    else if right.Numeric? then 1
    else CompareText(left.text, right.text)
  }

  function CompareIdentifiers(left: seq<Identifier>, right: seq<Identifier>): (order: int)
    ensures -1 <= order <= 1
    ensures order == 0 <==> left == right
  {
    if left == [] && right == [] then 0
    else if left == [] then -1
    else if right == [] then 1
    else if CompareIdentifier(left[0], right[0]) != 0 then CompareIdentifier(left[0], right[0])
    else
      assert left == [left[0]] + left[1..] && right == [right[0]] + right[1..];
      CompareIdentifiers(left[1..], right[1..])
  }

  /** A version without a prerelease comes after all its prereleases. */
  function ComparePrerelease(left: seq<Identifier>, right: seq<Identifier>): (order: int)
    ensures -1 <= order <= 1
    ensures order == 0 <==> left == right
  {
    if left == right then 0 else if left == [] then 1 else if right == [] then -1 else CompareIdentifiers(left, right)
  }

  function CompareCore(left: seq<nat>, right: seq<nat>): (order: int)
    requires |left| == |right|
    ensures -1 <= order <= 1
    ensures order == 0 <==> left == right
    decreases |left|
  {
    if left == [] then 0
    else if left[0] != right[0] then CompareNumbers(left[0], right[0])
    else
      assert left == [left[0]] + left[1..] && right == [right[0]] + right[1..];
      CompareCore(left[1..], right[1..])
  }

  function Compare(left: Version, right: Version): (order: int)
    requires |left.core| == |right.core|
    ensures -1 <= order <= 1
    ensures order == 0 <==> left == right
  {
    if CompareCore(left.core, right.core) != 0 then CompareCore(left.core, right.core)
    else ComparePrerelease(left.prerelease, right.prerelease)
  }

  lemma ParsedHasThree(text: string)
    ensures Parse(text).Some? ==> |Parse(text).value.core| == 3
  {
  }

  /** Both are versions and the owner's has the higher precedence. */
  predicate Newer(owner: string, current: string) {
    ParsedHasThree(owner);
    ParsedHasThree(current);
    Parse(owner).Some? && Parse(current).Some? && Compare(Parse(owner).value, Parse(current).value) > 0
  }

  // ---------------------------------------------------------------------------------------------
  // Precedence is a linear order.
  // ---------------------------------------------------------------------------------------------

  lemma {:induction false} TextOrder(x: string, y: string, z: string)
    ensures CompareText(x, y) == -CompareText(y, x)
    ensures CompareText(x, y) <= 0 && CompareText(y, z) <= 0 ==> CompareText(x, z) <= 0
    decreases |x| + |y| + |z|
  {
    if x != "" && y != "" && z != "" {
      TextOrder(x[1..], y[1..], z[1..]);
    } else if x != "" && y != "" {
      TextOrder(x[1..], y[1..], z);
    }
  }

  lemma IdentifierOrder(x: Identifier, y: Identifier, z: Identifier)
    ensures CompareIdentifier(x, y) == -CompareIdentifier(y, x)
    ensures CompareIdentifier(x, y) <= 0 && CompareIdentifier(y, z) <= 0 ==> CompareIdentifier(x, z) <= 0
  {
    if x.Alphanumeric? && y.Alphanumeric? {
      TextOrder(x.text, y.text, if z.Alphanumeric? then z.text else "");
    }
  }

  lemma {:induction false} IdentifiersOrder(x: seq<Identifier>, y: seq<Identifier>, z: seq<Identifier>)
    ensures CompareIdentifiers(x, y) == -CompareIdentifiers(y, x)
    ensures CompareIdentifiers(x, y) <= 0 && CompareIdentifiers(y, z) <= 0 ==> CompareIdentifiers(x, z) <= 0
    decreases |x| + |y| + |z|
  {
    if x != [] && y != [] {
      IdentifierOrder(x[0], y[0], x[0]);
      if z != [] {
        IdentifierOrder(x[0], y[0], z[0]);
        IdentifierOrder(y[0], z[0], x[0]);
        IdentifierOrder(z[0], x[0], y[0]);
        IdentifiersOrder(x[1..], y[1..], z[1..]);
      } else {
        IdentifiersOrder(x[1..], y[1..], z);
      }
    }
  }

  lemma {:induction false} CoreOrder(x: seq<nat>, y: seq<nat>, z: seq<nat>)
    requires |x| == |y| == |z|
    ensures CompareCore(x, y) == -CompareCore(y, x)
    ensures CompareCore(x, y) <= 0 && CompareCore(y, z) <= 0 ==> CompareCore(x, z) <= 0
    decreases |x|
  {
    if x != [] {
      CoreOrder(x[1..], y[1..], z[1..]);
    }
  }

  /** Precedence is antisymmetric and transitive, and equal precedence means equal versions up to
      build metadata. */
  lemma VersionOrder(x: Version, y: Version, z: Version)
    requires |x.core| == |y.core| == |z.core|
    ensures Compare(x, y) == -Compare(y, x)
    ensures Compare(x, y) == 0 <==> x == y
    ensures Compare(x, y) <= 0 && Compare(y, z) <= 0 ==> Compare(x, z) <= 0
  {
    CoreOrder(x.core, y.core, z.core);
    CoreOrder(y.core, z.core, x.core);
    CoreOrder(z.core, x.core, y.core);
    IdentifiersOrder(x.prerelease, y.prerelease, z.prerelease);
  }

  lemma NotNewerThanItself(x: string)
    ensures !Newer(x, x)
  {
    ParsedHasThree(x);
  }

  predicate IsVersion(text: string) {
    Parse(text).Some?
  }

  /** The version that a text stands for; for other text it does not matter. */
  function VersionOf(text: string): (version: Version)
    ensures |version.core| == 3
  {
    ParsedHasThree(text);
    if IsVersion(text) then Parse(text).value else Version([0, 0, 0], [])
  }

  lemma NewerCompares(owner: string, current: string)
    ensures Newer(owner, current) <==> IsVersion(owner) && IsVersion(current) && Compare(VersionOf(owner), VersionOf(current)) > 0
  {
  }

  lemma NotNewerIsBelow(x: string, y: string)
    requires IsVersion(x) && IsVersion(y) && !Newer(x, y)
    ensures Compare(VersionOf(x), VersionOf(y)) <= 0
  {
    NewerCompares(x, y);
  }

  predicate NotBelowPrevious(versions: seq<Version>, k: nat)
    requires 0 < k < |versions| && |versions[k - 1].core| == |versions[k].core|
  {
    Compare(versions[k - 1], versions[k]) <= 0
  }

  /** From position `i` to position `j` no version is above the next. */
  predicate Climbing(versions: seq<Version>, i: nat, j: nat)
    requires i <= j < |versions|
  {
    && (forall k :: 0 <= k < |versions| ==> |versions[k].core| == 3)
    && (forall k :: i < k <= j ==> NotBelowPrevious(versions, k))
  }

  lemma {:induction false} ClimbingNeverFalls(versions: seq<Version>, i: nat, j: nat)
    requires i <= j < |versions| && Climbing(versions, i, j)
    ensures Compare(versions[i], versions[j]) <= 0
  {
    if i < j {
      ClimbingNeverFalls(versions, i, j - 1);
      assert NotBelowPrevious(versions, j);
      VersionOrder(versions[i], versions[j - 1], versions[j]);
    }
  }

  // ---------------------------------------------------------------------------------------------
  // Lists of version texts, valid or not.
  // ---------------------------------------------------------------------------------------------

  /** The text before position `k` is not newer than the one at it. */
  predicate StepsUp(versions: seq<string>, k: nat)
    requires 0 < k < |versions|
  {
    !Newer(versions[k - 1], versions[k])
  }

  predicate NoneNewerThanNext(versions: seq<string>) {
    forall k :: 0 < k < |versions| ==> StepsUp(versions, k)
  }

  function VersionsOf(texts: seq<string>): seq<Version> {
    seq(|texts|, k requires 0 <= k < |texts| => VersionOf(texts[k]))
  }

  lemma ValidStepClimbs(texts: seq<string>, k: nat)
    requires 0 < k < |texts| && StepsUp(texts, k) && IsVersion(texts[k - 1]) && IsVersion(texts[k])
    ensures NotBelowPrevious(VersionsOf(texts), k)
  {
    NotNewerIsBelow(texts[k - 1], texts[k]);
  }

  lemma ValidStretchClimbs(texts: seq<string>, i: nat, j: nat)
    requires NoneNewerThanNext(texts) && i <= j < |texts| && forall k :: i <= k <= j ==> IsVersion(texts[k])
    ensures Climbing(VersionsOf(texts), i, j)
  {
    forall k | i < k <= j ensures NotBelowPrevious(VersionsOf(texts), k) {
      ValidStepClimbs(texts, k);
    }
  }

  /** If a text is newer than a later one, a text between them is no version. */
  lemma FallsNeedOddVersion(texts: seq<string>, i: nat, j: nat)
    requires NoneNewerThanNext(texts) && i <= j < |texts| && Newer(texts[i], texts[j])
    ensures exists k :: i < k < j && !IsVersion(texts[k])
  {
    NewerCompares(texts[i], texts[j]);
    if forall k :: i < k < j ==> IsVersion(texts[k]) {
      ValidStretchClimbs(texts, i, j);
      ClimbingNeverFalls(VersionsOf(texts), i, j);
      assert false;
    }
  }
}
