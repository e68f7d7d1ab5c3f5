/** The library's version numbers: a `major.minor.patch` text read into
    three numbers, printed back, and compared component by component. */
module BuildNumber {
  import opened Wrappers
  import opened Json
  import opened ErrorHelper

  /** A number `parseInt` may produce: `None` is NaN. */
  type Number = Option<int>

  predicate IsHexDigit(c: char) {
    IsDigit(c) || 'a' <= c <= 'f' || 'A' <= c <= 'F'
  }

  function HexDigitValue(c: char): nat
    requires IsHexDigit(c)
  {
    if IsDigit(c) then c as int - '0' as int
    else if 'a' <= c <= 'f' then c as int - 'a' as int + 10
    else c as int - 'A' as int + 10
  }

  /** The longest prefix of hexadecimal digits. */
  function HexPrefix(s: string): (d: string)
    ensures |d| <= |s| && forall i :: 0 <= i < |d| ==> IsHexDigit(d[i])
  {
    if |s| > 0 && IsHexDigit(s[0]) then [s[0]] + HexPrefix(s[1..]) else []
  }

  function HexValue(s: string): nat
    requires forall i :: 0 <= i < |s| ==> IsHexDigit(s[i])
  {
    if |s| == 0 then 0 else 16 * HexValue(s[..|s| - 1]) + HexDigitValue(s[|s| - 1])
  }

  /** `parseInt(s)` with no radix: a `0x` or `0X` prefix after the optional
      sign reads hexadecimal digits, anything else reads decimal ones. */
  function ParseIntNoRadix(s: string): Number {
    var t := TrimStart(s);
    var negative := |t| > 0 && t[0] == '-';
    var body := SignedBody(t);
    if |body| >= 2 && body[0] == '0' && (body[1] == 'x' || body[1] == 'X') then
      var hex := HexPrefix(body[2..]);
      if |hex| == 0 then None
      else if negative then Some(-(HexValue(hex) as int))
      else Some(HexValue(hex))
    else ParseInt(s)
  }

  /** `n.toString()` for an integer or NaN. */
  function NumberText(n: Number): string {
    if n.None? then "NaN" else IntToString(n.value)
  }

  /** A parsed version; each component is kept as the number its text denotes. */
  datatype VersionNumber = VersionNumber(major: Number, minor: Number, patch: Number)

  function ComponentsError(versionString: string): ErrorInfo {
    ErrorInfo("Error", "Invalid number of components. versionString was  " + versionString + " ", None)
  }

  /** `new VersionNumber(versionString)`: split on dots; fewer than three
      components throw; the first three are parsed and any more ignored. */
  function Parse(versionString: string): (r: Result<VersionNumber, ErrorInfo>)
    ensures r.Failure? <==> |Split(versionString, '.')| < 3
    ensures r.Failure? ==> r.error == ComponentsError(versionString)
    ensures r.Success? ==>
      var parts := Split(versionString, '.');
      r.value == VersionNumber(ParseIntNoRadix(parts[0]), ParseIntNoRadix(parts[1]), ParseIntNoRadix(parts[2]))
  {
    var components := Split(versionString, '.');
    if |components| < 3 then Failure(ComponentsError(versionString))
    else Success(VersionNumber(ParseIntNoRadix(components[0]), ParseIntNoRadix(components[1]),
                               ParseIntNoRadix(components[2])))
  }

  /** `toString()`: the three components joined by dots. */
  function ToString(v: VersionNumber): string {
    NumberText(v.major) + "." + NumberText(v.minor) + "." + NumberText(v.patch)
  }

  /** `a - b` on two numbers, NaN when either is. */
  function Minus(a: Number, b: Number): Number {
    if a.Some? && b.Some? then Some(a.value - b.value) else None
  }

  /** `v.compare(w)`: the first difference that is not 0, major first; a
      NaN difference counts as non-zero and is returned. */
  function Compare(v: VersionNumber, w: VersionNumber): Number {
    var majorDiff := Minus(v.major, w.major);
    var minorDiff := Minus(v.minor, w.minor);
    var patchDiff := Minus(v.patch, w.patch);
    if majorDiff != Some(0) then majorDiff
    else if minorDiff != Some(0) then minorDiff
    else if patchDiff != Some(0) then patchDiff
    else Some(0)
  }

  predicate IsNumeric(v: VersionNumber) {
    v.major.Some? && v.minor.Some? && v.patch.Some?
  }

  /** `-n`, NaN staying NaN. */
  function Negate(n: Number): Number {
    if n.None? then None else Some(-n.value)
  }

  /** Comparing with itself gives 0 exactly when no component is NaN. */
  lemma CompareSelf(v: VersionNumber)
    ensures Compare(v, v) == (if IsNumeric(v) then Some(0) else None)
  {
  }

  /** Swapping the arguments negates the result. */
  lemma CompareAntisymmetric(v: VersionNumber, w: VersionNumber)
    ensures Compare(w, v) == Negate(Compare(v, w))
  {
  }

  /** For numeric versions the result's sign is the lexicographic order of
      (major, minor, patch), and 0 means equal. */
  lemma CompareIsLexicographic(v: VersionNumber, w: VersionNumber)
    requires IsNumeric(v) && IsNumeric(w)
    ensures Compare(v, w).Some?
    ensures Compare(v, w) == Some(0) <==> v == w
    ensures Compare(v, w).value > 0 <==>
      || v.major.value > w.major.value
      || (v.major == w.major && v.minor.value > w.minor.value)
      || (v.major == w.major && v.minor == w.minor && v.patch.value > w.patch.value)
  {
  }

  /** A numeral without a leading zero is read as decimal even with no radix. */
  lemma NoRadixNumeral(sign: string, digits: string)
    requires sign == "" || sign == "-"
    requires IsCanonicalIndex(digits)
    ensures ParseIntNoRadix(sign + digits) == ParseInt(sign + digits)
  {
    ParseNumeral(sign, digits);
    assert !(|digits| >= 2 && digits[0] == '0');
  }

  /** The text of a number reads back as that number; NaN reads as NaN. */
  lemma ParseNumberText(n: Number)
    ensures ParseIntNoRadix(NumberText(n)) == n
  {
    if n.Some? {
      var sign := if n.value < 0 then "-" else "";
      var digits := NatToString(if n.value < 0 then -n.value else n.value);
      IntToStringParts(n.value);
      assert NumberText(n) == sign + digits;
      NoRadixNumeral(sign, digits);
      ParseIntToString(n.value);
    } else {
      assert TrimStart("NaN") == "NaN" by { assert !IsJsSpace('N'); }
      assert DigitPrefix("NaN") == [];
    }
  }

  /** The text of a number holds no dot. */
  lemma NumberTextNoDot(n: Number)
    ensures '.' !in NumberText(n)
  {
    if n.Some? {
      var digits := NatToString(if n.value < 0 then -n.value else n.value);
      IntToStringParts(n.value);
      assert forall i :: 0 <= i < |digits| ==> digits[i] != '.';
    }
  }

  /** Printing and parsing again gives the same version, for every version,
      including one with NaN components. */
  lemma ParseToString(v: VersionNumber)
    ensures Parse(ToString(v)) == Success(v)
  {
    SplitText(v);
    ParseNumberText(v.major);
    ParseNumberText(v.minor);
    ParseNumberText(v.patch);
  }

  /** The text of a version splits into the texts of its three components. */
  lemma SplitText(v: VersionNumber)
    ensures Split(ToString(v), '.') == [NumberText(v.major), NumberText(v.minor), NumberText(v.patch)]
  {
    var a, b, c := NumberText(v.major), NumberText(v.minor), NumberText(v.patch);
    NumberTextNoDot(v.major);
    NumberTextNoDot(v.minor);
    NumberTextNoDot(v.patch);
    JoinThree(a, b, c);
    SplitJoin([a, b, c], '.');
  }

  /** Three parts joined by dots. */
  lemma JoinThree(a: string, b: string, c: string)
    ensures Join([a, b, c], '.') == a + "." + b + "." + c
  {
    assert [a, b, c][1..] == [b, c] && [b, c][1..] == [c];
    assert Join([c], '.') == c;
    assert Join([b, c], '.') == b + "." + c;
  }

  /** On a canonical `major.minor.patch` text of three integers, parsing
      then printing gives the text back. */
  lemma ToStringParse(major: int, minor: int, patch: int)
    ensures var s := IntToString(major) + "." + IntToString(minor) + "." + IntToString(patch);
      Parse(s).Success? && ToString(Parse(s).value) == s
  {
    var v := VersionNumber(Some(major), Some(minor), Some(patch));
    ParseToString(v);
  }

  /** Components after the third are ignored. */
  lemma ExtraComponentsIgnored(versionString: string, extra: string)
    requires |Split(versionString, '.')| >= 3
    ensures Parse(versionString + "." + extra) == Parse(versionString)
  {
    SplitConcat(versionString, '.', extra);
    assert versionString + "." + extra == versionString + ['.'] + extra;
    var parts := Split(versionString, '.');
    var longer := Split(versionString + "." + extra, '.');
    assert longer[0] == parts[0] && longer[1] == parts[1] && longer[2] == parts[2];
  }

  /** The library's version must be configured. */
  const MISSING_VERSION := ErrorInfo("Error", "Unable to retrieve version number from package.json", None)

  /** `getBuildNumber()`: the configured version, or an error when none is
      configured (the optional log line is not modelled). */
  function GetBuildNumber(configured: Option<string>): (r: Result<string, ErrorInfo>)
    ensures r.Failure? <==> configured.None? || configured.value == ""
    ensures r.Failure? ==> r.error == MISSING_VERSION
    ensures r.Success? ==> r.value == configured.value
  {
    if configured.None? || configured.value == "" then Failure(MISSING_VERSION)
    else Success(configured.value)
  }
}
