/** The client's mapping from an ISO 3166-1 alpha-2 country code to the
    flag emoji shown beside the counter and in the leaderboard: the code is
    upper-cased and every character is shifted into the Unicode block of
    regional indicator symbols (U+1F1E6 'A' ... U+1F1FF 'Z'). */
module CountryFlag {
  import opened Wrappers

  /** Distance from an upper-case Latin letter to its regional indicator symbol. */
  const RegionalOffset: int := 127397

  /** Regional indicator symbol letters A and Z. */
  const RegionalA: int := 0x1F1E6
  const RegionalZ: int := 0x1F1FF

  predicate IsLetter(c: char) {
    'A' <= c <= 'Z' || 'a' <= c <= 'z'
  }

  predicate IsUpperLetter(c: char) {
    'A' <= c <= 'Z'
  }

  /** A code made only of Latin letters, in either case. */
  predicate IsLetterCode(s: string) {
    forall i :: 0 <= i < |s| ==> IsLetter(s[i])
  }

  /** A code made only of upper-case Latin letters, as the client stores it. */
  predicate IsUpperCode(s: string) {
    forall i :: 0 <= i < |s| ==> IsUpperLetter(s[i])
  }

  /** The characters a regular expression `.` does not match without the `s` flag. */
  predicate IsLineTerminator(c: char) {
    c == '\n' || c == '\r' || c == '\U{2028}' || c == '\U{2029}'
  }

  /** `String.prototype.toUpperCase` on one character, for the Latin alphabet. */
  function UpperChar(c: char): char {
    if 'a' <= c <= 'z' then (c as int - 32) as char else c
  }

  /** `String.prototype.toUpperCase`: one character in, one character out. */
  function ToUpper(s: string): (r: string)
    ensures |r| == |s|
    ensures forall i :: 0 <= i < |s| ==> r[i] == UpperChar(s[i])
  {
    if s == [] then [] else [UpperChar(s[0])] + ToUpper(s[1..])
  }

  /** The code point that the `replace(/./g, ...)` callback produces for one
      character; line terminators are not matched by `.` and stay as they are. */
  function FlagUnit(c: char): int {
    if IsLineTerminator(c) then c as int else RegionalOffset + c as int
  }

  /** Applies `FlagUnit` to every character of an already upper-cased code. */
  function FlagUnits(s: string): (r: seq<int>)
    ensures |r| == |s|
    ensures forall i :: 0 <= i < |s| ==> r[i] == FlagUnit(s[i])
  {
    if s == [] then [] else [FlagUnit(s[0])] + FlagUnits(s[1..])
  }

  /** `countryCodeToFlag`: upper-case the code, then map each character to
      `127397 + charCode`; the result is given as its sequence of code points. */
  function CountryCodeToFlag(cc: string): (flag: seq<int>)
    ensures |flag| == |cc|
    ensures forall i :: 0 <= i < |cc| ==> flag[i] == FlagUnit(UpperChar(cc[i]))
  {
    FlagUnits(ToUpper(cc))
  }

  /** Reads a flag back as a country code: defined exactly when every code
      point is a regional indicator letter. Used only to state injectivity. */
  function FlagToCountryCode(flag: seq<int>): (r: Option<string>)
    ensures r.Some? ==> |r.value| == |flag| && IsUpperCode(r.value)
  {
    if flag == [] then Some([])
    else if RegionalA <= flag[0] <= RegionalZ then
      match FlagToCountryCode(flag[1..])
      case None => None
      case Some(rest) => Some([(flag[0] - RegionalOffset) as char] + rest)
    else None
  }

  /** Upper-casing twice is upper-casing once. */
  lemma UpperIdempotent(s: string)
    ensures ToUpper(ToUpper(s)) == ToUpper(s)
  {
    var u := ToUpper(s);
    assert forall i :: 0 <= i < |u| ==> ToUpper(u)[i] == u[i];
  }

  /** An upper-case code is its own upper-cased form. */
  lemma UpperOfUpperCode(s: string)
    requires IsUpperCode(s)
    ensures ToUpper(s) == s
  {
    assert forall i :: 0 <= i < |s| ==> ToUpper(s)[i] == s[i];
  }

  /** The flag does not depend on the case of the code it is drawn from, so the
      flag of the raw lookup result equals the flag of the stored, upper-cased code. */
  lemma FlagIgnoresCase(cc: string)
    ensures CountryCodeToFlag(ToUpper(cc)) == CountryCodeToFlag(cc)
  {
    UpperIdempotent(cc);
  }

  /** Every character of a letter code lands on a regional indicator letter. */
  lemma FlagOfLetters(cc: string)
    requires IsLetterCode(cc)
    ensures forall i :: 0 <= i < |cc| ==> RegionalA <= CountryCodeToFlag(cc)[i] <= RegionalZ
  {
  }

  /** Reading the flag of a letter code back gives the upper-cased code. */
  lemma {:induction false} FlagRoundTrip(cc: string)
    requires IsLetterCode(cc)
    ensures FlagToCountryCode(CountryCodeToFlag(cc)) == Some(ToUpper(cc))
  {
    if cc != [] {
      var flag := CountryCodeToFlag(cc);
      assert flag[1..] == CountryCodeToFlag(cc[1..]);
      FlagRoundTrip(cc[1..]);
      assert ToUpper(cc) == [UpperChar(cc[0])] + ToUpper(cc[1..]);
    }
  }

  /** Two letter codes have the same flag exactly when they agree up to case;
      on upper-case codes the mapping is therefore injective. */
  lemma FlagsEqualIff(a: string, b: string)
    requires IsLetterCode(a) && IsLetterCode(b)
    ensures CountryCodeToFlag(a) == CountryCodeToFlag(b) <==> ToUpper(a) == ToUpper(b)
  {
    FlagRoundTrip(a);
    FlagRoundTrip(b);
    FlagIgnoresCase(a);
    FlagIgnoresCase(b);
  }

  /** Injectivity on upper-case codes, the form the client stores. */
  lemma FlagInjective(a: string, b: string)
    requires IsUpperCode(a) && IsUpperCode(b)
    requires CountryCodeToFlag(a) == CountryCodeToFlag(b)
    ensures a == b
  {
    assert IsLetterCode(a) && IsLetterCode(b);
    FlagsEqualIff(a, b);
    UpperOfUpperCode(a);
    UpperOfUpperCode(b);
  }
}
