/** The US ZIP code validator: the regular expression
    `^(\d{5})(?:[-\s]\d{4})?$`, matched against the whole input. */
module ZipCodes {
  import opened Wrappers

  /** The two character classes the pattern uses. */
  datatype CharClass =
    | Digit        // Java `\d`, which without UNICODE_CHARACTER_CLASS is [0-9]
    | DashOrSpace  // `[-\s]`: a dash or one of Java's six `\s` characters

  predicate InClass(c: char, k: CharClass) {
    match k
    case Digit => '0' <= c <= '9'
    case DashOrSpace =>
      c == '-' || c == ' ' || c == '\t' || c == '\n' || c == '\U{0B}' || c == '\U{0C}' || c == '\r'
  }

  /** The mandatory group `(\d{5})`. */
  const FiveDigits: seq<CharClass> := [Digit, Digit, Digit, Digit, Digit]

  /** The optional group `(?:[-\s]\d{4})`. */
  const PlusFour: seq<CharClass> := [DashOrSpace, Digit, Digit, Digit, Digit]

  /** Matches a run of single-character classes at the start of `s`; on a
      match, returns what is left of `s`. */
  function MatchRun(p: seq<CharClass>, s: string): (r: Option<string>)
    ensures r.Some? <==> |p| <= |s| && forall i :: 0 <= i < |p| ==> InClass(s[i], p[i])
    ensures r.Some? ==> r.value == s[|p|..]
  {
    if p == [] then Some(s)
    else if s == [] || !InClass(s[0], p[0]) then None
    else MatchRun(p[1..], s[1..])
  }

  /** `ZipCodeValidator.isValidUSZipCode`: the whole of `zipCode` matches the
      pattern. After the five digits the matcher may take the optional group
      or skip it; the string is accepted when either choice reaches the end. */
  predicate IsValidUSZipCode(zipCode: string): (ok: bool)
    ensures ok ==> |zipCode| == 5 || |zipCode| == 10
  {
    match MatchRun(FiveDigits, zipCode)
    case None => false
    case Some(rest) => rest == [] || MatchRun(PlusFour, rest) == Some([])
  }

  predicate IsDigit(c: char) { InClass(c, Digit) }

  predicate IsSeparator(c: char) { InClass(c, DashOrSpace) }

  /** The accepted strings, described position by position: five digits, or
      ten characters with a separator at index 5 and digits everywhere else. */
  ghost predicate ZipShape(s: string) {
    || (|s| == 5 && forall i :: 0 <= i < 5 ==> IsDigit(s[i]))
    || (|s| == 10 && IsSeparator(s[5]) && forall i :: 0 <= i < 10 && i != 5 ==> IsDigit(s[i]))
  }

  /** The pattern matcher accepts exactly the strings of ZIP shape. */
  lemma ValidIffShape(s: string)
    ensures IsValidUSZipCode(s) <==> ZipShape(s)
  {
  }

  /** Any five characters 0-9 form a valid ZIP code. */
  lemma FiveDigitsAccepted(s: string)
    requires |s| == 5 && forall i :: 0 <= i < 5 ==> '0' <= s[i] <= '9'
    ensures IsValidUSZipCode(s)
  {
  }

  /** Five digits, a dash or whitespace character, then four digits form a
      valid ZIP+4 code. */
  lemma ZipPlusFourAccepted(s: string)
    requires |s| == 10 && IsSeparator(s[5])
    requires forall i :: 0 <= i < 10 && i != 5 ==> '0' <= s[i] <= '9'
    ensures IsValidUSZipCode(s)
  {
  }

  /** Concrete strings the validator accepts. */
  lemma AcceptedExamples()
    ensures IsValidUSZipCode("12345")
    ensures IsValidUSZipCode("12345-6789")
    ensures IsValidUSZipCode("12345\t6789")
  {
    FiveDigitsAccepted("12345");
    ZipPlusFourAccepted("12345-6789");
    ZipPlusFourAccepted("12345\t6789");
  }

  /** Concrete strings the validator rejects: too short, wrong length,
      non-digits, no separator, a separator outside `[-\s]`, a letter in the
      suffix, and the empty string. */
  lemma RejectedExamples()
    ensures !IsValidUSZipCode("1234")
    ensures !IsValidUSZipCode("123456")
    ensures !IsValidUSZipCode("abcde")
    ensures !IsValidUSZipCode("123456789")
    ensures !IsValidUSZipCode("12345_6789")
    ensures !IsValidUSZipCode("12345-678a")
    ensures !IsValidUSZipCode("")
  {
  }
}
