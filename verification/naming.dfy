/** The username a new connection logs in with (index.js:226-228):
    `${base}_${ordinal}_${suffix}` cut to 16 characters, where the base is
    the configured username or `CRYSTAL` when that is empty, the ordinal is
    the live count at creation, and the suffix is a random five-digit
    number. */
module Naming {
  import opened Text

  const DefaultBase: string := "CRYSTAL"
  /** `substring(0, 16)`. Lengths here count code points; the source
      counts UTF-16 code units, and the two agree for text without
      characters beyond U+FFFF. */
  const MaxLength: nat := 16
  const SuffixLow: nat := 10000
  /** `Math.random() * 90000` is floored into a draw below this bound. */
  const SuffixSpan: nat := 90000

  function Min(a: int, b: int): int {
    if a <= b then a else b
  }

  /** `botConfig.username || 'CRYSTAL'`: never empty, and the configured
      name whenever there is one. */
  function BaseName(configured: string): (b: string)
    ensures |b| > 0
    ensures configured != "" ==> b == configured
    ensures configured == "" ==> b == DefaultBase
  {
    if configured == "" then DefaultBase else configured
  }

  /** `Math.floor(Math.random() * 90000 + 10000)`, for the random draw
      `floor(Math.random() * 90000)`: always exactly five digits. */
  function Suffix(draw: nat): (r: nat)
    requires draw < SuffixSpan
    ensures SuffixLow <= r < SuffixLow + SuffixSpan
    ensures |NatToString(r)| == 5
  {
    var r := SuffixLow + draw;
    NatToStringLength(r, 5);
    NatToStringLength(r, 4);
    r
  }

  /** The name before the 16-character cut. */
  function FullName(base: string, ordinal: nat, suffix: nat): string {
    base + "_" + NatToString(ordinal) + "_" + NatToString(suffix)
  }

  /** The login name of the connection with the given ordinal. */
  function Username(configured: string, ordinal: nat, draw: nat): (r: string)
    requires draw < SuffixSpan
    ensures 0 < |r| <= MaxLength
  {
    var full := FullName(BaseName(configured), ordinal, Suffix(draw));
    full[..Min(MaxLength, |full|)]
  }

  /** A name always begins with the base name (as much of it as fits). */
  lemma UsernameStartsWithBase(configured: string, ordinal: nat, draw: nat)
    requires draw < SuffixSpan
    ensures var b := BaseName(configured);
            var n := Min(MaxLength, |b|);
            Username(configured, ordinal, draw)[..n] == b[..n]
  {
  }

  /** When the whole name fits in 16 characters it is not cut: it is the
      base, an underscore, the ordinal's digits, an underscore and the five
      suffix digits, and both numbers can be read back from it. */
  lemma UsernameSuffixReadable(configured: string, ordinal: nat, draw: nat)
    requires draw < SuffixSpan
    requires |BaseName(configured)| + |NatToString(ordinal)| + 7 <= MaxLength
    ensures var r := Username(configured, ordinal, draw);
            var b := BaseName(configured);
            && |r| == |b| + |NatToString(ordinal)| + 7
            && r[..|b|] == b && r[|b|] == '_' && r[|r| - 6] == '_'
            && ParseDecimal(r[|b| + 1..|r| - 6]) == ordinal
            && (forall i :: |r| - 5 <= i < |r| ==> IsDigit(r[i]))
            && ParseDecimal(r[|r| - 5..]) == Suffix(draw)
  {
    var s := Suffix(draw);
    var b := BaseName(configured);
    var digits := NatToString(ordinal);
    var full := FullName(b, ordinal, s);
    assert full == b + "_" + digits + "_" + NatToString(s);
    assert |full| == |b| + |digits| + 7;
    assert Username(configured, ordinal, draw) == full;
    assert full[..|b|] == b;
    assert full[|b| + 1..|full| - 6] == digits;
    assert full[|full| - 5..] == NatToString(s);
    assert full[|full| - 6] == '_';
    ParseNatToString(ordinal);
    ParseNatToString(s);
  }

  /** With the shipped default base `GODX`, ordinals below 100000 never
      need the cut. */
  lemma DefaultNameFits(ordinal: nat, draw: nat)
    requires draw < SuffixSpan && ordinal < 100000
    ensures |Username("GODX", ordinal, draw)| == 11 + |NatToString(ordinal)|
  {
    NatToStringLength(ordinal, 5);
    UsernameSuffixReadable("GODX", ordinal, draw);
  }

  /** A base of 16 characters or more leaves no room for the ordinal or
      the suffix: every connection gets the same name. */
  lemma LongBaseCollides(configured: string, i: nat, j: nat, d: nat, e: nat)
    requires d < SuffixSpan && e < SuffixSpan
    requires |configured| >= MaxLength
    ensures Username(configured, i, d) == Username(configured, j, e) == configured[..MaxLength]
  {
    var fi := FullName(BaseName(configured), i, Suffix(d));
    var fj := FullName(BaseName(configured), j, Suffix(e));
    assert fi[..MaxLength] == configured[..MaxLength];
    assert fj[..MaxLength] == configured[..MaxLength];
  }
}
