/**
 * Player identifiers: 128-bit values written, as `java.util.UUID` writes
 * them, as 32 hexadecimal digits in groups of 8-4-4-4-12 joined by dashes.
 */
module Uuids {
  import opened Wrappers

  /** One hexadecimal digit's value. */
  type Nibble = n: int | 0 <= n < 16

  /** The 32 hexadecimal digits of a 128-bit identifier, most significant first. */
  datatype UuidValue = UuidValue(nibbles: seq<Nibble>)

  type Uuid = u: UuidValue | |u.nibbles| == 32
    witness UuidValue([0, 0, 0, 0, 0, 0, 0, 0, 0, 0, 0, 0, 0, 0, 0, 0,
                       0, 0, 0, 0, 0, 0, 0, 0, 0, 0, 0, 0, 0, 0, 0, 0])

  /** The lower-case digit `UUID.toString` writes for `n`. */
  function HexDigit(n: Nibble): (c: char)
  {
    if n < 10 then ('0' as int + n) as char else ('a' as int + n - 10) as char
  }

  /** The value of a hexadecimal digit in either case, or None for any other character. */
  function HexValue(c: char): (r: Option<Nibble>)
    ensures r.Some? <==> ('0' <= c <= '9' || 'a' <= c <= 'f' || 'A' <= c <= 'F')
  {
    if '0' <= c <= '9' then Some(c as int - '0' as int)
    else if 'a' <= c <= 'f' then Some(c as int - 'a' as int + 10)
    else if 'A' <= c <= 'F' then Some(c as int - 'A' as int + 10)
    else None
  }

  lemma HexValueOfDigit(n: Nibble)
    ensures HexValue(HexDigit(n)) == Some(n)
  {
  }

  /** The digits of `s` when every character of `s` is a hexadecimal digit. */
  function ParseHex(s: string): (r: Option<seq<Nibble>>)
    ensures r.Some? <==> forall i :: 0 <= i < |s| ==> HexValue(s[i]).Some?
    ensures r.Some? ==> |r.value| == |s| && forall i :: 0 <= i < |s| ==> HexValue(s[i]) == Some(r.value[i])
  {
    if forall i :: 0 <= i < |s| ==> HexValue(s[i]).Some?
    then Some(seq(|s|, i requires 0 <= i < |s| => HexValue(s[i]).value))
    else None
  }

  /** Where the `j`th of the 32 digits stands in the 36-character form. */
  function DigitPosition(j: nat): (p: nat)
    requires j < 32
    ensures p < 36 && !IsDashPosition(p)
  {
    if j < 8 then j else if j < 12 then j + 1 else if j < 16 then j + 2 else if j < 20 then j + 3 else j + 4
  }

  /** The digit that stands at a non-dash position `p` of the 36-character form. */
  function DigitIndex(p: nat): (j: nat)
    requires p < 36 && !IsDashPosition(p)
    ensures j < 32 && DigitPosition(j) == p
  {
    if p < 8 then p else if p < 13 then p - 1 else if p < 18 then p - 2 else if p < 23 then p - 3 else p - 4
  }

  predicate IsDashPosition(p: nat)
  {
    p == 8 || p == 13 || p == 18 || p == 23
  }

  /** `UUID.toString`: groups of 8, 4, 4, 4 and 12 lower-case digits joined by dashes. */
  function FormatUuid(u: Uuid): (s: string)
    ensures |s| == 36
    ensures ' ' !in s && ':' !in s
    ensures DashesInPlace(s)
    ensures forall j :: 0 <= j < 32 ==> s[DigitPosition(j)] == HexDigit(u.nibbles[j])
  {
    seq(36, p requires 0 <= p < 36 =>
      if IsDashPosition(p) then '-' else HexDigit(u.nibbles[DigitIndex(p)]))
  }

  /** The 32 digit positions of the canonical form, dashes removed. */
  function DigitsOf(s: string): (d: string)
    requires |s| == 36
    ensures |d| == 32
    ensures forall j :: 0 <= j < 32 ==> d[j] == s[DigitPosition(j)]
  {
    seq(32, j requires 0 <= j < 32 => s[DigitPosition(j)])
  }

  predicate DashesInPlace(s: string)
  {
    |s| == 36 && s[8] == '-' && s[13] == '-' && s[18] == '-' && s[23] == '-'
  }

  /**
   * `UUID.fromString` on the canonical form: 36 characters, dashes at
   * positions 8, 13, 18 and 23, and a hexadecimal digit in either case
   * everywhere else. A string of that form is accepted and every other
   * string is rejected.
   */
  function ParseUuid(s: string): (r: Option<Uuid>)
    ensures r.Some? ==> DashesInPlace(s)
    ensures r.Some? ==> forall j :: 0 <= j < 32 ==> HexValue(s[DigitPosition(j)]) == Some(r.value.nibbles[j])
    ensures DashesInPlace(s) && (forall j :: 0 <= j < 32 ==> HexValue(s[DigitPosition(j)]).Some?) ==> r.Some?
  {
    if DashesInPlace(s) then
      match ParseHex(DigitsOf(s))
      case Some(ns) => Some(UuidValue(ns))
      case None => None
    else None
  }

  /** Formatting and then parsing gives back the same identifier. */
  lemma FormatThenParse(u: Uuid)
    ensures ParseUuid(FormatUuid(u)) == Some(u)
  {
    var s := FormatUuid(u);
    var n := u.nibbles;
    var d := DigitsOf(s);
    forall j | 0 <= j < 32 ensures HexValue(d[j]) == Some(n[j]) {
      HexValueOfDigit(n[j]);
    }
    var p := ParseHex(d);
    assert p.Some?;
    assert p.value == n;
  }

  /** The character with 'A' to 'F' replaced by 'a' to 'f'. */
  function LowerHex(c: char): char
  {
    if 'A' <= c <= 'F' then (c as int - 'A' as int + 'a' as int) as char else c
  }

  /**
   * Parsing and then formatting gives back the input with its hexadecimal
   * digits in lower case: two strings name the same player exactly when
   * they differ only in the case of their digits.
   */
  lemma ParseThenFormat(s: string, u: Uuid)
    requires ParseUuid(s) == Some(u)
    ensures |s| == 36
    ensures FormatUuid(u) == seq(36, i requires 0 <= i < 36 => LowerHex(s[i]))
  {
    var f := FormatUuid(u);
    forall i | 0 <= i < 36 ensures f[i] == LowerHex(s[i]) {
      if !IsDashPosition(i) {
        var j := DigitIndex(i);
        assert HexValue(s[i]) == Some(u.nibbles[j]);
      }
    }
  }
}
