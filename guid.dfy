/**
 * `generateGuid` of src/Canvas/utility.js: 32 upper-case hex digits with a
 * hyphen written before digits 8, 12, 16 and 20. The digits the source
 * draws with `Math.random` are an input here.
 */
module Guid {
  import opened Wrappers

  /** A value of `Math.floor(Math.random() * 16)`. */
  type HexDigit = d: int | 0 <= d < 16

  predicate IsHexChar(c: char) {
    '0' <= c <= '9' || 'A' <= c <= 'F'
  }

  /** `d.toString(16).toUpperCase()`: one upper-case hex character, which reads back as `d`. */
  function HexChar(d: HexDigit): (c: char)
    ensures IsHexChar(c)
    ensures HexValue(c) == Some(d)
  {
    if d < 10 then ('0' as int + d) as char else ('A' as int + d - 10) as char
  }

  /** The digit an upper-case hex character stands for, if it is one. */
  function HexValue(c: char): (r: Option<HexDigit>)
    ensures r.Some? <==> IsHexChar(c)
  {
    if '0' <= c <= '9' then Some(c as int - '0' as int)
    else if 'A' <= c <= 'F' then Some(c as int - 'A' as int + 10)
    else None
  }

  /** The loop writes a hyphen just before digit `j` for these `j`. */
  predicate HyphenBefore(j: int) {
    j == 8 || j == 12 || j == 16 || j == 20
  }

  /** The string positions where those hyphens land. */
  predicate HyphenAt(k: int) {
    k == 8 || k == 13 || k == 18 || k == 23
  }

  /** How many hyphens the loop has written before it reaches digit `j`. */
  function HyphensBefore(j: int): nat {
    (if j > 8 then 1 else 0) + (if j > 12 then 1 else 0) +
    (if j > 16 then 1 else 0) + (if j > 20 then 1 else 0)
  }

  /** The string position of digit `j`. */
  function Slot(j: int): int {
    j + HyphensBefore(j + 1)
  }

  /** How many hyphen positions lie below string position `k`. */
  function HyphensBelow(k: int): nat {
    (if k > 8 then 1 else 0) + (if k > 13 then 1 else 0) +
    (if k > 18 then 1 else 0) + (if k > 23 then 1 else 0)
  }

  /** The digit written at a non-hyphen string position. */
  function DigitIndex(k: int): (j: int)
    requires 0 <= k < 36 && !HyphenAt(k)
    ensures 0 <= j < 32 && Slot(j) == k
  {
    k - HyphensBelow(k)
  }

  /** `s` is the identifier `generateGuid` produces from `digits`. */
  predicate IsGuidFor(s: string, digits: seq<HexDigit>) {
    |digits| == 32 && |s| == 36 &&
    (forall k :: 0 <= k < 36 ==> (s[k] == '-' <==> HyphenAt(k))) &&
    (forall j :: 0 <= j < 32 ==> s[Slot(j)] == HexChar(digits[j]))
  }

  /** `generateGuid()`, with the 32 random digits as a parameter. */
  method GenerateGuid(digits: seq<HexDigit>) returns (result: string)
    requires |digits| == 32
    ensures IsGuidFor(result, digits)
  {
    result := "";
    for j := 0 to 32
      invariant |result| == j + HyphensBefore(j)
      invariant forall k :: 0 <= k < |result| ==> (result[k] == '-' <==> HyphenAt(k))
      invariant forall i :: 0 <= i < j ==> result[Slot(i)] == HexChar(digits[i])
    {
      if HyphenBefore(j) {
        result := result + "-";
      }
      result := result + [HexChar(digits[j])];
    }
  }

  /** Reads the digits back out of an identifier, if it has the identifier layout. */
  function ParseGuid(s: string): (r: Option<seq<HexDigit>>)
    ensures r.Some? ==> IsGuidFor(s, r.value)
  {
    if |s| == 36 &&
       (forall k :: 0 <= k < 36 ==> (s[k] == '-' <==> HyphenAt(k))) &&
       (forall j :: 0 <= j < 32 ==> IsHexChar(s[Slot(j)]))
    then Some(seq(32, j requires 0 <= j < 32 => HexValue(s[Slot(j)]).value))
    else None
  }

  /** An identifier gives back the digits it was made from. */
  lemma GuidRoundTrip(s: string, digits: seq<HexDigit>)
    requires IsGuidFor(s, digits)
    ensures ParseGuid(s) == Some(digits)
  {
    assert forall j :: 0 <= j < 32 ==> IsHexChar(s[Slot(j)]);
    assert ParseGuid(s).value == digits;
  }

  /** Different digit sequences never give the same identifier. */
  lemma GuidInjective(s: string, d1: seq<HexDigit>, d2: seq<HexDigit>)
    requires IsGuidFor(s, d1) && IsGuidFor(s, d2)
    ensures d1 == d2
  {
    GuidRoundTrip(s, d1);
    GuidRoundTrip(s, d2);
  }

  /** The number of times `c` occurs in `s`. */
  function Occurrences(s: string, c: char): nat {
    if s == [] then 0 else Occurrences(s[..|s| - 1], c) + (if s[|s| - 1] == c then 1 else 0)
  }

  lemma {:induction false} HyphensInPrefix(s: string, digits: seq<HexDigit>, k: nat)
    requires IsGuidFor(s, digits) && k <= 36
    ensures Occurrences(s[..k], '-') == HyphensBelow(k)
  {
    if k > 0 {
      assert s[..k][..k - 1] == s[..k - 1];
      HyphensInPrefix(s, digits, k - 1);
    }
  }

  /** An identifier has exactly 4 hyphens and 32 upper-case hex characters. */
  lemma GuidCharacters(s: string, digits: seq<HexDigit>)
    requires IsGuidFor(s, digits)
    ensures Occurrences(s, '-') == 4
    ensures |s| - Occurrences(s, '-') == 32
    ensures forall k :: 0 <= k < |s| && s[k] != '-' ==> IsHexChar(s[k])
  {
    HyphensInPrefix(s, digits, 36);
    assert s[..36] == s;
    forall k | 0 <= k < |s| && s[k] != '-'
      ensures IsHexChar(s[k])
    {
      var j := DigitIndex(k);
      assert s[Slot(j)] == HexChar(digits[j]);
    }
  }
}
