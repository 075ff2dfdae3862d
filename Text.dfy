/** The string operations the pages use, restricted to ASCII: lower-casing,
    substring search, blank test (`trim()` giving the empty string) and the
    position of the first occurrence of a character. */
module Text {

  /** `toLowerCase` on one ASCII character; every other character is kept. */
  function LowerChar(c: char): char {
    if 'A' <= c <= 'Z' then (c as int + 32) as char else c
  }

  /** `toLowerCase` on a string, character by character. */
  function Lower(s: string): string {
    seq(|s|, i requires 0 <= i < |s| => LowerChar(s[i]))
  }

  /** `sub` occurs in `s` starting at index `i`. */
  predicate OccursAt(s: string, sub: string, i: int) {
    0 <= i && i + |sub| <= |s| && s[i..i + |sub|] == sub
  }

  /** `s.includes(sub)`: the leftmost-first scan over the start positions. */
  function Includes(s: string, sub: string): bool
    decreases |s|
  {
    if |sub| > |s| then false
    else if s[..|sub|] == sub then true
    else Includes(s[1..], sub)
  }

  /** The scan finds `sub` exactly when it occurs somewhere in `s`. */
  lemma {:induction false} IncludesIffOccurs(s: string, sub: string)
    ensures Includes(s, sub) <==> exists i :: OccursAt(s, sub, i)
    decreases |s|
  {
    if |sub| > |s| {
      forall i | OccursAt(s, sub, i) ensures false { }
    } else if s[..|sub|] == sub {
      assert OccursAt(s, sub, 0);
    } else {
      IncludesIffOccurs(s[1..], sub);
      if exists i :: OccursAt(s[1..], sub, i) {
        var i :| OccursAt(s[1..], sub, i);
        assert s[1..][i..i + |sub|] == s[i + 1..i + 1 + |sub|];
        assert OccursAt(s, sub, i + 1);
      }
      if exists j :: OccursAt(s, sub, j) {
        var j :| OccursAt(s, sub, j);
        assert j != 0;
        assert s[1..][j - 1..j - 1 + |sub|] == s[j..j + |sub|];
        assert OccursAt(s[1..], sub, j - 1);
      }
    }
  }

  /** The whitespace `String.prototype.trim` strips, restricted to ASCII. */
  predicate IsSpace(c: char) {
    c == ' ' || c == '\t' || c == '\n' || c == '\r' || c == '\U{000B}' || c == '\U{000C}'
  }

  /** `!s.trim()`: nothing but whitespace (the empty string included). */
  predicate IsBlank(s: string) {
    forall i :: 0 <= i < |s| ==> IsSpace(s[i])
  }

  /** Index of the first `c` in `s`, or `|s|` when there is none. */
  function FirstIndexOf(c: char, s: string): (k: nat)
    ensures k <= |s|
    ensures forall i :: 0 <= i < k ==> s[i] != c
    ensures k < |s| ==> s[k] == c
  {
    if s == [] then 0
    else if s[0] == c then 0
    else 1 + FirstIndexOf(c, s[1..])
  }

  /** When `x` holds no `c` and `y` is empty or starts with `c`, the first
      `c` of `x + y` sits right after `x`. */
  lemma {:induction false} FirstIndexAfterPrefix(c: char, x: string, y: string)
    requires forall i :: 0 <= i < |x| ==> x[i] != c
    requires y == [] || y[0] == c
    ensures FirstIndexOf(c, x + y) == |x|
    decreases |x|
  {
    if x != [] {
      assert (x + y)[1..] == x[1..] + y;
      FirstIndexAfterPrefix(c, x[1..], y);
    }
  }

  predicate IsDigit(c: char) {
    '0' <= c <= '9'
  }

  function DigitChar(d: nat): (c: char)
    requires d < 10
    ensures IsDigit(c) && c as int - '0' as int == d
  {
    ('0' as int + d) as char
  }

  /** The decimal numeral of a number, as a template string prints it. */
  function NatToString(n: nat): string
    decreases n
  {
    if n < 10 then [DigitChar(n)] else NatToString(n / 10) + [DigitChar(n % 10)]
  }

  /** The number a string of decimal digits denotes. */
  function DigitsValue(s: string): int
    decreases |s|
  {
    if s == [] then 0 else 10 * DigitsValue(s[..|s| - 1]) + (s[|s| - 1] as int - '0' as int)
  }

  /** A numeral is a non-empty string of digits that reads back as its number. */
  lemma {:induction false} NatToStringDenotes(n: nat)
    ensures |NatToString(n)| > 0
    ensures forall i :: 0 <= i < |NatToString(n)| ==> IsDigit(NatToString(n)[i])
    ensures DigitsValue(NatToString(n)) == n
    decreases n
  {
    if n >= 10 {
      NatToStringDenotes(n / 10);
      var s := NatToString(n);
      assert s[..|s| - 1] == NatToString(n / 10);
    }
  }
}
