/**
 * String operations the source takes from JavaScript: `toLowerCase`,
 * `toUpperCase` of one character, `includes`, `Number.prototype.toString(16)`,
 * decimal rendering, and `Number("0x…")`.
 */
module Text {

  function LowerChar(c: char): (d: char)
    ensures 'A' <= c <= 'Z' ==> d as int == c as int + 32
    ensures !('A' <= c <= 'Z') ==> d == c
  {
    if 'A' <= c <= 'Z' then (c as int + 32) as char else c
  }

  function UpperChar(c: char): (d: char)
    ensures 'a' <= c <= 'z' ==> d as int == c as int - 32
    ensures !('a' <= c <= 'z') ==> d == c
  {
    if 'a' <= c <= 'z' then (c as int - 32) as char else c
  }

  /** `s.toLowerCase()` on the ASCII letters. */
  function Lower(s: string): (r: string)
    ensures |r| == |s|
    ensures forall i :: 0 <= i < |s| ==> r[i] == LowerChar(s[i])
  {
    seq(|s|, i requires 0 <= i < |s| => LowerChar(s[i]))
  }

  lemma LowerIdempotent(s: string)
    ensures Lower(Lower(s)) == Lower(s)
  {
  }

  /** `s.includes(sub)`: `sub` occurs in `s` at some position. */
  predicate Contains(s: string, sub: string)
    decreases |s|
  {
    sub <= s || (s != [] && Contains(s[1..], sub))
  }

  lemma {:induction false} ContainsAt(s: string, sub: string, i: nat)
    requires i + |sub| <= |s| && s[i..i + |sub|] == sub
    ensures Contains(s, sub)
    decreases i
  {
    if i > 0 {
      assert s[1..][i - 1..i - 1 + |sub|] == sub;
      ContainsAt(s[1..], sub, i - 1);
    }
  }

  /** `includes` as the queries use it: both sides lower-cased first. */
  predicate MatchesIgnoringCase(field: string, query: string) {
    Contains(Lower(field), Lower(query))
  }

  /** `fields.some(f => f.toLowerCase().includes(query.toLowerCase()))`. */
  predicate AnyMatchesIgnoringCase(fields: seq<string>, query: string) {
    exists i :: 0 <= i < |fields| && MatchesIgnoringCase(fields[i], query)
  }

  /** The empty query is contained in every string. */
  lemma EmptyQueryMatches(field: string)
    ensures MatchesIgnoringCase(field, "")
  {
  }

  /** Lower-casing the query first changes nothing, since the match lower-cases it anyway. */
  lemma MatchIgnoresQueryCase(field: string, query: string)
    ensures MatchesIgnoringCase(field, Lower(query)) == MatchesIgnoringCase(field, query)
  {
    LowerIdempotent(query);
  }

  /** `a.toLowerCase() === b.toLowerCase()`. */
  predicate EqualIgnoringCase(a: string, b: string) {
    Lower(a) == Lower(b)
  }

  predicate IsHexDigit(c: char) {
    '0' <= c <= '9' || 'a' <= c <= 'f' || 'A' <= c <= 'F'
  }

  function HexDigitValue(c: char): (v: nat)
    requires IsHexDigit(c)
    ensures v < 16
  {
    if '0' <= c <= '9' then c as int - '0' as int
    else if 'a' <= c <= 'f' then c as int - 'a' as int + 10
    else c as int - 'A' as int + 10
  }

  function HexDigit(v: nat): (c: char)
    requires v < 16
    ensures IsHexDigit(c) && HexDigitValue(c) == v
    ensures !('A' <= c <= 'Z')
  {
    if v < 10 then ('0' as int + v) as char else ('a' as int + v - 10) as char
  }

  predicate IsHexString(s: string) {
    forall i :: 0 <= i < |s| ==> IsHexDigit(s[i])
  }

  /** `n.toString(16)`: lower-case digits, no leading zeros. */
  function ToHex(n: nat): (s: string)
    ensures |s| >= 1 && IsHexString(s)
    ensures Lower(s) == s
  {
    if n < 16 then [HexDigit(n)] else ToHex(n / 16) + [HexDigit(n % 16)]
  }

  /** The value of a string of hex digits, most significant first. */
  function ParseHex(s: string): (n: nat)
    requires IsHexString(s)
    decreases |s|
  {
    if s == [] then 0 else ParseHex(s[..|s| - 1]) * 16 + HexDigitValue(s[|s| - 1])
  }

  lemma {:induction false} ParseHexOfToHex(n: nat)
    ensures ParseHex(ToHex(n)) == n
    decreases n
  {
    var s := ToHex(n);
    if n >= 16 {
      ParseHexOfToHex(n / 16);
      assert s[..|s| - 1] == ToHex(n / 16);
    }
  }

  /** A JavaScript hex numeric literal string, "0x" or "0X" followed by hex digits, as `Number()` accepts it. */
  predicate IsHexQuantity(s: string) {
    |s| >= 3 && s[0] == '0' && (s[1] == 'x' || s[1] == 'X') && IsHexString(s[2..])
  }

  /** `Number(s)` on a hex numeric literal string. */
  function HexQuantityValue(s: string): (n: nat)
    requires IsHexQuantity(s)
  {
    ParseHex(s[2..])
  }

  /** `"0x" + n.toString(16)`: the form a chain id is sent to the wallet in. */
  function HexQuantity(n: nat): (s: string)
    ensures IsHexQuantity(s)
    ensures HexQuantityValue(s) == n
  {
    var s := "0x" + ToHex(n);
    assert s[2..] == ToHex(n);
    ParseHexOfToHex(n);
    s
  }

  function DecimalDigit(v: nat): (c: char)
    requires v < 10
    ensures '0' <= c <= '9'
  {
    ('0' as int + v) as char
  }

  /** `String(n)` for a natural number. */
  function NatToString(n: nat): (s: string)
    ensures |s| >= 1
    ensures forall i :: 0 <= i < |s| ==> '0' <= s[i] <= '9'
  {
    if n < 10 then [DecimalDigit(n)] else NatToString(n / 10) + [DecimalDigit(n % 10)]
  }
}
