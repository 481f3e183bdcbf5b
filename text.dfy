/** String helpers the app relies on from Swift's standard library and Foundation:
    substring search (`String.contains`), lowercasing and decimal interpolation of an `Int`. */
module Text {

  /** `p` is a prefix of `s`. */
  predicate IsPrefix(p: string, s: string)
  {
    |p| <= |s| && s[..|p|] == p
  }

  /** Substring search over the characters of `s`, as `s.contains(sub)`. */
  predicate Contains(s: string, sub: string)
    ensures IsPrefix(sub, s) ==> Contains(s, sub)
    ensures Contains(s, sub) ==> |sub| <= |s|
    decreases |s|
  {
    IsPrefix(sub, s) || (|s| > 0 && Contains(s[1..], sub))
  }

  /** `sub` occurs in `s` starting at position `i`. */
  ghost predicate OccursAt(s: string, sub: string, i: int)
  {
    0 <= i && i + |sub| <= |s| && s[i..i + |sub|] == sub
  }

  /** The recursive search finds `sub` exactly when it occurs somewhere in `s`. */
  lemma {:induction false} ContainsIffOccurs(s: string, sub: string)
    ensures Contains(s, sub) <==> exists i :: OccursAt(s, sub, i)
    decreases |s|
  {
    if IsPrefix(sub, s) {
      assert OccursAt(s, sub, 0);
    } else if |s| == 0 {
    } else {
      ContainsIffOccurs(s[1..], sub);
      if Contains(s[1..], sub) {
        var i :| OccursAt(s[1..], sub, i);
        assert s[1..][i..i + |sub|] == s[i + 1..i + 1 + |sub|];
        assert OccursAt(s, sub, i + 1);
      }
      if i :| OccursAt(s, sub, i) {
        assert i != 0;
        assert s[1..][i - 1..i - 1 + |sub|] == s[i..i + |sub|];
        assert OccursAt(s[1..], sub, i - 1);
      }
    }
  }

  predicate IsAsciiUpper(c: char)
  {
    'A' <= c <= 'Z'
  }

  predicate IsAsciiLetter(c: char)
  {
    IsAsciiUpper(c) || 'a' <= c <= 'z'
  }

  function LowerChar(c: char): (r: char)
    ensures IsAsciiUpper(c) ==> 'a' <= r <= 'z' && r as int == c as int + 32
    ensures !IsAsciiUpper(c) ==> r == c
  {
    if IsAsciiUpper(c) then (c as int + 32) as char else c
  }

  /** `String.lowercased()` restricted to the ASCII letters. */
  function Lowercased(s: string): (r: string)
    ensures |r| == |s|
    ensures forall i :: 0 <= i < |s| ==> r[i] == LowerChar(s[i])
  {
    seq(|s|, i requires 0 <= i < |s| => LowerChar(s[i]))
  }

  /** A key made of characters that have no ASCII case (such as Hangul) is found in
      the lowercased text exactly when it is found in the original text. */
  lemma CaselessKeyUnaffectedByLowercasing(s: string, key: string)
    requires forall j :: 0 <= j < |key| ==> !IsAsciiLetter(key[j])
    ensures Contains(Lowercased(s), key) <==> Contains(s, key)
  {
    var low := Lowercased(s);
    forall i | 0 <= i && i + |key| <= |s|
      ensures OccursAt(low, key, i) <==> OccursAt(s, key, i)
    {
      if OccursAt(s, key, i) {
        forall j | 0 <= j < |key| ensures low[i + j] == key[j] {
          assert s[i..i + |key|][j] == key[j];
        }
        assert low[i..i + |key|] == key;
      }
      if OccursAt(low, key, i) {
        forall j | 0 <= j < |key| ensures s[i + j] == key[j] {
          assert low[i..i + |key|][j] == key[j];
          assert LowerChar(s[i + j]) == key[j];
        }
        assert s[i..i + |key|] == key;
      }
    }
    ContainsIffOccurs(low, key);
    ContainsIffOccurs(s, key);
    if Contains(low, key) {
      var i :| OccursAt(low, key, i);
      assert OccursAt(s, key, i);
    }
    if Contains(s, key) {
      var i :| OccursAt(s, key, i);
      assert OccursAt(low, key, i);
    }
  }

  function DigitChar(d: nat): (c: char)
    requires d < 10
    ensures '0' <= c <= '9' && c as int - '0' as int == d
  {
    ('0' as int + d) as char
  }

  /** The decimal digits of `n`, most significant first, without leading zeros. */
  function NatDigits(n: nat): (r: string)
    ensures |r| > 0
    ensures forall i :: 0 <= i < |r| ==> '0' <= r[i] <= '9'
    ensures n > 0 ==> r[0] != '0'
    ensures n == 0 ==> r == "0"
  {
    if n < 10 then [DigitChar(n)] else NatDigits(n / 10) + [DigitChar(n % 10)]
  }

  /** String interpolation `"\(n)"` of a Swift `Int`. */
  function IntString(n: int): (r: string)
    ensures |r| > 0
    ensures r[0] == '-' <==> n < 0
    ensures forall i :: (if n < 0 then 1 else 0) <= i < |r| ==> '0' <= r[i] <= '9'
    ensures n < 0 ==> |r| > 1
    ensures n != 0 ==> r[if n < 0 then 1 else 0] != '0'
    ensures n == 0 ==> r == "0"
  {
    if n < 0 then
      var digits := NatDigits(-n);
      assert ("-" + digits)[1] == digits[0];
      "-" + digits
    else NatDigits(n)
  }

  /** Value of a string of decimal digits. */
  function DigitsValue(s: string): int
  {
    if s == [] then 0 else DigitsValue(s[..|s| - 1]) * 10 + (s[|s| - 1] as int - '0' as int)
  }

  /** Reads back a decimal integer with an optional leading minus sign. */
  function ParseInt(s: string): int
  {
    if |s| > 0 && s[0] == '-' then -DigitsValue(s[1..]) else DigitsValue(s)
  }

  lemma {:induction false} NatDigitsRoundTrip(n: nat)
    ensures DigitsValue(NatDigits(n)) == n
  {
    if n >= 10 {
      NatDigitsRoundTrip(n / 10);
      var r := NatDigits(n);
      assert r[..|r| - 1] == NatDigits(n / 10);
    }
  }

  /** Interpolating an integer loses nothing: the digits read back as the same value. */
  lemma IntStringRoundTrip(n: int)
    ensures ParseInt(IntString(n)) == n
  {
    if n < 0 {
      NatDigitsRoundTrip(-n);
      assert IntString(n)[1..] == NatDigits(-n);
    } else {
      NatDigitsRoundTrip(n);
    }
  }

  /** Different integers interpolate to different strings. */
  lemma IntStringInjective(a: int, b: int)
    requires IntString(a) == IntString(b)
    ensures a == b
  {
    IntStringRoundTrip(a);
    IntStringRoundTrip(b);
  }
}
