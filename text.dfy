/**
 * String helpers the screens and hooks rely on: `trim`, `toLowerCase` and
 * `includes` from the JavaScript runtime, restricted to ASCII, and the
 * decimal rendering JavaScript uses when a number is placed in a template
 * literal.
 */
module Text {

  /** The ASCII characters that `String.prototype.trim` removes. */
  predicate IsSpace(c: char) {
    c == ' ' || c == '\t' || c == '\n' || c == '\r' || c as int == 11 || c as int == 12
  }

  predicate IsUpper(c: char) { 'A' <= c <= 'Z' }

  /** The lower-case letter of an upper-case ASCII letter, any other character unchanged. */
  function LowerChar(c: char): (d: char)
    ensures !IsUpper(d)
    ensures IsUpper(c) ==> d as int == c as int + 32
    ensures !IsUpper(c) ==> d == c
  {
    if IsUpper(c) then (c as int + 32) as char else c
  }

  /** `toLowerCase`, restricted to ASCII letters. */
  function ToLower(s: string): (r: string)
    ensures |r| == |s|
    ensures forall k :: 0 <= k < |s| ==> r[k] == LowerChar(s[k])
    ensures forall k :: 0 <= k < |r| ==> !IsUpper(r[k])
  {
    seq(|s|, k requires 0 <= k < |s| => LowerChar(s[k]))
  }

  lemma ToLowerIdempotent(s: string)
    ensures ToLower(ToLower(s)) == ToLower(s)
  {
  }

  /** Drops the leading whitespace of `s`. */
  function TrimStart(s: string): (r: string)
    ensures |r| <= |s| && r == s[|s| - |r|..]
    ensures forall k :: 0 <= k < |s| - |r| ==> IsSpace(s[k])
    ensures r == [] || !IsSpace(r[0])
  {
    if s != [] && IsSpace(s[0]) then TrimStart(s[1..]) else s
  }

  /** Drops the trailing whitespace of `s`. */
  function TrimEnd(s: string): (r: string)
    ensures |r| <= |s| && r == s[..|r|]
    ensures forall k :: |r| <= k < |s| ==> IsSpace(s[k])
    ensures r == [] || !IsSpace(r[|r| - 1])
  {
    if s != [] && IsSpace(s[|s| - 1]) then TrimEnd(s[..|s| - 1]) else s
  }

  /** `r` is the piece of `s` at position `i`, and everything before and after it is whitespace. */
  ghost predicate TrimmedAt(s: string, r: string, i: nat) {
    OccursAt(s, r, i) &&
    (forall k :: 0 <= k < i ==> IsSpace(s[k])) &&
    (forall k :: i + |r| <= k < |s| ==> IsSpace(s[k]))
  }

  /** `trim`: the piece of `s` left when only its leading and trailing whitespace is removed;
      it neither starts nor ends with whitespace, and is empty exactly when `s` is all whitespace. */
  function Trim(s: string): (r: string)
    ensures |r| <= |s|
    ensures r == [] <==> forall k :: 0 <= k < |s| ==> IsSpace(s[k])
    ensures r != [] ==> !IsSpace(r[0]) && !IsSpace(r[|r| - 1])
    ensures exists i: nat :: TrimmedAt(s, r, i)
  {
    var front := TrimStart(s);
    var r := TrimEnd(front);
    TrimmedPiece(s, front, r);
    r
  }

  /** The end-trimmed suffix left by `TrimStart` is a piece of `s` that is empty exactly
      when `s` is all whitespace. */
  lemma TrimmedPiece(s: string, front: string, r: string)
    requires |front| <= |s| && front == s[|s| - |front|..]
    requires forall k :: 0 <= k < |s| - |front| ==> IsSpace(s[k])
    requires |r| <= |front| && r == front[..|r|]
    requires forall k :: |r| <= k < |front| ==> IsSpace(front[k])
    requires r == [] || !IsSpace(r[0])
    ensures TrimmedAt(s, r, |s| - |front|)
    ensures r == [] <==> forall k :: 0 <= k < |s| ==> IsSpace(s[k])
  {
    var i := |s| - |front|;
    assert s[i..i + |r|] == front[..|r|];
    forall k | i + |r| <= k < |s| ensures IsSpace(s[k]) {
      assert s[k] == front[k - i];
    }
    if r == [] {
      forall k | 0 <= k < |s| ensures IsSpace(s[k]) {
        if k >= i {
          assert s[k] == front[k - i];
        }
      }
    } else {
      assert s[i] == r[0];
    }
  }

  /** `q` occurs in `s` starting at position `i`. */
  ghost predicate OccursAt(s: string, q: string, i: nat) {
    i + |q| <= |s| && s[i..i + |q|] == q
  }

  /** `q` occurs somewhere in `s`. */
  ghost predicate Occurs(s: string, q: string) {
    exists i: nat :: OccursAt(s, q, i)
  }

  /** `s.includes(q)`, computed by scanning `s` from the left: true exactly when `q` occurs
      in `s`. */
  function Contains(s: string, q: string): (r: bool)
    ensures r <==> Occurs(s, q)
  {
    if |q| <= |s| && s[..|q|] == q then
      assert OccursAt(s, q, 0);
      true
    else if s == [] then
      assert !Occurs(s, q) by {
        forall i: nat ensures !OccursAt(s, q, i) {
          assert |q| > 0;
        }
      }
      false
    else
      OccursInTail(s, q);
      Contains(s[1..], q)
  }

  /** When `q` is not a prefix of `s`, it occurs in `s` exactly when it occurs in the tail. */
  lemma OccursInTail(s: string, q: string)
    requires s != [] && !(|q| <= |s| && s[..|q|] == q)
    ensures Occurs(s, q) <==> Occurs(s[1..], q)
  {
    if Occurs(s[1..], q) {
      var i: nat :| OccursAt(s[1..], q, i);
      assert s[i + 1..i + 1 + |q|] == s[1..][i..i + |q|];
      assert OccursAt(s, q, i + 1);
    }
    if Occurs(s, q) {
      var i: nat :| OccursAt(s, q, i);
      if i > 0 {
        assert s[1..][i - 1..i - 1 + |q|] == s[i..i + |q|];
        assert OccursAt(s[1..], q, i - 1);
      }
    }
  }

  predicate IsDigit(c: char) { '0' <= c <= '9' }

  function DigitChar(d: nat): (c: char)
    requires d < 10
    ensures IsDigit(c)
  {
    ('0' as int + d) as char
  }

  /** The decimal digits of `n`, most significant first, without leading zeros. */
  function NatToString(n: nat): (r: string)
    ensures r != []
    ensures forall k :: 0 <= k < |r| ==> IsDigit(r[k])
  {
    if n < 10 then [DigitChar(n)] else NatToString(n / 10) + [DigitChar(n % 10)]
  }

  /** How JavaScript renders an integer in a template literal. */
  function IntToString(n: int): (r: string)
    ensures r != []
    ensures forall k :: 0 <= k < |r| ==> r[k] != ' '
    ensures IsDigit(r[0]) || r[0] == '-'
  {
    if n < 0 then "-" + NatToString(-n) else NatToString(n)
  }

  /** Reads back a string of decimal digits. */
  function DigitsValue(s: string): nat
    requires forall k :: 0 <= k < |s| ==> IsDigit(s[k])
  {
    if s == [] then 0
    else
      assert IsDigit(s[|s| - 1]);
      10 * DigitsValue(s[..|s| - 1]) + (s[|s| - 1] as int - '0' as int)
  }

  /** Reads back what IntToString renders. */
  function ParseInt(s: string): int
  {
    if s != [] && s[0] == '-' && (forall k :: 1 <= k < |s| ==> IsDigit(s[k])) then -(DigitsValue(s[1..]) as int)
    else if forall k :: 0 <= k < |s| ==> IsDigit(s[k]) then DigitsValue(s)
    else 0
  }

  lemma {:induction false} NatToStringRoundTrip(n: nat)
    ensures DigitsValue(NatToString(n)) == n
  {
    if n >= 10 {
      NatToStringRoundTrip(n / 10);
      var r := NatToString(n);
      assert r[..|r| - 1] == NatToString(n / 10);
    }
  }

  /** Decimal rendering loses nothing: the number can be read back from its text. */
  lemma {:induction false} IntToStringRoundTrip(n: int)
    ensures ParseInt(IntToString(n)) == n
  {
    var r := IntToString(n);
    if n < 0 {
      NatToStringRoundTrip(-n);
      var digits := NatToString(-n);
      assert r == "-" + digits;
      assert r[1..] == digits;
      forall k | 1 <= k < |r| ensures IsDigit(r[k]) {
        assert r[k] == digits[k - 1];
      }
      assert ParseInt(r) == -(DigitsValue(digits) as int);
    } else {
      NatToStringRoundTrip(n);
      assert r == NatToString(n);
      assert IsDigit(r[0]);
      assert ParseInt(r) == DigitsValue(r);
    }
  }

  /** A common prefix can be cancelled. */
  lemma PrefixCancel(p: string, x: string, y: string)
    ensures p + x == p + y <==> x == y
  {
    if p + x == p + y {
      assert (p + x)[|p|..] == x;
      assert (p + y)[|p|..] == y;
    }
  }

  lemma IntToStringInjective(a: int, b: int)
    ensures IntToString(a) == IntToString(b) <==> a == b
  {
    if IntToString(a) == IntToString(b) {
      IntToStringRoundTrip(a);
      IntToStringRoundTrip(b);
    }
  }
}
