/**
 * The two string operations of the JavaScript runtime that the task
 * tracker relies on: `String.prototype.trim` (the form trims what the user
 * typed) and `Number.prototype.toString` on a non-negative integer (both
 * copies make a task id out of the clock reading).
 */
module Text {

  /**
   * The characters `trim` removes: ECMAScript's WhiteSpace (tab, vertical
   * tab, form feed, space, no-break space, byte order mark and the Unicode
   * space separators) and LineTerminator (line feed, carriage return, line
   * and paragraph separators).
   */
  predicate IsJsSpace(c: char) {
    c == '\U{0009}' || c == '\U{000A}' || c == '\U{000B}' || c == '\U{000C}' || c == '\U{000D}'
    || c == '\U{0020}' || c == '\U{00A0}' || c == '\U{1680}'
    || ('\U{2000}' <= c <= '\U{200A}')
    || c == '\U{2028}' || c == '\U{2029}' || c == '\U{202F}' || c == '\U{205F}'
    || c == '\U{3000}' || c == '\U{FEFF}'
  }

  /** `s` with its leading white space removed: a suffix of `s` starting at its first other character. */
  function TrimStart(s: string): (r: string)
    ensures |r| <= |s| && r == s[|s| - |r|..]
    ensures r == [] || !IsJsSpace(r[0])
    ensures forall k :: 0 <= k < |s| - |r| ==> IsJsSpace(s[k])
  {
    if s != [] && IsJsSpace(s[0]) then TrimStart(s[1..]) else s
  }

  /** `s` with its trailing white space removed: a prefix of `s` ending at its last other character. */
  function TrimEnd(s: string): (r: string)
    ensures |r| <= |s| && r == s[..|r|]
    ensures r == [] || !IsJsSpace(r[|r| - 1])
    ensures forall k :: |r| <= k < |s| ==> IsJsSpace(s[k])
  {
    if s != [] && IsJsSpace(s[|s| - 1]) then TrimEnd(s[..|s| - 1]) else s
  }

  /**
   * `String.prototype.trim`: never longer than its input and never ending in
   * white space; `TrimIsInnerPiece` below says exactly what it keeps.
   */
  function Trim(s: string): (r: string)
    ensures |r| <= |s|
    ensures r == [] || !IsJsSpace(r[|r| - 1])
  {
    TrimEnd(TrimStart(s))
  }

  /** A string with white space at neither end. */
  predicate IsTrimmed(s: string) {
    s == [] || (!IsJsSpace(s[0]) && !IsJsSpace(s[|s| - 1]))
  }

  /**
   * What `trim` returns: a contiguous piece `s[i..j]` of the input with no
   * white space at either end, everything cut off being white space.
   */
  lemma TrimIsInnerPiece(s: string)
    ensures IsTrimmed(Trim(s))
    ensures exists i, j ::
      (0 <= i <= j <= |s| && Trim(s) == s[i..j]
       && (forall k :: 0 <= k < i ==> IsJsSpace(s[k]))
       && (forall k :: j <= k < |s| ==> IsJsSpace(s[k])))
  {
    TrimEndsTrimmed(s);
    var i, j := TrimBounds(s);
  }

  /** Neither end of a trimmed string is white space. */
  lemma TrimEndsTrimmed(s: string)
    ensures IsTrimmed(Trim(s))
  {
    var a := TrimStart(s);
    var r := TrimEnd(a);
    if r != [] {
      assert r[0] == a[0];
    }
  }

  /** The two cut points of `trim`, everything outside them being white space. */
  lemma TrimBounds(s: string) returns (i: nat, j: nat)
    ensures i <= j <= |s| && Trim(s) == s[i..j]
    ensures forall k :: 0 <= k < i ==> IsJsSpace(s[k])
    ensures forall k :: j <= k < |s| ==> IsJsSpace(s[k])
  {
    var a := TrimStart(s);
    i := |s| - |a|;
    var r := TrimEnd(a);
    j := i + |r|;
    assert a == s[i..];
    assert r == a[..|r|];
    forall k | j <= k < |s| ensures IsJsSpace(s[k]) {
      assert s[k] == a[k - i];
    }
  }

  /** Trimming a string that has white space at neither end changes nothing. */
  lemma TrimTrimmed(s: string)
    requires IsTrimmed(s)
    ensures Trim(s) == s
  {
    assert TrimStart(s) == s;
    if s != [] {
      assert TrimEnd(s) == s;
    }
  }

  /** Trimming twice is trimming once. */
  lemma TrimIdempotent(s: string)
    ensures Trim(Trim(s)) == Trim(s)
  {
    TrimIsInnerPiece(s);
    TrimTrimmed(Trim(s));
  }

  /** `trim` gives the empty string exactly when every character is white space. */
  lemma TrimEmptyIff(s: string)
    ensures Trim(s) == "" <==> forall k :: 0 <= k < |s| ==> IsJsSpace(s[k])
  {
    var a := TrimStart(s);
    if forall k :: 0 <= k < |s| ==> IsJsSpace(s[k]) {
      assert a == [];
    } else {
      var k :| 0 <= k < |s| && !IsJsSpace(s[k]);
      assert k >= |s| - |a|;
      assert a[0] == s[|s| - |a|];
      assert TrimEnd(a) != [];
    }
  }

  /** The character for a decimal digit. */
  function DigitChar(d: nat): (c: char)
    requires d < 10
    ensures '0' <= c <= '9'
  {
    "0123456789"[d]
  }

  /** The value of a decimal digit character. */
  function DigitValue(c: char): (d: nat)
    requires '0' <= c <= '9'
    ensures d < 10
  {
    (c as int - '0' as int) as nat
  }

  /**
   * `n.toString()` for a non-negative integer below 10^21, as `Date.now()`
   * returns: decimal digits with no leading zero.
   */
  function Decimal(n: nat): (r: string)
    ensures |r| >= 1
    ensures forall k :: 0 <= k < |r| ==> '0' <= r[k] <= '9'
    ensures r[0] == '0' ==> n == 0
  {
    if n < 10 then [DigitChar(n)] else Decimal(n / 10) + [DigitChar(n % 10)]
  }

  /** The number a string of decimal digits denotes. */
  function DecimalValue(s: string): nat
    requires forall k :: 0 <= k < |s| ==> '0' <= s[k] <= '9'
  {
    if s == [] then 0 else 10 * DecimalValue(s[..|s| - 1]) + DigitValue(s[|s| - 1])
  }

  /** Reading back the digits `toString` writes gives the number. */
  lemma {:induction false} DecimalRoundTrip(n: nat)
    ensures DecimalValue(Decimal(n)) == n
  {
    var r := Decimal(n);
    if n < 10 {
      assert r[..0] == [];
      assert DigitValue(DigitChar(n)) == n;
    } else {
      DecimalRoundTrip(n / 10);
      assert r[..|r| - 1] == Decimal(n / 10);
      assert DigitValue(DigitChar(n % 10)) == n % 10;
    }
  }

  /** Different clock readings give different ids, and equal ids come from equal readings. */
  lemma DecimalInjective(a: nat, b: nat)
    ensures Decimal(a) == Decimal(b) <==> a == b
  {
    if Decimal(a) == Decimal(b) {
      DecimalRoundTrip(a);
      DecimalRoundTrip(b);
    }
  }
}
