/**
 * The JavaScript string primitives the pages rely on, written out over `seq<char>`:
 * the `\s` class and `trim`, `\d`/`\D`, ASCII lower-casing, `includes`, `startsWith`,
 * the `a || b` default for strings, and `parseInt` without a radix.
 */
module JsStrings {
  import opened Wrappers

  /** The characters of JavaScript's `\s` class, which are also the ones `trim` removes. */
  predicate IsSpace(c: char) {
    c == '\t' || c == '\n' || c == '\U{B}' || c == '\U{C}' || c == '\r' || c == ' '
    || c == '\U{A0}' || c == '\U{1680}' || ('\U{2000}' <= c <= '\U{200A}')
    || c == '\U{2028}' || c == '\U{2029}' || c == '\U{202F}' || c == '\U{205F}'
    || c == '\U{3000}' || c == '\U{FEFF}'
  }

  /** The characters the regular-expression `.` does not match. */
  predicate IsLineTerminator(c: char) {
    c == '\n' || c == '\r' || c == '\U{2028}' || c == '\U{2029}'
  }

  /** `\d`: an ASCII decimal digit. */
  predicate IsDigit(c: char) {
    '0' <= c <= '9'
  }

  predicate AllDigits(s: string) {
    forall i :: 0 <= i < |s| ==> IsDigit(s[i])
  }

  /** `!s.trim()`: nothing but white space. */
  predicate IsBlank(s: string) {
    forall i :: 0 <= i < |s| ==> IsSpace(s[i])
  }

  /**
   * `s.length`: the number of UTF-16 code units, one for a character of the Basic Multilingual
   * Plane and two (a surrogate pair) for any character above it.
   */
  function Utf16Length(s: string): (n: nat)
    ensures |s| <= n <= 2 * |s|
    ensures (forall i :: 0 <= i < |s| ==> s[i] as int < 0x1_0000) ==> n == |s|
  {
    if s == [] then 0 else (if s[0] as int < 0x1_0000 then 1 else 2) + Utf16Length(s[1..])
  }

  /** An emoji counts twice: `"\u{1F600}a".length` is 3. */
  lemma Utf16LengthOfEmoji()
    ensures Utf16Length("\U{1F600}a") == 3
  {
    assert "\U{1F600}a"[1..] == "a";
    assert "a"[1..] == "";
  }

  /** JavaScript truthiness of a string that may be missing. */
  predicate Truthy(s: Option<string>) {
    s.Some? && s.value != ""
  }

  /** `a || b` for a string `a` that may be missing. */
  function Or(a: Option<string>, b: string): (r: string)
    ensures Truthy(a) ==> r == a.value
    ensures !Truthy(a) ==> r == b
  {
    if Truthy(a) then a.value else b
  }

  function TrimStart(s: string): (r: string)
    ensures |r| <= |s| && r == s[|s| - |r|..]
    ensures forall i :: 0 <= i < |s| - |r| ==> IsSpace(s[i])
    ensures r != [] ==> !IsSpace(r[0])
  {
    if |s| > 0 && IsSpace(s[0]) then TrimStart(s[1..]) else s
  }

  function TrimEnd(s: string): (r: string)
    ensures |r| <= |s| && r == s[..|r|]
    ensures forall i :: |r| <= i < |s| ==> IsSpace(s[i])
    ensures r != [] ==> !IsSpace(r[|r| - 1])
  {
    if |s| > 0 && IsSpace(s[|s| - 1]) then TrimEnd(s[..|s| - 1]) else s
  }

  /** `s.trim()`: the longest infix without white space at either end. */
  function Trim(s: string): (r: string)
    ensures r != [] ==> !IsSpace(r[0]) && !IsSpace(r[|r| - 1])
  {
    TrimEnd(TrimStart(s))
  }

  /** The trimmed string is empty exactly when the string is blank. */
  lemma TrimEmptyIffBlank(s: string)
    ensures Trim(s) == "" <==> IsBlank(s)
  {
    var t := TrimStart(s);
    if Trim(s) == "" {
      // what `trimStart` leaves cannot start with white space, yet `trimEnd` removes all of it
      assert t == [];
    } else {
      var r := Trim(s);
      assert r[0] == t[0];
      assert t[0] == s[|s| - |t|];
    }
  }

  /** `s.replace(/\s/g, '')`. */
  function RemoveSpaces(s: string): (r: string)
    ensures |r| <= |s|
    ensures forall i :: 0 <= i < |r| ==> !IsSpace(r[i])
  {
    if s == [] then []
    else (if IsSpace(s[0]) then [] else [s[0]]) + RemoveSpaces(s[1..])
  }

  /** Removing white space keeps every other character of `s`, each as often as it occurs. */
  lemma {:induction false} RemoveSpacesKeepsOthers(s: string)
    ensures forall c :: multiset(RemoveSpaces(s))[c] == if IsSpace(c) then 0 else multiset(s)[c]
  {
    if s != [] {
      assert s == [s[0]] + s[1..];
      RemoveSpacesKeepsOthers(s[1..]);
    }
  }

  /** Removal works piecewise, so the kept characters stay in their original order. */
  lemma {:induction false} RemoveSpacesAppend(a: string, b: string)
    ensures RemoveSpaces(a + b) == RemoveSpaces(a) + RemoveSpaces(b)
  {
    if a != [] {
      assert (a + b)[1..] == a[1..] + b;
      RemoveSpacesAppend(a[1..], b);
    } else {
      assert a + b == b;
    }
  }

  /** A blank string has nothing left once white space is removed. */
  lemma {:induction false} RemoveSpacesOfBlank(s: string)
    requires IsBlank(s)
    ensures RemoveSpaces(s) == ""
  {
    if s != [] {
      RemoveSpacesOfBlank(s[1..]);
    }
  }

  /** `s.replace(/\D/g, '')`: the digits of `s`, in order. */
  function DigitsOnly(s: string): (r: string)
    ensures |r| <= |s|
    ensures AllDigits(r)
  {
    if s == [] then []
    else (if IsDigit(s[0]) then [s[0]] else []) + DigitsOnly(s[1..])
  }

  /** Every digit of `s` is kept, as often as it occurs, and nothing else. */
  lemma {:induction false} DigitsOnlyKeepsDigits(s: string)
    ensures forall c :: multiset(DigitsOnly(s))[c] == if IsDigit(c) then multiset(s)[c] else 0
  {
    if s != [] {
      assert s == [s[0]] + s[1..];
      DigitsOnlyKeepsDigits(s[1..]);
    }
  }

  lemma {:induction false} DigitsOnlyAppend(a: string, b: string)
    ensures DigitsOnly(a + b) == DigitsOnly(a) + DigitsOnly(b)
  {
    if a != [] {
      assert (a + b)[1..] == a[1..] + b;
      DigitsOnlyAppend(a[1..], b);
    } else {
      assert a + b == b;
    }
  }

  /** Removing non-digits from a string of digits changes nothing. */
  lemma {:induction false} DigitsOnlyOfDigits(s: string)
    requires AllDigits(s)
    ensures DigitsOnly(s) == s
  {
    if s != [] {
      DigitsOnlyOfDigits(s[1..]);
    }
  }

  /** `'A'..'Z'` lowered; other characters are unchanged. */
  function LowerChar(c: char): char {
    if 'A' <= c <= 'Z' then (c as int + 32) as char else c
  }

  /** `s.toLowerCase()` restricted to ASCII letters. */
  function ToLower(s: string): (r: string)
    ensures |r| == |s|
    ensures forall i :: 0 <= i < |s| ==> r[i] == LowerChar(s[i])
  {
    if s == [] then [] else [LowerChar(s[0])] + ToLower(s[1..])
  }

  predicate StartsWith(s: string, prefix: string) {
    |prefix| <= |s| && s[..|prefix|] == prefix
  }

  /** `s.includes(sub)`. */
  predicate Contains(s: string, sub: string)
    decreases |s|
  {
    StartsWith(s, sub) || (s != [] && Contains(s[1..], sub))
  }

  /** `sub` occurs in `s` starting at position `i`. */
  predicate OccursAt(s: string, sub: string, i: int) {
    0 <= i <= |s| - |sub| && s[i..i + |sub|] == sub
  }

  /** `includes` finds `sub` exactly when it occurs at some position of `s`. */
  lemma {:induction false} ContainsAt(s: string, sub: string)
    ensures Contains(s, sub) <==> exists i :: OccursAt(s, sub, i)
    decreases |s|
  {
    if StartsWith(s, sub) {
      assert OccursAt(s, sub, 0);
    }
    if s != [] {
      ContainsAt(s[1..], sub);
      if Contains(s[1..], sub) {
        var i :| OccursAt(s[1..], sub, i);
        assert s[i + 1..i + 1 + |sub|] == s[1..][i..i + |sub|];
        assert OccursAt(s, sub, i + 1);
      }
      if exists i :: OccursAt(s, sub, i) {
        var i :| OccursAt(s, sub, i);
        if i > 0 {
          assert s[1..][i - 1..i - 1 + |sub|] == s[i..i + |sub|];
          assert OccursAt(s[1..], sub, i - 1);
        }
      }
    } else {
      if exists i :: OccursAt(s, sub, i) {
        var i :| OccursAt(s, sub, i);
        assert StartsWith(s, sub);
      }
    }
  }

  lemma SliceSplit(s: string, a: nat, b: nat, e: nat)
    requires a <= b <= e <= |s|
    ensures s[a..e] == s[a..b] + s[b..e]
  {
    assert forall j :: 0 <= j < e - a ==> s[a..e][j] == (s[a..b] + s[b..e])[j];
  }

  /** A slice that spells out marker `m`, a slice, marker `n` and a slice is those four put together. */
  lemma MarkedSlices(s: string, m: string, n: string, i: nat, c: nat, e: nat)
    requires i + |m| <= c && c + |n| <= e <= |s|
    requires s[i..i + |m|] == m && s[c..c + |n|] == n
    ensures s[i..e] == m + s[i + |m|..c] + n + s[c + |n|..e]
  {
    var lunch, dinner := s[i + |m|..c], s[c + |n|..e];
    SliceSplit(s, i, i + |m|, c);
    assert s[i..c] == m + lunch;
    SliceSplit(s, i, c, c + |n|);
    assert s[i..c + |n|] == m + lunch + n;
    SliceSplit(s, i, c + |n|, e);
  }

  /** A slice of `s` is found by `includes`. */
  lemma SliceContained(s: string, i: nat, e: nat)
    requires i <= e <= |s|
    ensures Contains(s, s[i..e])
  {
    assert OccursAt(s, s[i..e], i);
    ContainsAt(s, s[i..e]);
  }

  // ---------------------------------------------------------------------------
  // parseInt(s) with no radix

  /** A JavaScript number as `parseInt` produces it: `NaN` or an integer. */
  datatype JsInt = NaN | Int(value: int)

  predicate IsHexDigit(c: char) {
    IsDigit(c) || ('a' <= c <= 'f') || ('A' <= c <= 'F')
  }

  predicate IsRadixDigit(c: char, hex: bool) {
    if hex then IsHexDigit(c) else IsDigit(c)
  }

  function DigitValue(c: char): nat {
    if IsDigit(c) then c as int - '0' as int
    else if 'a' <= c <= 'f' then c as int - 'a' as int + 10
    else if 'A' <= c <= 'F' then c as int - 'A' as int + 10
    else 0
  }

  /** The longest prefix of `s` made of digits of the radix. */
  function DigitRun(s: string, hex: bool): (r: string)
    ensures |r| <= |s| && r == s[..|r|]
    ensures forall i :: 0 <= i < |r| ==> IsRadixDigit(r[i], hex)
    ensures |r| < |s| ==> !IsRadixDigit(s[|r|], hex)
  {
    if s != [] && IsRadixDigit(s[0], hex) then [s[0]] + DigitRun(s[1..], hex) else []
  }

  /** The value of a digit string read most significant digit first. */
  function ValueOf(ds: string, base: nat): nat {
    if ds == [] then 0 else ValueOf(ds[..|ds| - 1], base) * base + DigitValue(ds[|ds| - 1])
  }

  /** What follows one leading `+` or `-`, if there is one. */
  function Unsigned(t: string): string {
    if t != [] && (t[0] == '+' || t[0] == '-') then t[1..] else t
  }

  predicate HexPrefixed(u: string) {
    |u| >= 2 && u[0] == '0' && (u[1] == 'x' || u[1] == 'X')
  }

  /** The digits `parseInt` reads from an unsigned string. */
  function Digits(u: string): string {
    if HexPrefixed(u) then DigitRun(u[2..], true) else DigitRun(u, false)
  }

  /**
   * `parseInt(s)`: skip leading white space, take one sign, read a `0x`/`0X` prefix as
   * hexadecimal, then the longest run of digits; `NaN` exactly when that run is empty.
   */
  function ParseInt(s: string): (r: JsInt)
    ensures r.NaN? <==> Digits(Unsigned(TrimStart(s))) == []
  {
    var t := TrimStart(s);
    var u := Unsigned(t);
    var ds := Digits(u);
    var v: int := ValueOf(ds, if HexPrefixed(u) then 16 else 10);
    if ds == [] then NaN
    else Int(if t != [] && t[0] == '-' then -v else v)
  }

  function DigitChar(d: nat): char
    requires d < 10
  {
    ('0' as int + d) as char
  }

  /** `String(n)` for a natural number. */
  function DecimalString(n: nat): string
  {
    if n < 10 then [DigitChar(n)] else DecimalString(n / 10) + [DigitChar(n % 10)]
  }

  lemma {:induction false} DecimalStringFacts(n: nat)
    ensures var d := DecimalString(n);
            |d| >= 1 && AllDigits(d) && ValueOf(d, 10) == n && (n >= 10 ==> d[0] != '0')
  {
    var d := DecimalString(n);
    if n >= 10 {
      DecimalStringFacts(n / 10);
      var p := DecimalString(n / 10);
      assert d[..|d| - 1] == p;
      assert d[0] == p[0];
    }
  }

  /** A digit run that already spans the whole string takes it all. */
  lemma {:induction false} DigitRunOfDigits(s: string)
    requires AllDigits(s)
    ensures DigitRun(s, false) == s
  {
    if s != [] {
      DigitRunOfDigits(s[1..]);
    }
  }

  /** Parsing the decimal rendering of a natural number gives the number back. */
  lemma DecimalStringParses(n: nat)
    ensures ParseInt(DecimalString(n)) == Int(n)
  {
    var d := DecimalString(n);
    DecimalStringFacts(n);
    assert !IsSpace(d[0]);
    assert TrimStart(d) == d;
    assert Unsigned(d) == d;
    assert !HexPrefixed(d);
    DigitRunOfDigits(d);
    assert Digits(d) == d;
  }
}
