/** The string operations of the Python standard library that the core relies on:
    `str.strip()`, `str.split(",")`, `str.upper()`/`str.lower()`, and `int(s)` for
    base-10 text, together with its inverse rendering `str(n)`. */
module Text {
  import opened Wrappers

  // ---------------------------------------------------------------------------
  // Whitespace and strip()

  /** Python's notion of whitespace (`str.isspace`), used by `strip()` and `int()`. */
  predicate IsSpace(c: char) {
    || c == ' ' || ('\t' <= c <= '\r') || ('\U{1c}' <= c <= '\U{1f}')
    || c == '\U{85}' || c == '\U{a0}' || c == '\U{1680}'
    || ('\U{2000}' <= c <= '\U{200a}') || c == '\U{2028}' || c == '\U{2029}'
    || c == '\U{202f}' || c == '\U{205f}' || c == '\U{3000}'
  }

  /** Drops leading whitespace: the result is a suffix of `s`, everything dropped was
      whitespace, and the result does not start with whitespace. */
  function StripLeft(s: string): (r: string)
    ensures |r| <= |s| && r == s[|s| - |r|..]
    ensures forall k :: 0 <= k < |s| - |r| ==> IsSpace(s[k])
    ensures r != [] ==> !IsSpace(r[0])
    decreases |s|
  {
    if s != [] && IsSpace(s[0]) then StripLeft(s[1..]) else s
  }

  /** Drops trailing whitespace: the result is a prefix of `s`, everything dropped was
      whitespace, and the result does not end with whitespace. */
  function StripRight(s: string): (r: string)
    ensures |r| <= |s| && r == s[..|r|]
    ensures forall k :: |r| <= k < |s| ==> IsSpace(s[k])
    ensures r != [] ==> !IsSpace(r[|r| - 1])
    decreases |s|
  {
    if s != [] && IsSpace(s[|s| - 1]) then StripRight(s[..|s| - 1]) else s
  }

  /** `s.strip()`: the longest infix of `s` with no whitespace at either end. */
  function Strip(s: string): (r: string)
    ensures |r| <= |s|
    ensures r != [] ==> !IsSpace(r[0]) && !IsSpace(r[|r| - 1])
    ensures exists a, b :: 0 <= a <= b <= |s| && r == s[a..b]
                           && (forall k :: 0 <= k < a ==> IsSpace(s[k]))
                           && (forall k :: b <= k < |s| ==> IsSpace(s[k]))
  {
    var left := StripLeft(s);
    InfixOfBothEnds(s, left, StripRight(left));
    StripRight(left)
  }

  /** Cutting whitespace off the front of `s` and then off the back of what is left
      leaves an infix of `s` with only whitespace around it. */
  lemma InfixOfBothEnds(s: string, left: string, r: string)
    requires |left| <= |s| && left == s[|s| - |left|..]
    requires forall k :: 0 <= k < |s| - |left| ==> IsSpace(s[k])
    requires |r| <= |left| && r == left[..|r|]
    requires forall k :: |r| <= k < |left| ==> IsSpace(left[k])
    ensures exists a, b :: 0 <= a <= b <= |s| && r == s[a..b]
                           && (forall k :: 0 <= k < a ==> IsSpace(s[k]))
                           && (forall k :: b <= k < |s| ==> IsSpace(s[k]))
  {
    var a := |s| - |left|;
    PrefixOfSuffix(s, a, |r|);
    SpaceAfterInfix(s, left, a, |r|);
    assert r == s[a..a + |r|];
  }

  lemma PrefixOfSuffix(s: string, a: nat, n: nat)
    requires a + n <= |s|
    ensures s[a..][..n] == s[a..a + n]
  {
  }

  lemma SpaceAfterInfix(s: string, left: string, a: nat, n: nat)
    requires a <= |s| && left == s[a..] && n <= |left|
    requires forall k :: n <= k < |left| ==> IsSpace(left[k])
    ensures forall k :: a + n <= k < |s| ==> IsSpace(s[k])
  {
    forall k | a + n <= k < |s| ensures IsSpace(s[k]) {
      assert s[k] == left[k - a];
    }
  }

  /** Text that neither starts nor ends with whitespace is left alone by `strip()`. */
  lemma {:induction false} StripTrimmed(s: string)
    requires s != [] ==> !IsSpace(s[0]) && !IsSpace(s[|s| - 1])
    ensures Strip(s) == s
  {
    assert StripLeft(s) == s;
    assert StripRight(s) == s;
  }

  // ---------------------------------------------------------------------------
  // split() and its inverse join()

  /** `sep.join(parts)`. */
  function Join(parts: seq<string>, sep: char): string
  {
    if parts == [] then ""
    else if |parts| == 1 then parts[0]
    else parts[0] + [sep] + Join(parts[1..], sep)
  }

  /** `s.split(sep)` for a one-character separator: never empty, no piece holds the
      separator, and there is one piece more than there are separators in `s`. */
  function Split(s: string, sep: char): (r: seq<string>)
    ensures |r| >= 1
    ensures forall i :: 0 <= i < |r| ==> sep !in r[i]
    ensures |r| == multiset(s)[sep] + 1
    decreases |s|
  {
    if sep !in s then [s]
    else
      var i := IndexOf(s, sep);
      assert s == s[..i] + [sep] + s[i + 1..];
      assert multiset(s) == multiset(s[..i]) + multiset{sep} + multiset(s[i + 1..]) by {
        assert s == s[..i] + ([sep] + s[i + 1..]);
      }
      [s[..i]] + Split(s[i + 1..], sep)
  }

  /** Round trip: joining the pieces of a split with the same separator gives back the
      original text. */
  lemma {:induction false} JoinSplit(s: string, sep: char)
    ensures Join(Split(s, sep), sep) == s
    decreases |s|
  {
    if sep in s {
      var i := IndexOf(s, sep);
      var rest := Split(s[i + 1..], sep);
      var parts := Split(s, sep);
      assert parts == [s[..i]] + rest;
      assert |parts| >= 2 && parts[0] == s[..i] && parts[1..] == rest;
      calc {
        Join(parts, sep);
        parts[0] + [sep] + Join(parts[1..], sep);
        s[..i] + [sep] + Join(rest, sep);
        { JoinSplit(s[i + 1..], sep); }
        s[..i] + [sep] + s[i + 1..];
      }
      assert s == s[..i] + [sep] + s[i + 1..];
    }
  }

  /** Position of the first occurrence of `c` in `s`. */
  function IndexOf(s: string, c: char): (i: nat)
    requires c in s
    ensures i < |s| && s[i] == c && c !in s[..i]
  {
    if s[0] == c then 0 else 1 + IndexOf(s[1..], c)
  }

  // ---------------------------------------------------------------------------
  // upper() and lower()

  function UpperChar(c: char): char {
    if 'a' <= c <= 'z' then (c as int - 32) as char else c
  }

  function LowerChar(c: char): char {
    if 'A' <= c <= 'Z' then (c as int + 32) as char else c
  }

  /** `s.upper()` on ASCII letters. */
  function Upper(s: string): (r: string)
    ensures |r| == |s| && forall i :: 0 <= i < |s| ==> r[i] == UpperChar(s[i])
  {
    if s == [] then [] else [UpperChar(s[0])] + Upper(s[1..])
  }

  /** `s.lower()` on ASCII letters. */
  function Lower(s: string): (r: string)
    ensures |r| == |s| && forall i :: 0 <= i < |s| ==> r[i] == LowerChar(s[i])
  {
    if s == [] then [] else [LowerChar(s[0])] + Lower(s[1..])
  }

  // ---------------------------------------------------------------------------
  // int(s) in base 10, and str(n)

  predicate IsDigit(c: char) { '0' <= c <= '9' }

  function DigitValue(c: char): nat
    requires IsDigit(c)
  {
    c as int - '0' as int
  }

  function DigitChar(d: nat): (c: char)
    requires d < 10
    ensures IsDigit(c) && DigitValue(c) == d
  {
    ('0' as int + d) as char
  }

  /** The digits of an integer literal as `int()` accepts them: ASCII digits, where a
      single underscore may separate two digits. */
  predicate IsNumeral(d: string) {
    && |d| > 0 && IsDigit(d[0]) && IsDigit(d[|d| - 1])
    && (forall i :: 0 <= i < |d| ==> IsDigit(d[i]) || d[i] == '_')
    && (forall i :: 0 <= i < |d| - 1 && d[i] == '_' ==> IsDigit(d[i + 1]))
  }

  /** The value of a numeral, underscores ignored. */
  function NumeralValue(d: string): nat
    requires forall i :: 0 <= i < |d| ==> IsDigit(d[i]) || d[i] == '_'
  {
    if d == [] then 0
    else if d[|d| - 1] == '_' then NumeralValue(d[..|d| - 1])
    else 10 * NumeralValue(d[..|d| - 1]) + DigitValue(d[|d| - 1])
  }

  /** `int(s)`: surrounding whitespace, an optional sign, then a numeral; `None` is the
      `ValueError` the source catches. */
  function ParseInt(s: string): (r: Option<int>)
    ensures var t := Strip(s);
      r.Some? <==> |t| > 0 && (IsNumeral(t) || ((t[0] == '-' || t[0] == '+') && IsNumeral(t[1..])))
    ensures var t := Strip(s);
      r.Some? ==> r.value == (if t[0] == '-' then -(NumeralValue(t[1..]) as int)
                              else if t[0] == '+' then NumeralValue(t[1..])
                              else NumeralValue(t))
    ensures s == "" ==> r.None?
  {
    var t := Strip(s);
    if |t| > 0 && (t[0] == '-' || t[0] == '+') then
      if IsNumeral(t[1..]) then
        var v: int := NumeralValue(t[1..]);
        Some(if t[0] == '-' then -v else v)
      else None
    else if IsNumeral(t) then Some(NumeralValue(t))
    else None
  }

  /** `str(n)` for a natural number: its decimal digits, most significant first. */
  function ShowNat(n: nat): (r: string)
    ensures |r| > 0
  {
    if n < 10 then [DigitChar(n)] else ShowNat(n / 10) + [DigitChar(n % 10)]
  }

  /** `str(n)` for an integer. */
  function ShowInt(n: int): (r: string)
  {
    if n < 0 then "-" + ShowNat(-n) else ShowNat(n)
  }

  lemma {:induction false} ShowNatIsNumeral(n: nat)
    ensures forall i :: 0 <= i < |ShowNat(n)| ==> IsDigit(ShowNat(n)[i])
    ensures IsNumeral(ShowNat(n)) && NumeralValue(ShowNat(n)) == n
  {
    var s := ShowNat(n);
    if n >= 10 {
      ShowNatIsNumeral(n / 10);
      var p := ShowNat(n / 10);
      assert s == p + [DigitChar(n % 10)];
      assert s[..|s| - 1] == p;
      assert forall i :: 0 <= i < |s| ==> IsDigit(s[i]) by {
        forall i | 0 <= i < |s| ensures IsDigit(s[i]) {
          if i < |p| { assert s[i] == p[i]; }
        }
      }
    }
  }

  /** A trimmed numeral parses to its value. */
  lemma ParseNumeral(d: string)
    requires IsNumeral(d)
    ensures ParseInt(d) == Some(NumeralValue(d))
  {
    StripTrimmed(d);
    assert !(d[0] == '-' || d[0] == '+');
  }

  /** A minus sign followed by a numeral parses to the negated value. */
  lemma ParseNegated(d: string)
    requires IsNumeral(d)
    ensures ParseInt("-" + d) == Some(-(NumeralValue(d) as int))
  {
    var s := "-" + d;
    assert s[|s| - 1] == d[|d| - 1];
    StripTrimmed(s);
    assert s[0] == '-' && s[1..] == d;
  }

  /** Round trip: `int(str(n)) == n` for every integer. */
  lemma ParseShowInt(n: int)
    ensures ParseInt(ShowInt(n)) == Some(n)
  {
    if n < 0 {
      ShowNatIsNumeral(-n);
      ParseNegated(ShowNat(-n));
    } else {
      ShowNatIsNumeral(n);
      ParseNumeral(ShowNat(n));
    }
  }
}
