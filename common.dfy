/** Shared vocabulary: bytes, failure-carrying results, and the few Python
    string and sequence operations the library relies on (`str.split`,
    `str.join`, `str.endswith`, `'%d' %`, `int()`, slicing). */
module Common {

  newtype Byte = b: int | 0 <= b < 256

  datatype Option<+T> = None | Some(value: T)

  datatype Result<+T, +E> = Ok(value: T) | Err(error: E)

  datatype Outcome<+E> = Pass | Fail(error: E)

  /** The bytes of an ASCII string. */
  function Ascii(s: string): (r: seq<Byte>)
    requires forall i :: 0 <= i < |s| ==> s[i] as int < 256
    ensures |r| == |s|
    ensures forall i :: 0 <= i < |s| ==> r[i] as int == s[i] as int
  {
    if s == [] then [] else [s[0] as int as Byte] + Ascii(s[1..])
  }

  /** Concatenation of a sequence of sequences. */
  function Flatten<T>(parts: seq<seq<T>>): seq<T>
  {
    if parts == [] then [] else parts[0] + Flatten(parts[1..])
  }

  lemma {:induction false} FlattenAppend<T>(a: seq<seq<T>>, b: seq<seq<T>>)
    ensures Flatten(a + b) == Flatten(a) + Flatten(b)
  {
    if a == [] {
      assert a + b == b;
    } else {
      assert (a + b)[1..] == a[1..] + b;
      FlattenAppend(a[1..], b);
    }
  }

  predicate StartsWith<T(==)>(s: seq<T>, p: seq<T>)
  {
    |p| <= |s| && s[..|p|] == p
  }

  predicate EndsWith<T(==)>(s: seq<T>, p: seq<T>)
  {
    |p| <= |s| && s[|s| - |p|..] == p
  }

  /** Python `str.split(sep)` for a one-character separator. */
  function Split(s: string, sep: char): (r: seq<string>)
    ensures |r| >= 1
    ensures forall i :: 0 <= i < |r| ==> sep !in r[i]
    ensures Join(r, sep) == s
  {
    if s == [] then [""]
    else
      var rest := Split(s[1..], sep);
      if s[0] == sep then [""] + rest
      else [[s[0]] + rest[0]] + rest[1..]
  }

  /** Python `sep.join(parts)` for a one-character separator. */
  function Join(parts: seq<string>, sep: char): string
  {
    if parts == [] then ""
    else if |parts| == 1 then parts[0]
    else parts[0] + [sep] + Join(parts[1..], sep)
  }

  /** Splitting a join of separator-free parts gives the parts back. */
  lemma {:induction false} SplitJoin(parts: seq<string>, sep: char)
    requires |parts| >= 1
    requires forall i :: 0 <= i < |parts| ==> sep !in parts[i]
    ensures Split(Join(parts, sep), sep) == parts
  {
    if |parts| == 1 {
      SplitNoSep(parts[0], sep);
    } else {
      SplitJoin(parts[1..], sep);
      SplitPrefix(parts[0], sep, Join(parts[1..], sep));
    }
  }

  lemma {:induction false} SplitNoSep(s: string, sep: char)
    requires sep !in s
    ensures Split(s, sep) == [s]
  {
    if s != [] {
      SplitNoSep(s[1..], sep);
    }
  }

  lemma {:induction false} SplitPrefix(p: string, sep: char, rest: string)
    requires sep !in p
    ensures Split(p + [sep] + rest, sep) == [p] + Split(rest, sep)
  {
    if p == [] {
      assert p + [sep] + rest == [sep] + rest;
      assert ([sep] + rest)[1..] == rest;
    } else {
      var s := p + [sep] + rest;
      assert s[0] == p[0] && s[1..] == p[1..] + [sep] + rest;
      SplitPrefix(p[1..], sep, rest);
      assert [p[0]] + p[1..] == p;
    }
  }

  /** Splitting after a last separator adds one last component. */
  lemma {:induction false} SplitLast(q: string, sep: char, rest: string)
    requires sep !in rest
    ensures Split(q + [sep] + rest, sep) == Split(q, sep) + [rest]
  {
    if q == [] {
      assert q + [sep] + rest == [sep] + rest && ([sep] + rest)[1..] == rest;
      SplitNoSep(rest, sep);
    } else {
      var x := q + [sep] + rest;
      assert x[0] == q[0] && x[1..] == q[1..] + [sep] + rest;
      SplitLast(q[1..], sep, rest);
    }
  }

  /** Python `str.replace(a, b)` for single characters. */
  function ReplaceChar(s: string, a: char, b: char): (r: string)
    ensures |r| == |s|
    ensures forall i :: 0 <= i < |s| ==> r[i] == (if s[i] == a then b else s[i])
  {
    if s == [] then [] else [if s[0] == a then b else s[0]] + ReplaceChar(s[1..], a, b)
  }

  predicate IsDigit(c: char)
  {
    '0' <= c <= '9'
  }

  predicate AllDigits(s: string)
  {
    forall i :: 0 <= i < |s| ==> IsDigit(s[i])
  }

  function DigitChar(d: nat): char
    requires d < 10
  {
    "0123456789"[d]
  }

  /** Decimal rendering of a natural number, as `'%d' % n` writes it. */
  function NatToString(n: nat): (r: string)
    ensures |r| >= 1 && AllDigits(r)
    decreases n
  {
    if n < 10 then [DigitChar(n)] else NatToString(n / 10) + [DigitChar(n % 10)]
  }

  /** Decimal rendering of an integer, as `'%d' % i` writes it. */
  function IntToString(i: int): string
  {
    if i < 0 then "-" + NatToString(-i) else NatToString(i)
  }

  /** The value of a string of decimal digits. */
  function DigitsValue(s: string): nat
    requires AllDigits(s)
  {
    if s == [] then 0 else DigitsValue(s[..|s| - 1]) * 10 + (s[|s| - 1] as int - '0' as int)
  }

  lemma {:induction false} DigitsValueOfNat(n: nat)
    ensures DigitsValue(NatToString(n)) == n
  {
    if n >= 10 {
      var s := NatToString(n);
      assert s[..|s| - 1] == NatToString(n / 10);
      DigitsValueOfNat(n / 10);
    }
  }

  /** The characters Python's `int()` strips around a number. */
  predicate IsSpace(c: char)
  {
    c == ' ' || c == '\t' || c == '\n' || c == '\r' || c as int == 11 || c as int == 12
  }

  function StripSpace(s: string): (r: string)
    ensures |r| <= |s|
  {
    if s != [] && IsSpace(s[0]) then StripSpace(s[1..])
    else if s != [] && IsSpace(s[|s| - 1]) then StripSpace(s[..|s| - 1])
    else s
  }

  /** Python 2 `int(s)` for base 10: surrounding white space, an optional
      sign, more white space after the sign, then at least one digit; None
      where Python raises ValueError. */
  function ParseInt(s: string): (r: Option<int>)
  {
    ParseStripped(StripSpace(s))
  }

  /** `s` without its leading white space. */
  function SkipSpace(s: string): (r: string)
    ensures r == [] || !IsSpace(r[0])
  {
    if s != [] && IsSpace(s[0]) then SkipSpace(s[1..]) else s
  }

  /** What `SkipSpace` drops is a run of white space at the front, and
      what it keeps is the rest. */
  lemma {:induction false} SkipSpaceDropsSpace(s: string)
    ensures var r := SkipSpace(s);
            |r| <= |s| && r == s[|s| - |r|..] && forall i :: 0 <= i < |s| - |r| ==> IsSpace(s[i])
    decreases |s|
  {
    if s != [] && IsSpace(s[0]) {
      SkipSpaceDropsSpace(s[1..]);
      var r := SkipSpace(s[1..]);
      assert s[1..][|s| - 1 - |r|..] == s[|s| - |r|..];
      forall i | 0 <= i < |s| - |r|
        ensures IsSpace(s[i])
      {
        if i > 0 {
          assert s[i] == s[1..][i - 1];
        }
      }
    }
  }

  /** White space ahead of a digit is skipped, and nothing of the digits. */
  lemma {:induction false} SkipSpaceBeforeDigits(w: string, d: string)
    requires forall i :: 0 <= i < |w| ==> IsSpace(w[i])
    requires |d| >= 1 && IsDigit(d[0])
    ensures SkipSpace(w + d) == d
    decreases |w|
  {
    if w == [] {
      assert w + d == d;
    } else {
      assert (w + d)[0] == w[0] && (w + d)[1..] == w[1..] + d;
      SkipSpaceBeforeDigits(w[1..], d);
    }
  }

  /** `int` after the surrounding white space is gone: `PyOS_strtol` reads
      the sign and hands the rest to `PyOS_strtoul`, which skips white
      space again before the digits. */
  function ParseStripped(t: string): (r: Option<int>)
  {
    if |t| >= 1 && (t[0] == '-' || t[0] == '+') then
      var u := Unsigned(t[1..]);
      if u.Some? then Some(if t[0] == '-' then -(u.value as int) else u.value as int) else None
    else if |t| >= 1 && AllDigits(t) then Some(DigitsValue(t))
    else None
  }

  /** `PyOS_strtoul` on what follows the sign: white space, then at least
      one digit and nothing else. */
  function Unsigned(s: string): (r: Option<nat>)
  {
    var d := SkipSpace(s);
    if |d| >= 1 && AllDigits(d) then Some(DigitsValue(d)) else None
  }

  /** `int('%d' % i) == i`. */
  lemma ParseIntOfString(i: int)
    ensures ParseInt(IntToString(i)) == Some(i)
  {
    if i < 0 {
      var n: nat := -i;
      var d := NatToString(n);
      DigitsValueOfNat(n);
      ParseNegative(d);
      assert IntToString(i) == "-" + d;
    } else {
      DigitsValueOfNat(i);
      ParseDigits(NatToString(i));
    }
  }

  /** A string that neither starts nor ends with white space is not stripped. */
  lemma NoStrip(s: string)
    requires s != [] && !IsSpace(s[0]) && !IsSpace(s[|s| - 1])
    ensures StripSpace(s) == s
  {
  }

  lemma ParseDigits(d: string)
    requires |d| >= 1 && AllDigits(d)
    ensures ParseInt(d) == Some(DigitsValue(d))
  {
    assert IsDigit(d[0]) && IsDigit(d[|d| - 1]);
    NoStrip(d);
  }

  lemma ParseNegative(d: string)
    requires |d| >= 1 && AllDigits(d)
    ensures ParseInt("-" + d) == Some(-(DigitsValue(d) as int))
  {
    ParseSpacedSign('-', [], d);
    assert ['-'] + [] + d == "-" + d;
  }

  /** White space may separate the sign from the digits: Python 2 reads
      `int('- 5')` as -5 and `int('+ 7')` as 7. */
  lemma ParseSpacedSign(sign: char, w: string, d: string)
    requires sign == '-' || sign == '+'
    requires forall i :: 0 <= i < |w| ==> IsSpace(w[i])
    requires |d| >= 1 && AllDigits(d)
    ensures ParseInt([sign] + w + d) == Some(if sign == '-' then -(DigitsValue(d) as int) else DigitsValue(d) as int)
  {
    var s := [sign] + w + d;
    SignedShape(sign, w, d);
    ParseUnstripped(s);
    ParseSigned(s, w, d);
  }

  /** A sign, white space and digits: neither end is white space. */
  lemma SignedShape(sign: char, w: string, d: string)
    requires sign == '-' || sign == '+'
    requires |d| >= 1 && AllDigits(d)
    ensures var s := [sign] + w + d;
            |s| >= 2 && s[0] == sign && s[1..] == w + d && !IsSpace(s[|s| - 1])
  {
    var rest := w + d;
    var s := [sign] + rest;
    assert [sign] + w + d == s;
    assert s[1..] == rest;
    assert s[|s| - 1] == rest[|rest| - 1] == d[|d| - 1] && IsDigit(d[|d| - 1]);
  }

  /** `int` of a string with no white space at either end. */
  lemma ParseUnstripped(s: string)
    requires s != [] && !IsSpace(s[0]) && !IsSpace(s[|s| - 1])
    ensures ParseInt(s) == ParseStripped(s)
  {
    NoStrip(s);
  }

  lemma ParseSigned(t: string, w: string, d: string)
    requires |t| >= 1 && (t[0] == '-' || t[0] == '+') && t[1..] == w + d
    requires forall i :: 0 <= i < |w| ==> IsSpace(w[i])
    requires |d| >= 1 && AllDigits(d)
    ensures ParseStripped(t) == Some(if t[0] == '-' then -(DigitsValue(d) as int) else DigitsValue(d) as int)
  {
    assert IsDigit(d[0]);
    SkipSpaceBeforeDigits(w, d);
  }

  /** The two cases above, written out. */
  lemma SpacedSignExamples()
    ensures ParseInt("- 5") == Some(-5)
    ensures ParseInt("+\t7") == Some(7)
  {
    ParseSpacedSign('-', " ", "5");
    assert "- 5" == ['-'] + " " + "5";
    ParseSpacedSign('+', "\t", "7");
    assert "+\t7" == ['+'] + "\t" + "7";
  }

  /** A Python slice bound (negative counts from the end) clamped into [0, n]. */
  function ClampIndex(i: int, n: nat): (r: nat)
    ensures r <= n
  {
    if i < 0 then (if i + n < 0 then 0 else i + n) else if i > n then n else i
  }

  /** Python `s[lo:hi]`; a missing bound is None. */
  function PySlice<T>(s: seq<T>, lo: Option<int>, hi: Option<int>): (r: seq<T>)
    ensures lo.Some? && hi.Some? && 0 <= lo.value <= hi.value <= |s| ==> r == s[lo.value..hi.value]
    ensures lo.Some? && hi.None? && 0 <= lo.value <= |s| ==> r == s[lo.value..]
    ensures lo.None? && hi.Some? && 0 <= hi.value <= |s| ==> r == s[..hi.value]
    ensures |r| <= |s|
  {
    var a := if lo.None? then 0 else ClampIndex(lo.value, |s|);
    var b := if hi.None? then |s| else ClampIndex(hi.value, |s|);
    if a < b then s[a..b] else []
  }
}
