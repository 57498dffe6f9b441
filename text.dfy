/** The parts of Python's `str` and `int` that the server relies on, restricted to ASCII:
    `lower`, `strip`, `split(",")`, `startswith`, the `in` substring test, `int(s)` on a
    decimal literal and the decimal rendering of an `int` inside an f-string. */
module Text {
  import opened Base

  // ---------------------------------------------------------------- lower

  function LowerChar(c: char): char
  {
    if 'A' <= c <= 'Z' then (c as int + 32) as char else c
  }

  predicate IsLower(s: string)
  {
    forall i :: 0 <= i < |s| ==> !('A' <= s[i] <= 'Z')
  }

  /** `s.lower()` on the ASCII letters; every other character is kept. */
  function Lower(s: string): (r: string)
    ensures |r| == |s| && IsLower(r)
    ensures forall i :: 0 <= i < |s| ==> r[i] == LowerChar(s[i])
  {
    seq(|s|, i requires 0 <= i < |s| => LowerChar(s[i]))
  }

  lemma LowerConcat(a: string, b: string)
    ensures Lower(a + b) == Lower(a) + Lower(b)
  {
    assert forall i :: 0 <= i < |a + b| ==> Lower(a + b)[i] == (Lower(a) + Lower(b))[i];
  }

  lemma LowerOfLower(s: string)
    requires IsLower(s)
    ensures Lower(s) == s
  {
  }

  // ---------------------------------------------------------------- strip

  /** The characters `str.isspace` accepts in the ASCII range: tab to carriage return,
      the four separators 0x1C-0x1F, and the space. */
  predicate IsSpace(c: char)
  {
    var n := c as int;
    n == 32 || 9 <= n <= 13 || 28 <= n <= 31
  }

  predicate AllSpace(s: string)
  {
    forall i :: 0 <= i < |s| ==> IsSpace(s[i])
  }

  /** No whitespace at either end. */
  predicate IsStripped(s: string)
  {
    s == [] || (!IsSpace(s[0]) && !IsSpace(s[|s| - 1]))
  }

  lemma LowerKeepsSpace(s: string)
    ensures AllSpace(s) <==> AllSpace(Lower(s))
    ensures IsStripped(s) <==> IsStripped(Lower(s))
  {
  }

  /** Number of leading whitespace characters. */
  function TextStart(s: string): (i: nat)
    ensures i <= |s|
    ensures forall k :: 0 <= k < i ==> IsSpace(s[k])
    ensures i < |s| ==> !IsSpace(s[i])
    decreases |s|
  {
    if s == [] || !IsSpace(s[0]) then 0 else 1 + TextStart(s[1..])
  }

  /** Length of `s` once its trailing whitespace is dropped. */
  function TextEnd(s: string): (j: nat)
    ensures j <= |s|
    ensures forall k :: j <= k < |s| ==> IsSpace(s[k])
    ensures 0 < j ==> !IsSpace(s[j - 1])
    decreases |s|
  {
    if s == [] || !IsSpace(s[|s| - 1]) then |s| else TextEnd(s[..|s| - 1])
  }

  /** `s.strip()`: `s` without its leading and trailing whitespace. */
  function Strip(s: string): (r: string)
    ensures IsStripped(r)
    ensures TextStart(s) + |r| <= |s|
    ensures r == s[TextStart(s)..TextStart(s) + |r|]
    ensures forall k :: TextStart(s) + |r| <= k < |s| ==> IsSpace(s[k])
  {
    var i, j := TextStart(s), TextEnd(s);
    if i == |s| then [] else s[i..j]
  }

  /** `s` splits into whitespace, its stripped core and whitespace. */
  lemma StripSplits(s: string)
    ensures AllSpace(s[..TextStart(s)]) && AllSpace(s[TextStart(s) + |Strip(s)|..])
    ensures s == s[..TextStart(s)] + Strip(s) + s[TextStart(s) + |Strip(s)|..]
  {
    var i, r := TextStart(s), Strip(s);
    assert s == s[..i] + s[i..i + |r|] + s[i + |r|..];
  }

  /** Whatever whitespace surrounds a stripped string, `strip` gives that string back. */
  lemma StripUnique(a: string, m: string, b: string)
    requires AllSpace(a) && IsStripped(m) && AllSpace(b)
    ensures Strip(a + m + b) == m
  {
    var s := a + m + b;
    var i, r := TextStart(s), Strip(s);
    var e := |a| + |m|;
    assert forall k :: 0 <= k < |a| ==> s[k] == a[k];
    assert forall k :: e <= k < |s| ==> s[k] == b[k - e];
    if m == [] {
      assert AllSpace(s);
    } else {
      assert s[|a|] == m[0] && s[e - 1] == m[|m| - 1];
      assert i == |a|;
      assert r != [] ==> s[i + |r| - 1] == r[|r| - 1];
      assert i + |r| == e;
      assert s[|a|..e] == m;
    }
  }

  lemma StripIdempotent(s: string)
    ensures Strip(Strip(s)) == Strip(s)
  {
    StripUnique([], Strip(s), []);
    assert [] + Strip(s) + [] == Strip(s);
  }

  lemma AllSpaceConcat(a: string, b: string)
    requires AllSpace(a) && AllSpace(b)
    ensures AllSpace(a + b)
  {
    assert forall k :: |a| <= k < |a + b| ==> (a + b)[k] == b[k - |a|];
  }

  /** Padding a string with whitespace does not change what `strip` makes of it. */
  lemma StripIgnoresPadding(pre: string, s: string, post: string)
    requires AllSpace(pre) && AllSpace(post)
    ensures Strip(pre + s + post) == Strip(s)
  {
    var i, r := TextStart(s), Strip(s);
    StripSplits(s);
    var x, y := s[..i], s[i + |r|..];
    AllSpaceConcat(pre, x);
    AllSpaceConcat(y, post);
    Regroup(pre, x, r, y, post);
    StripUnique(pre + x, r, y + post);
  }

  lemma Regroup<T>(p: seq<T>, x: seq<T>, r: seq<T>, y: seq<T>, q: seq<T>)
    ensures p + (x + r + y) + q == (p + x) + r + (y + q)
  {
  }

  /** A stripped, lower-case string is left alone by `strip().lower()`. */
  lemma StripLowerFixed(w: string)
    requires IsLower(w) && IsStripped(w)
    ensures Lower(Strip(w)) == w
  {
    StripUnique([], w, []);
    assert [] + w + [] == w;
    LowerOfLower(w);
  }

  /** ASCII `lower` and `strip` commute, so `s.strip().lower() == s.lower().strip()`. */
  lemma StripLowerCommute(s: string)
    ensures Strip(Lower(s)) == Lower(Strip(s))
  {
    var i, r := TextStart(s), Strip(s);
    var a, b := s[..i], s[i + |r|..];
    StripSplits(s);
    LowerConcat(a + r, b);
    LowerConcat(a, r);
    LowerKeepsSpace(a);
    LowerKeepsSpace(r);
    LowerKeepsSpace(b);
    StripUnique(Lower(a), Lower(r), Lower(b));
  }

  // ---------------------------------------------------------------- split

  /** `sep.join(parts)`. */
  function Join(parts: seq<string>, sep: char): string
    requires |parts| >= 1
    decreases |parts|
  {
    if |parts| == 1 then parts[0] else parts[0] + [sep] + Join(parts[1..], sep)
  }

  /** `s.split(sep)` for a one-character separator: every piece between separators,
      empty pieces included, so `"".split(",") == [""]`. Joining the pieces gives `s` back. */
  function Split(s: string, sep: char): (parts: seq<string>)
    ensures |parts| >= 1
    ensures forall k :: 0 <= k < |parts| ==> sep !in parts[k]
    ensures Join(parts, sep) == s
    decreases |s|
  {
    if s == [] then [[]]
    else
      var rest := Split(s[1..], sep);
      if s[0] == sep then
        assert s == [sep] + s[1..];
        [[]] + rest
      else
        var parts := [[s[0]] + rest[0]] + rest[1..];
        assert parts[1..] == rest[1..];
        assert s == [s[0]] + s[1..];
        parts
  }

  /** Splitting at a separator splits the two sides independently. */
  lemma {:induction false} SplitConcat(a: string, b: string, sep: char)
    ensures Split(a + [sep] + b, sep) == Split(a, sep) + Split(b, sep)
    decreases |a|
  {
    var s := a + [sep] + b;
    if a == [] {
      assert s[1..] == b;
    } else {
      assert s[1..] == a[1..] + [sep] + b;
      SplitConcat(a[1..], b, sep);
    }
  }

  /** A string without the separator is a single piece. */
  lemma {:induction false} SplitNoSeparator(s: string, sep: char)
    requires sep !in s
    ensures Split(s, sep) == [s]
    decreases |s|
  {
    if s != [] {
      SplitNoSeparator(s[1..], sep);
      assert s == [s[0]] + s[1..];
    }
  }

  /** `split` undoes `join` for pieces that do not contain the separator. */
  lemma {:induction false} SplitJoin(parts: seq<string>, sep: char)
    requires |parts| >= 1
    requires forall k :: 0 <= k < |parts| ==> sep !in parts[k]
    ensures Split(Join(parts, sep), sep) == parts
    decreases |parts|
  {
    SplitNoSeparator(parts[0], sep);
    if |parts| > 1 {
      SplitJoin(parts[1..], sep);
      SplitConcat(parts[0], Join(parts[1..], sep), sep);
      assert parts == [parts[0]] + parts[1..];
    }
  }

  // ---------------------------------------------------------------- substrings

  /** Python's `prefix` startswith test: `s.startswith(prefix)`. */
  predicate IsPrefix(prefix: string, s: string)
  {
    |prefix| <= |s| && s[..|prefix|] == prefix
  }

  /** Python's `needle in haystack` on strings. */
  predicate Contains(haystack: string, needle: string)
  {
    exists i :: 0 <= i <= |haystack| - |needle| && IsPrefix(needle, haystack[i..])
  }

  // ---------------------------------------------------------------- integers

  predicate IsDigit(c: char)
  {
    '0' <= c <= '9'
  }

  /** A non-empty run of decimal digits. */
  predicate IsDigits(s: string)
  {
    |s| > 0 && forall i :: 0 <= i < |s| ==> IsDigit(s[i])
  }

  function DigitsValue(s: string): nat
    requires forall i :: 0 <= i < |s| ==> IsDigit(s[i])
    decreases |s|
  {
    if s == [] then 0
    else
      assert IsDigit(s[|s| - 1]);
      10 * DigitsValue(s[..|s| - 1]) + (s[|s| - 1] as int - '0' as int)
  }

  /** The whitespace `int()` skips around a literal: the ASCII space and tab to carriage
      return. The separators 0x1C-0x1F count as whitespace for `strip` but not here. */
  predicate IsIntSpace(c: char)
  {
    var n := c as int;
    n == 32 || 9 <= n <= 13
  }

  predicate AllIntSpace(s: string)
  {
    forall i :: 0 <= i < |s| ==> IsIntSpace(s[i])
  }

  /** No character of `s` is one of the separators 0x1C-0x1F. */
  predicate NoSeparators(s: string)
  {
    forall i :: 0 <= i < |s| ==> IsIntSpace(s[i]) || !IsSpace(s[i])
  }

  /** The most digits `int()` converts, CPython's default `int_max_str_digits`. */
  const MaxStrDigits := 4300

  /** What follows the optional sign of a literal. */
  function LiteralDigits(t: string): string
  {
    if |t| > 0 && (t[0] == '+' || t[0] == '-') then t[1..] else t
  }

  /** The literal `int()` reads once the whitespace around it is gone: an optional sign
      and from one to `MaxStrDigits` digits. */
  function ParseLiteral(t: string): (r: Option<int>)
    ensures r.Some? ==> 0 < |t| <= MaxStrDigits + 1
    ensures r.Some? <==> IsDigits(LiteralDigits(t)) && |LiteralDigits(t)| <= MaxStrDigits
    ensures r.Some? && t[0] == '-' ==> r.value + DigitsValue(LiteralDigits(t)) == 0
    ensures r.Some? && t[0] != '-' ==> r.value == DigitsValue(LiteralDigits(t))
  {
    if |t| > 0 && (t[0] == '+' || t[0] == '-') && IsDigits(t[1..]) && |t| - 1 <= MaxStrDigits then
      var v: int := DigitsValue(t[1..]);
      Some(if t[0] == '-' then -v else v)
    else if IsDigits(t) && |t| <= MaxStrDigits then Some(DigitsValue(t))
    else None
  }

  /** `int(s)` on a decimal literal with whitespace around it. Anything else is the
      `ValueError` case, `None`. Since a separator can be neither whitespace `int()` skips
      nor part of a literal, any separator in `s` makes it fail. */
  function ParseInt(s: string): (r: Option<int>)
    ensures Strip(s) == [] ==> r.None?
    ensures r.Some? ==> NoSeparators(s) && |Strip(s)| <= MaxStrDigits + 1
    ensures r.Some? <==>
      NoSeparators(s) && IsDigits(LiteralDigits(Strip(s))) && |LiteralDigits(Strip(s))| <= MaxStrDigits
  {
    if NoSeparators(s) then ParseLiteral(Strip(s)) else None
  }

  function DigitChar(d: nat): (c: char)
    requires d < 10
    ensures IsDigit(c) && c as int - '0' as int == d
  {
    ('0' as int + d) as char
  }

  function NatToString(n: nat): (s: string)
    ensures IsDigits(s)
    decreases n
  {
    if n < 10 then [DigitChar(n)] else NatToString(n / 10) + [DigitChar(n % 10)]
  }

  /** The decimal rendering of `n`, as `str(n)` or an f-string writes it. */
  function IntToString(n: int): string
  {
    if n < 0 then "-" + NatToString(-n) else NatToString(n)
  }

  /** `n` has at most `MaxStrDigits` digits, so `int()` reads its rendering back. */
  predicate WithinMaxStrDigits(n: int)
  {
    |NatToString(if n < 0 then -n else n)| <= MaxStrDigits
  }

  lemma {:induction false} NatToStringValue(n: nat)
    ensures DigitsValue(NatToString(n)) == n
    decreases n
  {
    if n >= 10 {
      NatToStringValue(n / 10);
      var s := NatToString(n);
      assert s[..|s| - 1] == NatToString(n / 10);
    }
  }

  lemma StrippedIsFixed(s: string)
    requires IsStripped(s)
    ensures Strip(s) == s
  {
    StripUnique([], s, []);
    assert [] + s + [] == s;
  }

  lemma IntToStringStripped(n: int)
    ensures Strip(IntToString(n)) == IntToString(n)
  {
    var s := IntToString(n);
    assert IsStripped(s) by {
      assert IsDigit(s[|s| - 1]);
    }
    StrippedIsFixed(s);
  }

  lemma IntToStringNoSeparators(n: int)
    ensures NoSeparators(IntToString(n))
  {
    var s := IntToString(n);
    assert forall i :: 0 <= i < |s| ==> s[i] == '-' || IsDigit(s[i]);
  }

  /** `int(str(n)) == n` for every `n` within the digit limit: reading back a rendered
      integer gives the integer. */
  lemma ParseIntToString(n: int)
    requires WithinMaxStrDigits(n)
    ensures ParseInt(IntToString(n)) == Some(n)
  {
    var m := if n < 0 then -n else n;
    NatToStringValue(m);
    IntToStringStripped(n);
    IntToStringNoSeparators(n);
    if n < 0 {
      assert IntToString(n)[1..] == NatToString(m);
    }
  }

  /** Beyond the digit limit `int()` refuses even a well-formed literal. */
  lemma ParseIntDigitLimit(s: string)
    requires IsDigits(s) && |s| > MaxStrDigits
    ensures ParseInt(s) == None
  {
    assert IsStripped(s) by {
      assert IsDigit(s[0]) && IsDigit(s[|s| - 1]);
    }
    StrippedIsFixed(s);
    LiteralDigitLimit(s);
  }

  lemma LiteralDigitLimit(t: string)
    requires IsDigits(t) && |t| > MaxStrDigits
    ensures ParseLiteral(t) == None
  {
    assert IsDigit(t[0]);
  }

  lemma NoSeparatorsConcat(a: string, b: string)
    ensures NoSeparators(a + b) <==> NoSeparators(a) && NoSeparators(b)
  {
    var s := a + b;
    if NoSeparators(s) {
      assert forall k :: 0 <= k < |a| ==> a[k] == s[k];
      assert forall k :: 0 <= k < |b| ==> b[k] == s[k + |a|];
    }
    if NoSeparators(a) && NoSeparators(b) {
      assert forall k :: 0 <= k < |s| ==> s[k] == if k < |a| then a[k] else b[k - |a|];
    }
  }

  /** `int()` ignores the whitespace it skips around the literal. */
  lemma ParseIntIgnoresPadding(pre: string, s: string, post: string)
    requires AllIntSpace(pre) && AllIntSpace(post)
    ensures ParseInt(pre + s + post) == ParseInt(s)
  {
    assert AllSpace(pre) && AllSpace(post);
    assert NoSeparators(pre) && NoSeparators(post);
    StripIgnoresPadding(pre, s, post);
    NoSeparatorsConcat(pre, s);
    NoSeparatorsConcat(pre + s, post);
  }

  /** A separator in the padding makes `int()` fail, though `strip` would remove it. */
  lemma ParseIntRejectsSeparator(c: char, s: string)
    requires 28 <= c as int <= 31
    ensures ParseInt([c] + s) == None
  {
    assert ([c] + s)[0] == c;
  }
}
