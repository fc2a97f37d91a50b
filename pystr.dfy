/** The Python 2 string operations the parsers rely on: whitespace `split()`,
    `split(sep)`, `strip()`, `strip(chars)`, `find`, `rfind`, slicing with
    negative bounds, `' '.join`, `int()` and the decimal subset of `float()`. */
module PyStr {
  import opened Errors

  /** The characters `str.isspace` accepts for byte strings. */
  const Spaces: set<char> := {' ', '\t', '\n', '\r', '\U{0B}', '\U{0C}'}

  predicate IsSpace(c: char) { c in Spaces }

  predicate IsDigit(c: char) { '0' <= c <= '9' }

  /** A word of `split()`: non-empty and free of whitespace. */
  predicate IsToken(w: string) {
    w != [] && forall i :: 0 <= i < |w| ==> !IsSpace(w[i])
  }

  // ---------------------------------------------------------------- strip

  function DropLeading(s: string, cs: set<char>): (r: string)
    ensures |r| <= |s|
    ensures r == [] || r[0] !in cs
    ensures forall i :: 0 <= i < |s| - |r| ==> s[i] in cs
  {
    if s != [] && s[0] in cs then
      var r := DropLeading(s[1..], cs);
      assert forall i :: 1 <= i < |s| - |r| ==> s[i] == s[1..][i - 1];
      r
    else s
  }

  function DropTrailing(s: string, cs: set<char>): (r: string)
    ensures |r| <= |s|
    ensures r == [] || r[|r| - 1] !in cs
    ensures forall i :: |r| <= i < |s| ==> s[i] in cs
  {
    if s != [] && s[|s| - 1] in cs then DropTrailing(s[..|s| - 1], cs) else s
  }

  /** What `lstrip` leaves is a suffix of its input. */
  lemma {:induction false} DropLeadingSuffix(s: string, cs: set<char>)
    ensures DropLeading(s, cs) == s[|s| - |DropLeading(s, cs)|..]
  {
    if s != [] && s[0] in cs {
      DropLeadingSuffix(s[1..], cs);
      var r := DropLeading(s, cs);
      assert s[1..][|s| - 1 - |r|..] == s[|s| - |r|..];
    }
  }

  /** What `rstrip` leaves is a prefix of its input. */
  lemma {:induction false} DropTrailingPrefix(s: string, cs: set<char>)
    ensures DropTrailing(s, cs) == s[..|DropTrailing(s, cs)|]
  {
    if s != [] && s[|s| - 1] in cs {
      DropTrailingPrefix(s[..|s| - 1], cs);
    }
  }

  /** `s.strip(chars)`: the longest infix of `s` that neither starts nor ends
      with a character of `cs`, cut out between margins made only of `cs`. */
  function StripSet(s: string, cs: set<char>): (r: string)
    ensures r == [] || (r[0] !in cs && r[|r| - 1] !in cs)
    ensures |r| <= |s| && forall c :: c in r ==> c in s
  {
    var left := DropLeading(s, cs);
    DropLeadingSuffix(s, cs);
    DropTrailingPrefix(left, cs);
    DropTrailing(left, cs)
  }

  /** `s.strip()` */
  function Strip(s: string): string { StripSet(s, Spaces) }

  lemma {:induction false} DropLeadingNoop(s: string, cs: set<char>)
    requires s == [] || s[0] !in cs
    ensures DropLeading(s, cs) == s
  {
  }

  /** Stripping a string that is already stripped changes nothing. */
  lemma {:induction false} StripSetIdempotent(s: string, cs: set<char>)
    ensures StripSet(StripSet(s, cs), cs) == StripSet(s, cs)
  {
    var r := StripSet(s, cs);
    DropLeadingNoop(r, cs);
  }

  /** A string that has no character of `cs` at either end is its own strip. */
  lemma {:induction false} StripSetNoop(s: string, cs: set<char>)
    requires s == [] || (s[0] !in cs && s[|s| - 1] !in cs)
    ensures StripSet(s, cs) == s
  {
    DropLeadingNoop(s, cs);
  }

  // ---------------------------------------------------------------- split()

  function TokenEnd(s: string, i: nat): (j: nat)
    requires i <= |s|
    ensures i <= j <= |s|
    ensures forall k :: i <= k < j ==> !IsSpace(s[k])
    ensures j < |s| ==> IsSpace(s[j])
    decreases |s| - i
  {
    if i < |s| && !IsSpace(s[i]) then TokenEnd(s, i + 1) else i
  }

  /** `s.split()`: the maximal runs of non-whitespace characters, in order. */
  function Words(s: string): (ws: seq<string>)
    ensures forall i :: 0 <= i < |ws| ==> IsToken(ws[i])
    decreases |s|
  {
    if s == [] then []
    else if IsSpace(s[0]) then Words(s[1..])
    else
      var j := TokenEnd(s, 0);
      [s[..j]] + Words(s[j..])
  }

  /** `s.split()` is empty exactly when `s` is all whitespace. */
  lemma {:induction false} WordsEmptyIffBlank(s: string)
    ensures Words(s) == [] <==> forall k :: 0 <= k < |s| ==> IsSpace(s[k])
    decreases |s|
  {
    if s != [] && IsSpace(s[0]) {
      WordsEmptyIffBlank(s[1..]);
      assert forall k :: 1 <= k < |s| ==> s[k] == s[1..][k - 1];
    }
  }

  /** `sep.join(ws)` */
  function Join(sep: string, ws: seq<string>): string
  {
    if ws == [] then ""
    else if |ws| == 1 then ws[0]
    else ws[0] + sep + Join(sep, ws[1..])
  }

  function Last<T>(s: seq<T>): T
    requires s != []
  {
    s[|s| - 1]
  }

  lemma {:induction false} TokenEndOfConcat(t: string, r: string, i: nat)
    requires i <= |t|
    requires forall k :: 0 <= k < |t| ==> !IsSpace(t[k])
    requires r == [] || IsSpace(r[0])
    ensures TokenEnd(t + r, i) == |t|
    decreases |t| - i
  {
    if i < |t| {
      TokenEndOfConcat(t, r, i + 1);
    }
  }

  lemma {:induction false} WordsOfTokenThen(t: string, r: string)
    requires IsToken(t)
    requires r == [] || IsSpace(r[0])
    ensures Words(t + r) == [t] + Words(r)
  {
    TokenEndOfConcat(t, r, 0);
    assert (t + r)[..|t|] == t;
    assert (t + r)[|t|..] == r;
  }

  /** `split()` undoes `' '.join` of words: the round trip of whitespace splitting. */
  lemma {:induction false} WordsOfJoin(ws: seq<string>)
    requires forall i :: 0 <= i < |ws| ==> IsToken(ws[i])
    ensures Words(Join(" ", ws)) == ws
  {
    if ws == [] {
    } else if |ws| == 1 {
      WordsOfTokenThen(ws[0], "");
      assert ws[0] + "" == ws[0];
    } else {
      var rest := Join(" ", ws[1..]);
      WordsOfJoin(ws[1..]);
      assert ws[0] + " " + rest == ws[0] + (" " + rest);
      WordsOfTokenThen(ws[0], " " + rest);
      assert (" " + rest)[1..] == rest;
    }
  }

  /** Appending a separate word to a string appends it to `split()`'s result. */
  lemma {:induction false} WordsAppendToken(x: string, t: string)
    requires IsToken(t)
    ensures Words(x + " " + t) == Words(x) + [t]
    decreases |x|
  {
    var s := x + " " + t;
    if x == [] {
      assert s == " " + t && s[1..] == t;
      WordsOfTokenThen(t, "");
      assert t + "" == t;
    } else if IsSpace(x[0]) {
      assert s[1..] == x[1..] + " " + t;
      WordsAppendToken(x[1..], t);
    } else {
      var j := TokenEnd(x, 0);
      TokenEndPrefix(x, " " + t, 0);
      assert s == x + (" " + t);
      assert s[..j] == x[..j];
      assert s[j..] == x[j..] + " " + t;
      WordsAppendToken(x[j..], t);
    }
  }

  lemma {:induction false} TokenEndPrefix(x: string, r: string, i: nat)
    requires i <= |x|
    requires r != [] && IsSpace(r[0])
    ensures TokenEnd(x + r, i) == TokenEnd(x, i)
    decreases |x| - i
  {
    if i < |x| && !IsSpace(x[i]) {
      TokenEndPrefix(x, r, i + 1);
    }
  }

  // ---------------------------------------------------------------- find / split(sep)

  predicate OccursAt(s: string, sub: string, k: int) {
    0 <= k && k + |sub| <= |s| && s[k..k + |sub|] == sub
  }

  /** `s.find(sub, i)`: the first index at or after `i` where `sub` occurs, or -1. */
  function FindFrom(s: string, sub: string, i: nat): (r: int)
    ensures r == -1 || (i <= r && OccursAt(s, sub, r))
    ensures forall k :: i <= k && (r == -1 || k < r) ==> !OccursAt(s, sub, k)
    decreases |s| - i
  {
    if i + |sub| > |s| then -1
    else if s[i..i + |sub|] == sub then i
    else FindFrom(s, sub, i + 1)
  }

  function Find(s: string, sub: string): int { FindFrom(s, sub, 0) }

  /** `s.split(sep)[0]`: the text before the first occurrence of `sep`,
      or the whole string when `sep` does not occur. */
  function Before(s: string, sep: string): (r: string)
    requires sep != []
    ensures r <= s
    ensures r == s <==> Find(s, sep) == -1
  {
    var k := Find(s, sep);
    if k < 0 then s else s[..k]
  }

  /** `s.split(sep)` for a non-empty separator. */
  function SplitOn(s: string, sep: string): (parts: seq<string>)
    requires sep != []
    ensures |parts| >= 1
    decreases |s|
  {
    var k := Find(s, sep);
    if k < 0 then [s] else [s[..k]] + SplitOn(s[k + |sep|..], sep)
  }

  /** The first part of `s.split(sep)` is the text before the first `sep`. */
  lemma {:induction false} SplitOnHead(s: string, sep: string)
    requires sep != []
    ensures SplitOn(s, sep)[0] == Before(s, sep)
  {
  }

  /** No part of `s.split(sep)` contains `sep`. */
  lemma {:induction false} SplitOnPartsFree(s: string, sep: string)
    requires sep != []
    ensures forall i :: 0 <= i < |SplitOn(s, sep)| ==> Find(SplitOn(s, sep)[i], sep) == -1
    decreases |s|
  {
    var k := Find(s, sep);
    if k >= 0 {
      NoOccurrenceBefore(s, sep, k);
      SplitOnPartsFree(s[k + |sep|..], sep);
    }
  }

  /** The text before the first occurrence of `sep` holds no occurrence of it. */
  lemma {:induction false} NoOccurrenceBefore(s: string, sep: string, k: nat)
    requires sep != []
    requires k <= |s| && forall j :: 0 <= j < k ==> !OccursAt(s, sep, j)
    ensures Find(s[..k], sep) == -1
  {
    var r := Find(s[..k], sep);
    if r != -1 {
      assert s[..k][r..r + |sep|] == s[r..r + |sep|];
      assert OccursAt(s, sep, r);
    }
  }

  lemma {:induction false} JoinCons(sep: string, a: string, rest: seq<string>)
    requires rest != []
    ensures Join(sep, [a] + rest) == a + sep + Join(sep, rest)
  {
    assert ([a] + rest)[1..] == rest;
  }

  lemma {:induction false} SplitOnUnfold(s: string, sep: string, k: int)
    requires sep != [] && k == Find(s, sep) && k >= 0
    ensures k + |sep| <= |s|
    ensures SplitOn(s, sep) == [s[..k]] + SplitOn(s[k + |sep|..], sep)
  {
    assert OccursAt(s, sep, k);
  }

  /** `sep.join(s.split(sep)) == s`: splitting on a separator loses nothing. */
  lemma {:induction false} JoinOfSplitOn(s: string, sep: string)
    requires sep != []
    ensures Join(sep, SplitOn(s, sep)) == s
    decreases |s|
  {
    var k := Find(s, sep);
    if k >= 0 {
      SplitOnUnfold(s, sep, k);
      var tail := s[k + |sep|..];
      JoinOfSplitOn(tail, sep);
      JoinCons(sep, s[..k], SplitOn(tail, sep));
      assert s[k..k + |sep|] == sep;
      assert s == s[..k] + s[k..k + |sep|] + tail;
    }
  }

  // ---------------------------------------------------------------- rfind / slicing

  /** `s.rfind(c)`: the last index holding `c`, or -1. */
  function RFind(s: string, c: char): (r: int)
    ensures -1 <= r < |s|
    ensures r >= 0 ==> s[r] == c
    ensures forall k :: r < k < |s| ==> s[k] != c
  {
    if s == [] then -1
    else if s[|s| - 1] == c then |s| - 1
    else RFind(s[..|s| - 1], c)
  }

  /** A Python slice bound: negative values count from the end, and the
      result is clamped to `0..n`. */
  function SliceBound(i: int, n: nat): (b: nat)
    ensures b <= n
  {
    if i < 0 then (if i + n < 0 then 0 else i + n)
    else if i > n then n
    else i
  }

  /** `s[lo:hi]` with Python's treatment of negative and out-of-range bounds. */
  function PySlice(s: string, lo: int, hi: int): string
  {
    var a := SliceBound(lo, |s|);
    var b := SliceBound(hi, |s|);
    if a < b then s[a..b] else []
  }

  function StartsWith(s: string, prefix: string): bool
  {
    |prefix| <= |s| && s[..|prefix|] == prefix
  }

  /** `s.replace(c, '')` for a single character. */
  function Remove(s: string, c: char): (r: string)
    ensures c !in r
    ensures forall x :: x in r ==> x in s
  {
    if s == [] then []
    else (if s[0] == c then [] else [s[0]]) + Remove(s[1..], c)
  }

  /** Characters outside `c` appended after the last `c` do not move `rfind`. */
  lemma {:induction false} RFindSuffixFree(x: string, y: string, c: char)
    requires c !in y
    ensures RFind(x + y, c) == RFind(x, c)
    decreases |y|
  {
    if y != [] {
      var y' := y[..|y| - 1];
      assert (x + y)[..|x + y| - 1] == x + y';
      RFindSuffixFree(x, y', c);
    } else {
      assert x + y == x;
    }
  }

  /** `rfind` of a character that ends a prefix, followed by text free of it. */
  lemma {:induction false} RFindAt(x: string, c: char, y: string)
    requires c !in y
    ensures RFind(x + [c] + y, c) == |x|
  {
    RFindSuffixFree(x + [c], y, c);
  }

  lemma {:induction false} NoStraddle(a: string, sep: string, b: string, k: int)
    requires sep != [] && forall i :: 1 <= i < |sep| ==> sep[i] != sep[0]
    requires 0 <= k < |a| < k + |sep|
    ensures !OccursAt(a + sep + b, sep, k)
  {
    var s := a + sep + b;
    var i := |a| - k;
    assert s[k + i] == sep[0];
    assert sep[i] != sep[0];
    if k + |sep| <= |s| {
      assert s[k..k + |sep|][i] != sep[i];
    }
  }

  lemma {:induction false} NoOccurrenceInside(a: string, sep: string, b: string, k: int)
    requires sep != [] && Find(a, sep) == -1
    requires 0 <= k && k + |sep| <= |a|
    ensures !OccursAt(a + sep + b, sep, k)
  {
    var s := a + sep + b;
    assert s[k..k + |sep|] == a[k..k + |sep|];
    assert !OccursAt(a, sep, k);
  }

  /** When `sep` does not occur in `a` and its first character does not recur
      in it, the first occurrence of `sep` in `a + sep + b` is right after `a`. */
  lemma {:induction false} FindAfter(a: string, sep: string, b: string)
    requires sep != [] && Find(a, sep) == -1
    requires forall i :: 1 <= i < |sep| ==> sep[i] != sep[0]
    ensures Find(a + sep + b, sep) == |a|
  {
    var s := a + sep + b;
    assert s[|a|..|a| + |sep|] == sep;
    assert OccursAt(s, sep, |a|);
    forall k | 0 <= k < |a|
      ensures !OccursAt(s, sep, k)
    {
      if k + |sep| <= |a| {
        NoOccurrenceInside(a, sep, b, k);
      } else {
        NoStraddle(a, sep, b, k);
      }
    }
  }

  lemma {:induction false} DropLeadingPrefix(pre: string, x: string, cs: set<char>)
    requires forall i :: 0 <= i < |pre| ==> pre[i] in cs
    requires x == [] || x[0] !in cs
    ensures DropLeading(pre + x, cs) == x
    decreases |pre|
  {
    if pre == [] {
      assert pre + x == x;
    } else {
      assert (pre + x)[1..] == pre[1..] + x;
      DropLeadingPrefix(pre[1..], x, cs);
    }
  }

  lemma {:induction false} DropTrailingSuffix(x: string, post: string, cs: set<char>)
    requires forall i :: 0 <= i < |post| ==> post[i] in cs
    requires x == [] || x[|x| - 1] !in cs
    ensures DropTrailing(x + post, cs) == x
    decreases |post|
  {
    if post == [] {
      assert x + post == x;
    } else {
      assert (x + post)[..|x + post| - 1] == x + post[..|post| - 1];
      DropTrailingSuffix(x, post[..|post| - 1], cs);
    }
  }

  /** `strip(cs)` removes exactly margins made of `cs` around a core that
      neither starts nor ends with one of them. */
  lemma {:induction false} StripSetMargins(pre: string, x: string, post: string, cs: set<char>)
    requires forall i :: 0 <= i < |pre| ==> pre[i] in cs
    requires forall i :: 0 <= i < |post| ==> post[i] in cs
    requires x != [] && x[0] !in cs && x[|x| - 1] !in cs
    ensures StripSet(pre + x + post, cs) == x
  {
    assert pre + x + post == pre + (x + post);
    DropLeadingPrefix(pre, x + post, cs);
    DropTrailingSuffix(x, post, cs);
  }

  /** Removing a character that does not occur changes nothing. */
  lemma {:induction false} RemoveAbsent(s: string, c: char)
    requires c !in s
    ensures Remove(s, c) == s
  {
    if s != [] {
      RemoveAbsent(s[1..], c);
      assert s == [s[0]] + s[1..];
    }
  }

  lemma {:induction false} RemoveConcat(a: string, b: string, c: char)
    ensures Remove(a + b, c) == Remove(a, c) + Remove(b, c)
    decreases |a|
  {
    if a != [] {
      RemoveConcat(a[1..], b, c);
      assert (a + b)[0] == a[0];
      assert (a + b)[1..] == a[1..] + b;
      var h := if a[0] == c then [] else [a[0]];
      assert Remove(a + b, c) == h + Remove(a[1..] + b, c);
      assert Remove(a, c) == h + Remove(a[1..], c);
    } else {
      assert a + b == b;
    }
  }

  // ---------------------------------------------------------------- numbers

  predicate AllDigits(d: string) {
    forall i :: 0 <= i < |d| ==> IsDigit(d[i])
  }

  function DigitsValue(d: string): nat
    requires AllDigits(d)
  {
    if d == [] then 0 else DigitsValue(d[..|d| - 1]) * 10 + (d[|d| - 1] - '0') as nat
  }

  /** `int(s)` in base 10: surrounding whitespace, an optional sign, then at
      least one digit; anything else is a ValueError (here `None`). */
  function ParseInt(s: string): Option<int>
  {
    var t := Strip(s);
    if t != [] && (t[0] == '-' || t[0] == '+') then
      var d := t[1..];
      if d != [] && AllDigits(d) then
        Some(if t[0] == '-' then -(DigitsValue(d) as int) else DigitsValue(d))
      else None
    else if t != [] && AllDigits(t) then Some(DigitsValue(t))
    else None
  }

  /** A run of digits reads as its value. */
  lemma {:induction false} ParseIntOfDigits(d: string)
    requires d != [] && AllDigits(d)
    ensures ParseInt(d) == Some(DigitsValue(d))
  {
    StripSetNoop(d, Spaces);
  }

  function DigitChar(n: nat): (c: char)
    requires n < 10
    ensures IsDigit(c) && (c - '0') as nat == n
  {
    ('0' as int + n) as char
  }

  function NatToString(n: nat): (s: string)
    ensures s != [] && AllDigits(s)
  {
    if n < 10 then [DigitChar(n)] else NatToString(n / 10) + [DigitChar(n % 10)]
  }

  /** `str(n)` for an integer. */
  function IntToString(n: int): string
  {
    if n < 0 then "-" + NatToString(-n) else NatToString(n)
  }

  lemma {:induction false} NatToStringValue(n: nat)
    ensures DigitsValue(NatToString(n)) == n
  {
    if n >= 10 {
      NatToStringValue(n / 10);
      var s := NatToString(n);
      assert s[..|s| - 1] == NatToString(n / 10);
    }
  }

  /** `int(str(n)) == n`: rendering an integer and parsing it back is the identity. */
  lemma {:induction false} IntToStringRoundTrip(n: int)
    ensures ParseInt(IntToString(n)) == Some(n)
  {
    if n < 0 {
      var d := NatToString(-n);
      NatToStringValue(-n);
      StripMinusDigits(d);
      assert IntToString(n) == "-" + d && ("-" + d)[1..] == d;
    } else {
      NatToStringValue(n);
      ParseIntOfDigits(NatToString(n));
    }
  }

  function IndexOfChar(s: string, c: char): (k: nat)
    ensures k <= |s|
    ensures k < |s| ==> s[k] == c
    ensures forall j :: 0 <= j < k ==> s[j] != c
  {
    if s == [] then 0 else if s[0] == c then 0 else 1 + IndexOfChar(s[1..], c)
  }

  /** The decimal subset of `float(s)`: surrounding whitespace, an optional
      sign, digits with at most one decimal point, and at least one digit. */
  function ParseDecimal(s: string): Option<real>
  {
    ParseSigned(Strip(s))
  }

  /** A stripped decimal literal: an optional sign, then the magnitude. */
  function ParseSigned(t: string): Option<real>
  {
    if t != [] && t[0] == '-' then Negated(DecimalMagnitude(t[1..]))
    else if t != [] && t[0] == '+' then DecimalMagnitude(t[1..])
    else DecimalMagnitude(t)
  }

  function Negated(v: Option<real>): Option<real>
  {
    if v.None? then None else Some(-v.value)
  }

  /** An unsigned decimal literal: digits, optionally a dot and more digits,
      with at least one digit in all. */
  function DecimalMagnitude(body: string): Option<real>
  {
    var dot := IndexOfChar(body, '.');
    var whole := body[..dot];
    var frac := if dot < |body| then body[dot + 1..] else [];
    if AllDigits(whole) && AllDigits(frac) && |whole| + |frac| > 0 then
      Some(DigitsValue(whole) as real + FractionValue(frac))
    else None
  }

  /** The value of digits read after a decimal point. */
  function FractionValue(frac: string): real
    requires AllDigits(frac)
  {
    if frac == [] then 0.0 else ((frac[0] - '0') as real + FractionValue(frac[1..])) / 10.0
  }

  lemma {:induction false} NoDotInDigits(d: string)
    requires AllDigits(d)
    ensures IndexOfChar(d, '.') == |d|
  {
  }

  /** Digits alone are an unsigned decimal literal of their value. */
  lemma {:induction false} DecimalMagnitudeOfDigits(d: string)
    requires d != [] && AllDigits(d)
    ensures DecimalMagnitude(d) == Some(DigitsValue(d) as real)
  {
    NoDotInDigits(d);
    assert d[..IndexOfChar(d, '.')] == d;
  }

  /** A leading minus negates the magnitude that follows it. */
  lemma {:induction false} ParseDecimalNegative(d: string, v: real)
    requires DecimalMagnitude(d) == Some(v) && Strip("-" + d) == "-" + d
    ensures ParseDecimal("-" + d) == Some(-v)
  {
    var t := "-" + d;
    assert t[0] == '-' && t[1..] == d;
  }

  lemma {:induction false} StripDigits(d: string)
    requires d != [] && AllDigits(d)
    ensures Strip(d) == d
  {
    assert IsDigit(d[0]) && IsDigit(d[|d| - 1]);
    StripSetNoop(d, Spaces);
  }

  lemma {:induction false} StripMinusDigits(d: string)
    requires d != [] && AllDigits(d)
    ensures Strip("-" + d) == "-" + d
  {
    assert IsDigit(d[|d| - 1]) && ("-" + d)[|d|] == d[|d| - 1];
    StripSetNoop("-" + d, Spaces);
  }

  /** A string of digits is a `float()` literal of its value. */
  lemma {:induction false} ParseDecimalOfDigits(d: string)
    requires d != [] && AllDigits(d)
    ensures ParseDecimal(d) == Some(DigitsValue(d) as real)
  {
    StripDigits(d);
    DecimalMagnitudeOfDigits(d);
    assert IsDigit(d[0]);
  }

  /** A minus sign and digits is a `float()` literal of the negated value. */
  lemma {:induction false} ParseDecimalOfMinusDigits(d: string)
    requires d != [] && AllDigits(d)
    ensures ParseDecimal("-" + d) == Some(-(DigitsValue(d) as real))
  {
    StripMinusDigits(d);
    DecimalMagnitudeOfDigits(d);
    ParseDecimalNegative(d, DigitsValue(d) as real);
  }

  /** Every integer rendering is also a valid `float()` literal of the same value. */
  lemma {:induction false} ParseDecimalOfInt(n: int)
    ensures ParseDecimal(IntToString(n)) == Some(n as real)
  {
    if n < 0 {
      var d := NatToString(-n);
      assert IntToString(n) == "-" + d;
      var v: real := DigitsValue(d) as real;
      assert v == -(n as real) by {
        NatToStringValue(-n);
      }
      ParseDecimalOfMinusDigits(d);
    } else {
      var v: real := DigitsValue(NatToString(n)) as real;
      assert v == n as real by {
        NatToStringValue(n);
      }
      ParseDecimalOfDigits(NatToString(n));
    }
  }

  function HexDigitValue(c: char): nat
  {
    if '0' <= c <= '9' then (c - '0') as nat
    else if 'a' <= c <= 'f' then (c - 'a') as nat + 10
    else if 'A' <= c <= 'F' then (c - 'A') as nat + 10
    else 0
  }

  predicate IsHexDigit(c: char) {
    '0' <= c <= '9' || 'a' <= c <= 'f' || 'A' <= c <= 'F'
  }

  /** `int(h, 16)` for a string of hexadecimal digits. */
  function HexValue(h: string): nat
  {
    if h == [] then 0 else HexValue(h[..|h| - 1]) * 16 + HexDigitValue(h[|h| - 1])
  }
}
