/**
 * The handful of Python string operations the engine relies on, over ASCII:
 * `int()`/`str()` on integers, `isdigit`, `lower`, `title`, `strip`,
 * `startswith`/`endswith`/`in`, `replace` of one character and `split`.
 */
module Text {
  import opened Wrappers

  predicate IsDigit(c: char) { '0' <= c <= '9' }

  predicate AllDigits(s: string) { forall i :: 0 <= i < |s| ==> IsDigit(s[i]) }

  /** `str.isdigit()`: at least one character and all of them digits. */
  predicate IsDecimal(s: string) { |s| > 0 && AllDigits(s) }

  function DigitChar(d: nat): char
    requires d < 10
  {
    ('0' as int + d) as char
  }

  function DigitsValue(s: string): nat
    requires AllDigits(s)
  {
    if |s| == 0 then 0 else DigitsValue(s[..|s| - 1]) * 10 + (s[|s| - 1] as int - '0' as int)
  }

  /** Python's `int(s)` on text: an optional sign followed by decimal digits (leading zeros allowed). */
  function ParseInt(s: string): Option<int>
  {
    if |s| > 0 && s[0] == '-' && IsDecimal(s[1..]) then Some(-(DigitsValue(s[1..]) as int))
    else if |s| > 0 && s[0] == '+' && IsDecimal(s[1..]) then Some(DigitsValue(s[1..]))
    else if IsDecimal(s) then Some(DigitsValue(s))
    else None
  }

  function NatToString(n: nat): (s: string)
    ensures IsDecimal(s)
  {
    if n < 10 then [DigitChar(n)] else NatToString(n / 10) + [DigitChar(n % 10)]
  }

  /** Python's `str(n)` for an integer. */
  function IntToString(n: int): string
  {
    if n < 0 then "-" + NatToString(-n) else NatToString(n)
  }

  /** `f"{n:02}"` for a non-negative integer. */
  function Pad2(n: nat): string
  {
    if n < 10 then "0" + NatToString(n) else NatToString(n)
  }

  lemma {:induction false} DigitsValueOfNatToString(n: nat)
    ensures DigitsValue(NatToString(n)) == n
  {
    if n >= 10 {
      var s := NatToString(n);
      assert s[..|s| - 1] == NatToString(n / 10);
      DigitsValueOfNatToString(n / 10);
    }
  }

  /** `int(str(n)) == n` for every integer. */
  lemma ParseIntOfIntToString(n: int)
    ensures ParseInt(IntToString(n)) == Some(n)
  {
    if n < 0 {
      var s := IntToString(n);
      assert s[0] == '-' && s[1..] == NatToString(-n);
      DigitsValueOfNatToString(-n);
      assert ParseInt(s) == Some(-(DigitsValue(NatToString(-n)) as int));
    } else {
      var s := NatToString(n);
      DigitsValueOfNatToString(n);
      assert s[0] != '-' && s[0] != '+';
      assert ParseInt(s) == Some(DigitsValue(s));
    }
  }

  lemma ParseIntOfPad2(n: nat)
    ensures ParseInt(Pad2(n)) == Some(n)
  {
    DigitsValueOfNatToString(n);
    if n < 10 {
      var s := Pad2(n);
      assert s[..|s| - 1] == "0";
      assert DigitsValue("0") == 0 by { assert "0"[..0] == ""; }
    }
  }

  lemma NoSignInNatToString(n: nat)
    ensures forall i :: 0 <= i < |NatToString(n)| ==> NatToString(n)[i] !in {'-', '+', ' ', '_', 'T', ':', ','}
  {
  }

  predicate IsUpper(c: char) { 'A' <= c <= 'Z' }
  predicate IsLower(c: char) { 'a' <= c <= 'z' }

  function LowerChar(c: char): char
  {
    if IsUpper(c) then (c as int + 32) as char else c
  }

  function UpperChar(c: char): char
  {
    if IsLower(c) then (c as int - 32) as char else c
  }

  /** `str.lower()` on ASCII letters. */
  function Lower(s: string): (r: string)
    ensures |r| == |s| && forall i :: 0 <= i < |s| ==> r[i] == LowerChar(s[i])
  {
    seq(|s|, i requires 0 <= i < |s| => LowerChar(s[i]))
  }

  function LowerAll(xs: seq<string>): (r: seq<string>)
    ensures |r| == |xs| && forall i :: 0 <= i < |xs| ==> r[i] == Lower(xs[i])
  {
    seq(|xs|, i requires 0 <= i < |xs| => Lower(xs[i]))
  }

  /** `str.title()`: a letter is upper-cased after a non-letter and lower-cased after a letter. */
  function Title(s: string): string
  {
    TitleAfter(s, false)
  }

  function TitleAfter(s: string, prevCased: bool): string
  {
    if |s| == 0 then ""
    else
      var c := s[0];
      var cased := IsUpper(c) || IsLower(c);
      [if !cased then c else if prevCased then LowerChar(c) else UpperChar(c)] + TitleAfter(s[1..], cased)
  }

  /** Characters `str.isspace()` accepts in the ASCII range. */
  predicate IsSpace(c: char)
  {
    c == ' ' || 9 <= c as int <= 13 || 28 <= c as int <= 31
  }

  function TrimStart(s: string): string
  {
    if |s| > 0 && IsSpace(s[0]) then TrimStart(s[1..]) else s
  }

  function TrimEnd(s: string): string
  {
    if |s| > 0 && IsSpace(s[|s| - 1]) then TrimEnd(s[..|s| - 1]) else s
  }

  /** `str.strip()`. */
  function Strip(s: string): string
  {
    TrimEnd(TrimStart(s))
  }

  predicate StartsWith(s: string, p: string) { |p| <= |s| && s[..|p|] == p }

  predicate EndsWith(s: string, p: string) { |p| <= |s| && s[|s| - |p|..] == p }

  /** `needle in hay` on strings. */
  predicate Contains(hay: string, needle: string)
    decreases |hay|
  {
    StartsWith(hay, needle) || (|hay| > 0 && Contains(hay[1..], needle))
  }

  lemma {:induction false} ContainsInfix(a: string, n: string, b: string)
    ensures Contains(a + n + b, n)
  {
    if |a| > 0 {
      assert (a + n + b)[1..] == a[1..] + n + b;
      ContainsInfix(a[1..], n, b);
    } else {
      assert a + n + b == n + b;
      assert (n + b)[..|n|] == n;
    }
  }

  /** Every character of `s` that is not in `drop`, in order (a chain of `replace(c, "")`). */
  function Filter(s: string, drop: set<char>): (r: string)
    ensures |r| <= |s|
    ensures forall i :: 0 <= i < |r| ==> r[i] !in drop
  {
    if |s| == 0 then ""
    else if s[0] in drop then Filter(s[1..], drop)
    else [s[0]] + Filter(s[1..], drop)
  }

  /** Filtering works character by character: a kept character stays, a dropped one vanishes. */
  lemma FilterChar(c: char, drop: set<char>)
    ensures Filter([c], drop) == if c in drop then "" else [c]
  {
    assert [c][1..] == "";
  }

  /** Filtering a concatenation filters each part, keeping their order. */
  lemma {:induction false} FilterConcat(a: string, b: string, drop: set<char>)
    ensures Filter(a + b, drop) == Filter(a, drop) + Filter(b, drop)
  {
    if |a| == 0 {
      assert a + b == b;
    } else {
      assert (a + b)[0] == a[0] && (a + b)[1..] == a[1..] + b;
      FilterConcat(a[1..], b, drop);
    }
  }

  lemma {:induction false} FilterKeepsFree(s: string, drop: set<char>)
    requires forall i :: 0 <= i < |s| ==> s[i] !in drop
    ensures Filter(s, drop) == s
  {
    if |s| > 0 {
      FilterKeepsFree(s[1..], drop);
    }
  }

  /** Filtering only deletes: a character absent from `s` is absent from the result. */
  lemma {:induction false} FilterAvoids(s: string, drop: set<char>, c: char)
    requires forall i :: 0 <= i < |s| ==> s[i] != c
    ensures forall i :: 0 <= i < |Filter(s, drop)| ==> Filter(s, drop)[i] != c
  {
    if |s| > 0 {
      FilterAvoids(s[1..], drop, c);
    }
  }

  /** `s.replace(a, b)` for single characters. */
  function ReplaceChar(s: string, a: char, b: char): (r: string)
    ensures |r| == |s|
    ensures forall i :: 0 <= i < |s| ==> r[i] == if s[i] == a then b else s[i]
  {
    if |s| == 0 then "" else [if s[0] == a then b else s[0]] + ReplaceChar(s[1..], a, b)
  }

  function CountChar(s: string, c: char): nat
  {
    if |s| == 0 then 0 else (if s[0] == c then 1 else 0) + CountChar(s[1..], c)
  }

  lemma {:induction false} CountCharConcat(x: string, y: string, c: char)
    ensures CountChar(x + y, c) == CountChar(x, c) + CountChar(y, c)
  {
    if |x| > 0 {
      assert (x + y)[1..] == x[1..] + y;
      CountCharConcat(x[1..], y, c);
    } else {
      assert x + y == y;
    }
  }

  lemma {:induction false} CountCharAbsent(s: string, c: char)
    requires forall i :: 0 <= i < |s| ==> s[i] != c
    ensures CountChar(s, c) == 0
  {
    if |s| > 0 {
      CountCharAbsent(s[1..], c);
    }
  }

  /** Replacing `a` by `b` turns every `a` into one more `b`. */
  lemma {:induction false} CountAfterReplace(s: string, a: char, b: char)
    requires a != b
    ensures CountChar(ReplaceChar(s, a, b), b) == CountChar(s, b) + CountChar(s, a)
  {
    if |s| > 0 {
      CountAfterReplace(s[1..], a, b);
    }
  }

  /** `s.split(c)` for a single-character separator: never empty. */
  function Split(s: string, c: char): (parts: seq<string>)
    ensures |parts| >= 1
  {
    if |s| == 0 then [""]
    else if s[0] == c then [""] + Split(s[1..], c)
    else
      var rest := Split(s[1..], c);
      [[s[0]] + rest[0]] + rest[1..]
  }

  lemma {:induction false} SplitFree(a: string, c: char)
    requires forall i :: 0 <= i < |a| ==> a[i] != c
    ensures Split(a, c) == [a]
  {
    if |a| > 0 {
      SplitFree(a[1..], c);
      assert [a[0]] + a[1..] == a;
    }
  }

  lemma {:induction false} SplitAt(a: string, c: char, b: string)
    requires forall i :: 0 <= i < |a| ==> a[i] != c
    ensures Split(a + [c] + b, c) == [a] + Split(b, c)
  {
    if |a| == 0 {
      assert a + [c] + b == [c] + b;
      assert ([c] + b)[0] == c && ([c] + b)[1..] == b;
      assert a == "";
    } else {
      var s := a + [c] + b;
      assert s[0] == a[0] && a[0] != c;
      assert s[1..] == a[1..] + [c] + b;
      SplitAt(a[1..], c, b);
      var rest := Split(s[1..], c);
      assert rest[0] == a[1..] && rest[1..] == Split(b, c);
      assert [s[0]] + rest[0] == a;
    }
  }

  /** `sep.join(xs)`. */
  function Join(sep: string, xs: seq<string>): string
  {
    if |xs| == 0 then "" else if |xs| == 1 then xs[0] else xs[0] + sep + Join(sep, xs[1..])
  }
}
