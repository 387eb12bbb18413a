/**
 * The configuration writer of config_form2.py: the text of a new `Files(...)`
 * entry built from the form's values, and the edit that replaces a client's
 * entry in the lines of the configuration file.
 */
module ConfigForm {
  import opened Wrappers
  import opened Text

  // ---------------------------------------------------------------------------
  // Python values and their renderings
  // ---------------------------------------------------------------------------

  /** A value the form's dictionary holds: text, `None`, or a float written as its `str()`. */
  datatype PyValue = PyStr(s: string) | PyNone | PyFloat(text: string)

  /** `str(v)`, which is also what an f-string interpolates. */
  function Str(v: PyValue): (r: string)
    ensures v.PyStr? ==> r == v.s
    ensures v.PyNone? ==> r == "None"
  {
    match v
    case PyStr(s) => s
    case PyNone => "None"
    case PyFloat(t) => t
  }

  /** Python truthiness: the empty text, `None` and a zero float are false. */
  predicate Truthy(v: PyValue)
  {
    match v
    case PyStr(s) => s != ""
    case PyNone => false
    case PyFloat(t) => t != "0.0" && t != "-0.0"
  }

  /** `quote`: text between double quotes, with nothing escaped; any other value as `str` renders it. */
  function Quote(v: PyValue): (r: string)
    ensures v.PyStr? ==> |r| == |v.s| + 2 && r[0] == '"' && r[|r| - 1] == '"' && r[1..|r| - 1] == v.s
    ensures !v.PyStr? ==> r == Str(v)
  {
    if v.PyStr? then "\"" + v.s + "\"" else Str(v)
  }

  /** `quote(x) if x else "None"`, used for the three optional numbers. */
  function OptionalQuote(v: PyValue): (r: string)
    ensures !Truthy(v) ==> r == "None"
    ensures Truthy(v) && v.PyStr? ==> r == "\"" + v.s + "\""
  {
    if Truthy(v) then Quote(v) else "None"
  }

  // ---------------------------------------------------------------------------
  // repr() of a list of strings
  // ---------------------------------------------------------------------------

  /** The quote `repr` chooses: double quotes only for text with a single quote and no double quote. */
  function ReprQuote(s: string): (q: char)
    ensures q == '\'' || q == '"'
  {
    if '\'' in s && '"' !in s then '"' else '\''
  }

  /** One character inside a `repr` literal delimited by `q`. */
  function ReprChar(c: char, q: char): string
  {
    if c == q || c == '\\' then ['\\', c]
    else if c == '\n' then "\\n"
    else if c == '\r' then "\\r"
    else if c == '\t' then "\\t"
    else [c]
  }

  function ReprBody(s: string, q: char): string
  {
    if |s| == 0 then "" else ReprChar(s[0], q) + ReprBody(s[1..], q)
  }

  /** `repr(s)` for text. */
  function ReprStr(s: string): (r: string)
    ensures |r| >= 2
  {
    var q := ReprQuote(s);
    [q] + ReprBody(s, q) + [q]
  }

  function ReprItems(xs: seq<string>): string
  {
    if |xs| == 0 then "" else if |xs| == 1 then ReprStr(xs[0]) else ReprStr(xs[0]) + ", " + ReprItems(xs[1..])
  }

  /** `str(xs)` for a list of strings, as the f-string interpolates it. */
  function ListRepr(xs: seq<string>): (r: string)
    ensures |r| == 2 <==> xs == []
  {
    "[" + ReprItems(xs) + "]"
  }

  /** Reads back the body of a `repr` literal delimited by `q`. */
  function ReprUnescape(t: string, q: char): Option<string>
    decreases |t|
  {
    if |t| == 0 then Some("")
    else if t[0] == '\\' then
      if |t| < 2 then None
      else
        var c := t[1];
        var d := if c == 'n' then Some('\n') else if c == 'r' then Some('\r') else if c == 't' then Some('\t')
                 else if c == '\\' || c == '\'' || c == '"' then Some(c) else None;
        match d
        case None => None
        case Some(ch) => Prepend(ch, ReprUnescape(t[2..], q))
    else if t[0] == q then None
    else Prepend(t[0], ReprUnescape(t[1..], q))
  }

  function Prepend(c: char, o: Option<string>): Option<string>
  {
    match o
    case None => None
    case Some(s) => Some([c] + s)
  }

  /** Reads back a `repr` literal of text. */
  function DecodeReprStr(lit: string): Option<string>
  {
    if |lit| >= 2 && (lit[0] == '\'' || lit[0] == '"') && lit[|lit| - 1] == lit[0]
    then ReprUnescape(lit[1..|lit| - 1], lit[0])
    else None
  }

  lemma ReprCharDecodes(c: char, q: char, rest: string)
    requires q == '\'' || q == '"'
    ensures ReprUnescape(ReprChar(c, q) + rest, q) == Prepend(c, ReprUnescape(rest, q))
  {
    var t := ReprChar(c, q) + rest;
    if |ReprChar(c, q)| == 2 {
      assert t[2..] == rest;
    } else {
      assert t[1..] == rest;
    }
  }

  lemma {:induction false} ReprBodyDecodes(s: string, q: char)
    requires q == '\'' || q == '"'
    ensures ReprUnescape(ReprBody(s, q), q) == Some(s)
  {
    if |s| > 0 {
      ReprCharDecodes(s[0], q, ReprBody(s[1..], q));
      ReprBodyDecodes(s[1..], q);
      assert [s[0]] + s[1..] == s;
    }
  }

  /** Reading back `repr(s)` gives `s`. */
  lemma ReprStrRoundTrip(s: string)
    ensures DecodeReprStr(ReprStr(s)) == Some(s)
  {
    var q := ReprQuote(s);
    var lit := ReprStr(s);
    assert lit[1..|lit| - 1] == ReprBody(s, q);
    ReprBodyDecodes(s, q);
  }

  // ---------------------------------------------------------------------------
  // json.dumps() of a list of strings (default settings: ASCII output)
  // ---------------------------------------------------------------------------

  function HexDigit(d: nat): (c: char)
    requires d < 16
  {
    if d < 10 then ('0' as int + d) as char else ('a' as int + d - 10) as char
  }

  function HexValue(c: char): Option<nat>
  {
    if '0' <= c <= '9' then Some(c as int - '0' as int)
    else if 'a' <= c <= 'f' then Some(c as int - 'a' as int + 10)
    else if 'A' <= c <= 'F' then Some(c as int - 'A' as int + 10)
    else None
  }

  lemma HexDigitValue(d: nat)
    requires d < 16
    ensures HexValue(HexDigit(d)) == Some(d)
  {
  }

  /** Four lowercase hex digits. */
  function Hex4(n: nat): (r: string)
    requires n < 0x10000
    ensures |r| == 4
  {
    [HexDigit(n / 0x1000), HexDigit(n / 0x100 % 16), HexDigit(n / 16 % 16), HexDigit(n % 16)]
  }

  function Hex4Value(t: string): Option<nat>
    requires |t| == 4
  {
    match (HexValue(t[0]), HexValue(t[1]), HexValue(t[2]), HexValue(t[3]))
    case (Some(a), Some(b), Some(c), Some(d)) => Some(((a * 16 + b) * 16 + c) * 16 + d)
    case _ => None
  }

  lemma Hex4RoundTrip(n: nat)
    requires n < 0x10000
    ensures Hex4Value(Hex4(n)) == Some(n)
  {
    var h := Hex4(n);
    HexDigitValue(n / 0x1000);
    HexDigitValue(n / 0x100 % 16);
    HexDigitValue(n / 16 % 16);
    HexDigitValue(n % 16);
    assert n / 0x100 == n / 0x1000 * 16 + n / 0x100 % 16;
    assert n / 16 == n / 0x100 * 16 + n / 16 % 16;
    assert n == n / 16 * 16 + n % 16;
  }

  /** `\uXXXX`. */
  function UnicodeEscape(n: nat): (r: string)
    requires n < 0x10000
    ensures |r| == 6
  {
    "\\u" + Hex4(n)
  }

  /** One character inside a JSON string: the short escapes, `\u` escapes (a surrogate pair above U+FFFF) for everything outside printable ASCII. */
  function JsonChar(c: char): string
  {
    var n := c as int;
    if c == '"' || c == '\\' then ['\\', c]
    else if c == '\n' then "\\n"
    else if c == '\r' then "\\r"
    else if c == '\t' then "\\t"
    else if n == 8 then "\\b"
    else if n == 12 then "\\f"
    else if 0x20 <= n <= 0x7E then [c]
    else if n < 0x10000 then UnicodeEscape(n)
    else
      var m := n - 0x10000;
      UnicodeEscape(0xD800 + m / 0x400) + UnicodeEscape(0xDC00 + m % 0x400)
  }

  function JsonBody(s: string): string
  {
    if |s| == 0 then "" else JsonChar(s[0]) + JsonBody(s[1..])
  }

  /** `json.dumps(s)` for text. */
  function JsonStr(s: string): (r: string)
    ensures |r| >= 2
  {
    "\"" + JsonBody(s) + "\""
  }

  function JsonItems(xs: seq<string>): string
  {
    if |xs| == 0 then "" else if |xs| == 1 then JsonStr(xs[0]) else JsonStr(xs[0]) + ", " + JsonItems(xs[1..])
  }

  /** `json.dumps(xs)` for a list of strings. */
  function JsonList(xs: seq<string>): (r: string)
    ensures |r| == 2 <==> xs == []
  {
    "[" + JsonItems(xs) + "]"
  }

  /** The code point a `\u` escape stands for, when it is not half of a surrogate pair. */
  predicate IsScalar(v: int)
  {
    0 <= v < 0xD800 || 0xE000 <= v < 0x110000
  }

  /** Reads back the body of a JSON string. */
  function JsonUnescape(t: string): Option<string>
    decreases |t|
  {
    if |t| == 0 then Some("")
    else if t[0] == '"' then None
    else if t[0] != '\\' then Prepend(t[0], JsonUnescape(t[1..]))
    else if |t| < 2 then None
    else if t[1] == 'u' then
      if |t| < 6 then None
      else match Hex4Value(t[2..6])
        case None => None
        case Some(v) =>
          if 0xD800 <= v < 0xDC00 then
            if |t| < 12 || t[6] != '\\' || t[7] != 'u' then None
            else match Hex4Value(t[8..12])
              case None => None
              case Some(w) =>
                if 0xDC00 <= w < 0xE000 then
                  var cp := 0x10000 + (v - 0xD800) * 0x400 + (w - 0xDC00);
                  Prepend(cp as char, JsonUnescape(t[12..]))
                else None
          else if IsScalar(v) then Prepend(v as char, JsonUnescape(t[6..]))
          else None
    else
      var c := t[1];
      var d := if c == 'n' then Some('\n') else if c == 'r' then Some('\r') else if c == 't' then Some('\t')
               else if c == 'b' then Some(8 as char) else if c == 'f' then Some(12 as char)
               else if c == '"' || c == '\\' || c == '/' then Some(c) else None;
      match d
      case None => None
      case Some(ch) => Prepend(ch, JsonUnescape(t[2..]))
  }

  /** Reads back a JSON string literal. */
  function DecodeJsonStr(lit: string): Option<string>
  {
    if |lit| >= 2 && lit[0] == '"' && lit[|lit| - 1] == '"' then JsonUnescape(lit[1..|lit| - 1]) else None
  }

  lemma SurrogatePair(n: int)
    requires 0x10000 <= n < 0x110000
    ensures var m := n - 0x10000;
            && 0xD800 <= 0xD800 + m / 0x400 < 0xDC00
            && 0xDC00 <= 0xDC00 + m % 0x400 < 0xE000
            && 0x10000 + m / 0x400 * 0x400 + m % 0x400 == n
  {
  }

  lemma JsonCharDecodes(c: char, rest: string)
    ensures JsonUnescape(JsonChar(c) + rest) == Prepend(c, JsonUnescape(rest))
  {
    var n := c as int;
    if c == '"' || c == '\\' || c == '\n' || c == '\r' || c == '\t' || n == 8 || n == 12 {
      ShortEscapeDecodes(c, rest);
    } else if 0x20 <= n <= 0x7E {
      var t := JsonChar(c) + rest;
      assert t[1..] == rest;
    } else if n < 0x10000 {
      UnicodeEscapeDecodes(c, rest);
    } else {
      SurrogatePairDecodes(c, rest);
    }
  }

  lemma ShortEscapeDecodes(c: char, rest: string)
    requires c == '"' || c == '\\' || c == '\n' || c == '\r' || c == '\t' || c as int == 8 || c as int == 12
    ensures JsonUnescape(JsonChar(c) + rest) == Prepend(c, JsonUnescape(rest))
  {
    var t := JsonChar(c) + rest;
    assert |JsonChar(c)| == 2 && t[0] == '\\';
    assert t[2..] == rest;
  }

  lemma UnicodeEscapeDecodes(c: char, rest: string)
    requires !(c == '"' || c == '\\' || c == '\n' || c == '\r' || c == '\t' || c as int == 8 || c as int == 12)
    requires !(0x20 <= c as int <= 0x7E) && c as int < 0x10000
    ensures JsonUnescape(JsonChar(c) + rest) == Prepend(c, JsonUnescape(rest))
  {
    var n := c as int;
    var t := JsonChar(c) + rest;
    assert JsonChar(c) == UnicodeEscape(n);
    assert t[0] == '\\' && t[1] == 'u';
    assert t[2..6] == Hex4(n);
    Hex4RoundTrip(n);
    assert !(0xD800 <= n < 0xE000) && IsScalar(n);
    assert t[6..] == rest;
  }

  lemma SurrogatePairDecodes(c: char, rest: string)
    requires c as int >= 0x10000
    ensures JsonUnescape(JsonChar(c) + rest) == Prepend(c, JsonUnescape(rest))
  {
    var n := c as int;
    var m := n - 0x10000;
    SurrogatePair(n);
    var hi, lo := 0xD800 + m / 0x400, 0xDC00 + m % 0x400;
    assert JsonChar(c) == UnicodeEscape(hi) + UnicodeEscape(lo);
    EscapedPairDecodes(hi, lo, rest);
    SurrogateRecombines(n, hi, lo);
  }

  /** The two surrogates of a code point above U+FFFF recombine to it. */
  lemma SurrogateRecombines(n: int, hi: int, lo: int)
    requires 0x10000 <= n
    requires hi == 0xD800 + (n - 0x10000) / 0x400 && lo == 0xDC00 + (n - 0x10000) % 0x400
    ensures 0x10000 + (hi - 0xD800) * 0x400 + (lo - 0xDC00) == n
  {
    var m := n - 0x10000;
    assert hi - 0xD800 == m / 0x400 && lo - 0xDC00 == m % 0x400;
  }

  /** Two `\u` escapes of a high and a low surrogate read back as the one character they encode. */
  lemma EscapedPairDecodes(hi: nat, lo: nat, rest: string)
    requires 0xD800 <= hi < 0xDC00 <= lo < 0xE000
    ensures JsonUnescape(UnicodeEscape(hi) + UnicodeEscape(lo) + rest)
            == Prepend((0x10000 + (hi - 0xD800) * 0x400 + (lo - 0xDC00)) as char, JsonUnescape(rest))
  {
    var t := UnicodeEscape(hi) + UnicodeEscape(lo) + rest;
    assert t == "\\u" + Hex4(hi) + "\\u" + Hex4(lo) + rest;
    assert t[0] == '\\' && t[1] == 'u' && t[6] == '\\' && t[7] == 'u';
    assert t[2..6] == Hex4(hi);
    assert t[8..12] == Hex4(lo);
    assert t[12..] == rest;
    Hex4RoundTrip(hi);
    Hex4RoundTrip(lo);
    assert Hex4Value(t[2..6]) == Some(hi) && Hex4Value(t[8..12]) == Some(lo);
  }

  lemma {:induction false} JsonBodyDecodes(s: string)
    ensures JsonUnescape(JsonBody(s)) == Some(s)
  {
    if |s| > 0 {
      JsonCharDecodes(s[0], JsonBody(s[1..]));
      JsonBodyDecodes(s[1..]);
      assert [s[0]] + s[1..] == s;
    }
  }

  /** Reading back `json.dumps(s)` gives `s`. */
  lemma JsonStrRoundTrip(s: string)
    ensures DecodeJsonStr(JsonStr(s)) == Some(s)
  {
    var lit := JsonStr(s);
    assert lit[1..|lit| - 1] == JsonBody(s);
    JsonBodyDecodes(s);
  }

  /** Printable ASCII other than the quote and the backslash is written as it is. */
  lemma {:induction false} JsonBodyKeepsPlainText(s: string)
    requires forall i :: 0 <= i < |s| ==> 0x20 <= s[i] as int <= 0x7E && s[i] != '"' && s[i] != '\\'
    ensures JsonBody(s) == s
  {
    if |s| > 0 {
      assert JsonChar(s[0]) == [s[0]];
      assert forall i :: 0 <= i < |s[1..]| ==> s[1..][i] == s[i + 1];
      JsonBodyKeepsPlainText(s[1..]);
      assert [s[0]] + s[1..] == s;
    }
  }

  // ---------------------------------------------------------------------------
  // generate_config_entry
  // ---------------------------------------------------------------------------

  /** The dictionary the form submits. */
  datatype FormData = FormData(
    client: PyValue,
    dashboard: PyValue,
    console: PyValue,
    output: PyValue,
    carrier: PyValue,
    number1: PyValue,
    number1Rate: PyValue,
    number1RateType: PyValue,
    number1ChargeableCallTypes: seq<string>,
    number2: PyValue,
    number2Rate: PyValue,
    number2RateType: PyValue,
    number2ChargeableCallTypes: seq<string>,
    rate: PyValue,
    rateType: PyValue,
    s2c: PyValue,
    s2cRate: PyValue,
    s2cRateType: PyValue,
    chargeableCallTypes: seq<string>)

  /** One keyword-argument line of the entry. */
  function Field(name: string, value: string): string
  {
    "        " + name + "=" + value + ","
  }

  /** The lines of the entry template, with the list rendered on the `number2_chargeable_call_types` line passed in. */
  function EntryLines(d: FormData, number2Types: seq<string>): (ls: seq<string>)
    ensures |ls| == 21
  {
    LinesBefore(d) + [Field("number2_chargeable_call_types", ListRepr(number2Types))] + LinesAfter(d)
  }

  /** The template lines from `Files(` to `number2_rate_type`. */
  function LinesBefore(d: FormData): (ls: seq<string>)
    ensures |ls| == 13
  {
    [ "    Files(",
      Field("client", Quote(d.client)),
      Field("dashboard", Quote(d.dashboard)),
      Field("console", Quote(d.console)),
      Field("output", Quote(d.output)),
      Field("carrier", Quote(d.carrier)),
      Field("number1", OptionalQuote(d.number1)),
      Field("number1_rate", Str(d.number1Rate)),
      Field("number1_rate_type", Quote(d.number1RateType)),
      Field("number1_chargeable_call_types", ListRepr(d.number1ChargeableCallTypes)),
      Field("number2", OptionalQuote(d.number2)),
      Field("number2_rate", Str(d.number2Rate)),
      Field("number2_rate_type", Quote(d.number2RateType)) ]
  }

  /** The template lines from `rate` to the closing `),`. */
  function LinesAfter(d: FormData): (ls: seq<string>)
    ensures |ls| == 7
  {
    [ Field("rate", Str(d.rate)),
      Field("rate_type", Quote(d.rateType)),
      Field("s2c", OptionalQuote(d.s2c)),
      Field("s2c_rate", Str(d.s2cRate)),
      Field("s2c_rate_type", Quote(d.s2cRateType)),
      Field("chargeable_call_types", JsonList(d.chargeableCallTypes)),
      "    )," ]
  }

  /** The line of the template that carries the `number2_chargeable_call_types` list. */
  const Number2TypesLine := 13

  /** `generate_config_entry` as written: the `number2_chargeable_call_types` line renders number 1's list. */
  function GenerateConfigEntry(d: FormData): (r: string)
    ensures StartsWith(r, "    Files(\n") && EndsWith(r, "\n    ),")
    ensures d.client.PyStr? ==> IsClientLine(r, d.client.s)
  {
    EntryFramed(d, d.number1ChargeableCallTypes);
    assert d.client.PyStr? ==> IsClientLine(Join("\n", EntryLines(d, d.number1ChargeableCallTypes)), d.client.s) by {
      if d.client.PyStr? { EntryNamesClient(d, d.number1ChargeableCallTypes, d.client.s); }
    }
    Join("\n", EntryLines(d, d.number1ChargeableCallTypes))
  }

  /** `generate_config_entry` rendering each list from its own field. */
  function GenerateConfigEntryIntended(d: FormData): (r: string)
    ensures StartsWith(r, "    Files(\n") && EndsWith(r, "\n    ),")
    ensures d.client.PyStr? ==> IsClientLine(r, d.client.s)
  {
    EntryFramed(d, d.number2ChargeableCallTypes);
    assert d.client.PyStr? ==> IsClientLine(Join("\n", EntryLines(d, d.number2ChargeableCallTypes)), d.client.s) by {
      if d.client.PyStr? { EntryNamesClient(d, d.number2ChargeableCallTypes, d.client.s); }
    }
    Join("\n", EntryLines(d, d.number2ChargeableCallTypes))
  }

  /** The joined text before element `k`, separator included. */
  function JoinedBefore(sep: string, xs: seq<string>, k: nat): string
    requires k <= |xs|
  {
    if k == 0 then "" else Join(sep, xs[..k]) + sep
  }

  /** The joined text after element `k`, separator included. */
  function JoinedAfter(sep: string, xs: seq<string>, k: nat): string
    requires k < |xs|
  {
    if k == |xs| - 1 then "" else sep + Join(sep, xs[k + 1..])
  }

  lemma {:induction false} JoinAround(sep: string, xs: seq<string>, k: nat)
    requires k < |xs|
    ensures Join(sep, xs) == JoinedBefore(sep, xs, k) + xs[k] + JoinedAfter(sep, xs, k)
  {
    if k > 0 {
      var tail := xs[1..];
      JoinAround(sep, tail, k - 1);
      assert tail[k - 1] == xs[k];
      assert JoinedAfter(sep, tail, k - 1) == JoinedAfter(sep, xs, k) by {
        assert tail[k - 1 + 1..] == xs[k + 1..];
      }
      assert JoinedBefore(sep, xs, k) == xs[0] + sep + JoinedBefore(sep, tail, k - 1) by {
        if k > 1 {
          assert xs[..k][1..] == tail[..k - 1];
        } else {
          assert xs[..k] == [xs[0]];
        }
      }
      assert Join(sep, xs) == xs[0] + sep + Join(sep, tail);
    }
  }

  /** Every element of a joined list occurs in the joined text. */
  lemma JoinContains(sep: string, xs: seq<string>, k: nat)
    requires k < |xs|
    ensures Contains(Join(sep, xs), xs[k])
  {
    JoinAround(sep, xs, k);
    ContainsInfix(JoinedBefore(sep, xs, k), xs[k], JoinedAfter(sep, xs, k));
  }

  lemma CancelAround(p: string, x: string, y: string, s: string)
    ensures p + x + s == p + y + s <==> x == y
  {
    if p + x + s == p + y + s {
      assert |x| == |y|;
      assert x == (p + x + s)[|p|..|p| + |x|];
      assert y == (p + y + s)[|p|..|p| + |y|];
    }
  }

  /** Two entries for the same form data differ exactly where their `number2_chargeable_call_types` renderings differ. */
  lemma EntryTextDiffersOnlyInNumber2Types(d: FormData, x: seq<string>, y: seq<string>)
    ensures Join("\n", EntryLines(d, x)) == Join("\n", EntryLines(d, y)) <==> ListRepr(x) == ListRepr(y)
  {
    var xs, ys, k := EntryLines(d, x), EntryLines(d, y), Number2TypesLine;
    assert xs[..k] == ys[..k] && xs[k + 1..] == ys[k + 1..];
    var p, s := JoinedBefore("\n", xs, k), JoinedAfter("\n", xs, k);
    assert JoinedBefore("\n", ys, k) == p && JoinedAfter("\n", ys, k) == s;
    JoinAround("\n", xs, k);
    JoinAround("\n", ys, k);
    var f := "        " + "number2_chargeable_call_types" + "=";
    assert xs[k] == f + ListRepr(x) + ",";
    assert ys[k] == f + ListRepr(y) + ",";
    CancelAround(f, ListRepr(x), ListRepr(y), ",");
    CancelAround(p, xs[k], ys[k], s);
  }

  /** As written, the number 2 list typed into the form never reaches the entry. */
  lemma Number2TypesIgnored(d: FormData, typed: seq<string>)
    ensures GenerateConfigEntry(d.(number2ChargeableCallTypes := typed)) == GenerateConfigEntry(d)
  {
  }

  /** A form with an empty number 1 list and a non-empty number 2 list: the as-written entry loses the number 2 list. */
  lemma Number2TypesLost(d: FormData)
    requires d.number1ChargeableCallTypes == [] && d.number2ChargeableCallTypes != []
    ensures GenerateConfigEntry(d) != GenerateConfigEntryIntended(d)
  {
    EntryTextDiffersOnlyInNumber2Types(d, d.number1ChargeableCallTypes, d.number2ChargeableCallTypes);
  }

  /** The intended entry agrees with the as-written one exactly when the two lists render alike. */
  lemma IntendedEntryAgreesIff(d: FormData)
    ensures GenerateConfigEntryIntended(d) == GenerateConfigEntry(d)
            <==> ListRepr(d.number2ChargeableCallTypes) == ListRepr(d.number1ChargeableCallTypes)
  {
    EntryTextDiffersOnlyInNumber2Types(d, d.number2ChargeableCallTypes, d.number1ChargeableCallTypes);
  }

  /** The intended entry carries the number 2 line rendered from the number 2 list. */
  lemma IntendedEntryCarriesNumber2Types(d: FormData)
    ensures Contains(GenerateConfigEntryIntended(d),
                     Field("number2_chargeable_call_types", ListRepr(d.number2ChargeableCallTypes)))
  {
    JoinContains("\n", EntryLines(d, d.number2ChargeableCallTypes), Number2TypesLine);
  }

  /** The entry opens with `Files(` and closes with `),`, each on a line of its own, whatever list line 13 renders. */
  lemma EntryFramed(d: FormData, number2Types: seq<string>)
    ensures StartsWith(Join("\n", EntryLines(d, number2Types)), "    Files(\n")
    ensures EndsWith(Join("\n", EntryLines(d, number2Types)), "\n    ),")
  {
    EntryOpens(d, number2Types);
    EntryCloses(d, number2Types);
  }

  /** The first line of the entry is `Files(`. */
  lemma EntryOpens(d: FormData, number2Types: seq<string>)
    ensures StartsWith(Join("\n", EntryLines(d, number2Types)), "    Files(\n")
  {
    var xs := EntryLines(d, number2Types);
    assert xs[0] == LinesBefore(d)[0] == "    Files(";
    JoinAround("\n", xs, 0);
    var rest := Join("\n", xs[1..]);
    assert Join("\n", xs) == (xs[0] + "\n") + rest;
    ConcatEnds("    Files(\n", rest);
  }

  /** The last line of the entry is `),`. */
  lemma EntryCloses(d: FormData, number2Types: seq<string>)
    ensures EndsWith(Join("\n", EntryLines(d, number2Types)), "\n    ),")
  {
    var xs := EntryLines(d, number2Types);
    assert xs[20] == LinesAfter(d)[6] == "    ),";
    JoinEndsWithLast("\n", xs);
  }

  /** A list of two or more elements joins to text ending in the separator and the last element. */
  lemma JoinEndsWithLast(sep: string, xs: seq<string>)
    requires |xs| >= 2
    ensures EndsWith(Join(sep, xs), sep + xs[|xs| - 1])
  {
    var k := |xs| - 1;
    JoinAround(sep, xs, k);
    var init := Join(sep, xs[..k]);
    assert Join(sep, xs) == init + (sep + xs[k]);
    ConcatEnds(init, sep + xs[k]);
  }

  /** A concatenation starts with its first part and ends with its second. */
  lemma ConcatEnds(a: string, b: string)
    ensures StartsWith(a + b, a) && EndsWith(a + b, b)
  {
    assert (a + b)[..|a|] == a;
    assert (a + b)[|a + b| - |b|..] == b;
  }

  // ---------------------------------------------------------------------------
  // insert_entry_to_config
  // ---------------------------------------------------------------------------

  /** A line naming the client in either quoting style. */
  predicate IsClientLine(line: string, client: string)
  {
    Contains(line, "client=\"" + client + "\"") || Contains(line, "client='" + client + "'")
  }

  /** A line that closes an entry. */
  predicate IsClosing(line: string)
  {
    EndsWith(Strip(line), "),")
  }

  /** The line that opens the `CONFIG` list. */
  predicate IsConfigHeader(line: string)
  {
    var t := Strip(line);
    StartsWith(t, "CONFIG") && '=' in t && '[' in t
  }

  /** The entry names its client the way the block search looks for it. */
  lemma EntryNamesClient(d: FormData, number2Types: seq<string>, client: string)
    requires d.client == PyStr(client)
    ensures IsClientLine(Join("\n", EntryLines(d, number2Types)), client)
  {
    var xs := EntryLines(d, number2Types);
    var line := Field("client", Quote(d.client));
    assert xs[1] == LinesBefore(d)[1] == line;
    JoinContains("\n", xs, 1);
    QuotedClientField(client);
    ContainsWithin(Join("\n", xs), line, "client=\"" + client + "\"");
  }

  /** The `client` field of the template contains `client="X"`. */
  lemma QuotedClientField(client: string)
    ensures Contains(Field("client", Quote(PyStr(client))), "client=\"" + client + "\"")
  {
    var n := "client=\"" + client + "\"";
    var line := Field("client", Quote(PyStr(client)));
    assert line == "        " + n + "," by {
      assert Quote(PyStr(client)) == "\"" + client + "\"";
    }
    ContainsInfix("        ", n, ",");
  }

  /** Text contained in a part of a text is contained in the text. */
  lemma {:induction false} ContainsWithin(hay: string, part: string, needle: string)
    requires Contains(hay, part) && Contains(part, needle)
    ensures Contains(hay, needle)
    decreases |hay|
  {
    if StartsWith(hay, part) {
      PrefixContains(hay, part, needle);
    } else {
      ContainsWithin(hay[1..], part, needle);
    }
  }

  lemma {:induction false} PrefixContains(hay: string, part: string, needle: string)
    requires StartsWith(hay, part) && Contains(part, needle)
    ensures Contains(hay, needle)
    decreases |part|
  {
    if StartsWith(part, needle) {
      assert hay[..|needle|] == part[..|needle|];
    } else {
      assert StartsWith(hay[1..], part[1..]) by {
        assert hay[1..][..|part| - 1] == part[1..];
      }
      PrefixContains(hay[1..], part[1..], needle);
    }
  }

  /**
   * The block search from line `i` on, `start` being the last client line
   * seen so far: a client line moves the start, and the first closing line
   * after a start ends the search.
   */
  function FindBlockFrom(lines: seq<string>, client: string, i: nat, start: Option<nat>): (Option<nat>, Option<nat>)
    requires i <= |lines|
    decreases |lines| - i
  {
    if i == |lines| then (start, None)
    else if IsClientLine(lines[i], client) then FindBlockFrom(lines, client, i + 1, Some(i))
    else if start.Some? && IsClosing(lines[i]) then (start, Some(i))
    else FindBlockFrom(lines, client, i + 1, start)
  }

  /** `(start_index, end_index)` after the search loop. */
  function FindBlock(lines: seq<string>, client: string): (r: (Option<nat>, Option<nat>))
    ensures BlockFound(lines, client, r.0, r.1)
  {
    FindBlockFromSpec(lines, client, 0, None);
    FindBlockFrom(lines, client, 0, None)
  }

  /** What holds of `start` once lines `0..i` have been searched without finding an end. */
  ghost predicate SearchedUpTo(lines: seq<string>, client: string, i: nat, start: Option<nat>)
    requires i <= |lines|
  {
    && (start.None? ==> forall j :: 0 <= j < i ==> !IsClientLine(lines[j], client))
    && (start.Some? ==>
          && start.value < i && IsClientLine(lines[start.value], client)
          && forall j :: start.value < j < i ==> !IsClientLine(lines[j], client))
    && (forall j, k :: 0 <= j < k < i && IsClientLine(lines[j], client) ==>
          IsClientLine(lines[k], client) || !IsClosing(lines[k]))
  }

  /**
   * `s` is the last client line before `e`, `e` the first closing line after
   * a client line, and when there is no `e`, no closing line follows any
   * client line.
   */
  ghost predicate BlockFound(lines: seq<string>, client: string, s: Option<nat>, e: Option<nat>)
  {
    var limit := if e.Some? then e.value else |lines|;
    && (s.None? ==> e.None? && forall j :: 0 <= j < |lines| ==> !IsClientLine(lines[j], client))
    && (s.Some? ==> s.value < limit <= |lines| && IsClientLine(lines[s.value], client)
                    && forall j :: s.value < j < limit ==> !IsClientLine(lines[j], client))
    && (e.Some? ==> s.Some? && e.value < |lines| && IsClosing(lines[e.value]) && !IsClientLine(lines[e.value], client))
    && (forall j, k :: 0 <= j < k < limit && IsClientLine(lines[j], client) ==>
          IsClientLine(lines[k], client) || !IsClosing(lines[k]))
  }

  lemma {:induction false} FindBlockFromSpec(lines: seq<string>, client: string, i: nat, start: Option<nat>)
    requires i <= |lines| && SearchedUpTo(lines, client, i, start)
    ensures var (s, e) := FindBlockFrom(lines, client, i, start); BlockFound(lines, client, s, e)
    decreases |lines| - i
  {
    if i < |lines| {
      if IsClientLine(lines[i], client) {
        assert SearchedUpTo(lines, client, i + 1, Some(i));
        FindBlockFromSpec(lines, client, i + 1, Some(i));
      } else if start.Some? && IsClosing(lines[i]) {
        assert FindBlockFrom(lines, client, i, start) == (start, Some(i));
      } else {
        assert SearchedUpTo(lines, client, i + 1, start);
        FindBlockFromSpec(lines, client, i + 1, start);
      }
    }
  }

  /**
   * The lines left after `del config_lines[start_index:end_index + 1]`:
   * lines are removed exactly when a whole block was found, and then
   * exactly the block's lines.
   */
  function RemoveBlock(lines: seq<string>, client: string): (r: seq<string>)
    ensures var (s, e) := FindBlock(lines, client);
            && (r == lines <==> e.None?)
            && (e.Some? ==> |r| == |lines| - (e.value - s.value + 1))
  {
    match FindBlock(lines, client)
    case (Some(s), Some(e)) => lines[..s] + lines[e + 1..]
    case _ => lines
  }

  /** The first line of `lines` from `i` on that opens the `CONFIG` list. */
  function FirstHeaderFrom(lines: seq<string>, i: nat): (r: Option<nat>)
    requires i <= |lines|
    ensures r.Some? ==> i <= r.value < |lines| && IsConfigHeader(lines[r.value])
                        && forall k :: i <= k < r.value ==> !IsConfigHeader(lines[k])
    ensures r.None? ==> forall k :: i <= k < |lines| ==> !IsConfigHeader(lines[k])
    decreases |lines| - i
  {
    if i == |lines| then None
    else if IsConfigHeader(lines[i]) then Some(i)
    else FirstHeaderFrom(lines, i + 1)
  }

  /** The insertion step: the entry right after the first `CONFIG` header, or the `ValueError` when there is none. */
  function InsertAfterFirstHeader(kept: seq<string>, entry: string): Result<seq<string>, Error>
  {
    match FirstHeaderFrom(kept, 0)
    case None => Failure(ConfigListNotFound)
    case Some(j) => Success(kept[..j + 1] + [entry + "\n"] + kept[j + 1..])
  }

  /** `insert_entry_to_config` on the file's lines: the new lines, or the `ValueError` raised before writing. */
  function InsertEntry(lines: seq<string>, entry: string, client: string): (r: Result<seq<string>, Error>)
    ensures r.Failure? ==> r.error == ConfigListNotFound
    ensures r.Success? ==> |r.value| == |RemoveBlock(lines, client)| + 1 && entry + "\n" in r.value
  {
    InsertAfterFirstHeader(RemoveBlock(lines, client), entry)
  }

  /** The edit, as the source performs it: search, delete, then insert after the list header. */
  method InsertEntryToConfig(lines: seq<string>, newEntry: string, client: string) returns (r: Result<seq<string>, Error>)
    ensures r == InsertEntry(lines, newEntry, client)
  {
    var configLines := lines;
    var startIndex, endIndex := FindBlockIndices(configLines, client);
    configLines := DeleteBlock(configLines, client, startIndex, endIndex);
    r := InsertAfterHeader(configLines, newEntry);
  }

  /** `del config_lines[start_index:end_index + 1]`, done only when both indices were found. */
  method DeleteBlock(configLines: seq<string>, client: string, startIndex: Option<nat>, endIndex: Option<nat>)
    returns (kept: seq<string>)
    requires (startIndex, endIndex) == FindBlock(configLines, client)
    ensures kept == RemoveBlock(configLines, client)
  {
    kept := configLines;
    if startIndex.Some? && endIndex.Some? {
      kept := kept[..startIndex.value] + kept[endIndex.value + 1..];
    }
  }

  /** The search loop of `insert_entry_to_config`. */
  method FindBlockIndices(configLines: seq<string>, client: string) returns (startIndex: Option<nat>, endIndex: Option<nat>)
    ensures (startIndex, endIndex) == FindBlock(configLines, client)
  {
    startIndex, endIndex := None, None;
    var insideFilesBlock := false;
    var i := 0;
    while i < |configLines|
      invariant 0 <= i <= |configLines|
      invariant insideFilesBlock <==> startIndex.Some?
      invariant endIndex.None? && FindBlockFrom(configLines, client, i, startIndex) == FindBlock(configLines, client)
    {
      if IsClientLine(configLines[i], client) {
        insideFilesBlock := true;
        startIndex := Some(i);
      } else if insideFilesBlock && IsClosing(configLines[i]) {
        endIndex := Some(i);
        return;
      }
      i := i + 1;
    }
  }

  /** The insertion loop of `insert_entry_to_config`: the entry goes right after the first `CONFIG` header. */
  method InsertAfterHeader(configLines: seq<string>, newEntry: string) returns (r: Result<seq<string>, Error>)
    ensures r == InsertAfterFirstHeader(configLines, newEntry)
  {
    var j := 0;
    while j < |configLines|
      invariant 0 <= j <= |configLines|
      invariant FirstHeaderFrom(configLines, j) == FirstHeaderFrom(configLines, 0)
    {
      if IsConfigHeader(configLines[j]) {
        return Success(configLines[..j + 1] + [newEntry + "\n"] + configLines[j + 1..]);
      }
      j := j + 1;
    }
    return Failure(ConfigListNotFound);
  }

  /**
   * The insertion adds exactly one line, the entry, directly after the first
   * `CONFIG` header of the remaining lines; taking it out again gives those
   * lines in their order. Without a header nothing is written.
   */
  lemma InsertEntryAddsOneLine(lines: seq<string>, entry: string, client: string)
    ensures var kept := RemoveBlock(lines, client);
            var r := InsertEntry(lines, entry, client);
            && (r.Failure? <==> forall k :: 0 <= k < |kept| ==> !IsConfigHeader(kept[k]))
            && (r.Failure? ==> r.error == ConfigListNotFound)
            && (r.Success? ==>
                  && |r.value| == |kept| + 1
                  && exists j :: 0 <= j < |kept| && IsConfigHeader(kept[j])
                                 && (forall k :: 0 <= k < j ==> !IsConfigHeader(kept[k]))
                                 && r.value[j + 1] == entry + "\n"
                                 && r.value[..j + 1] + r.value[j + 2..] == kept)
  {
    InsertAfterFirstHeaderSpec(RemoveBlock(lines, client), entry);
  }

  /** The insertion step alone: one line after the first header, or the error when there is none. */
  lemma InsertAfterFirstHeaderSpec(kept: seq<string>, entry: string)
    ensures var r := InsertAfterFirstHeader(kept, entry);
            && (r.Failure? <==> forall k :: 0 <= k < |kept| ==> !IsConfigHeader(kept[k]))
            && (r.Failure? ==> r.error == ConfigListNotFound)
            && (r.Success? ==>
                  && |r.value| == |kept| + 1
                  && exists j :: 0 <= j < |kept| && IsConfigHeader(kept[j])
                                 && (forall k :: 0 <= k < j ==> !IsConfigHeader(kept[k]))
                                 && r.value[j + 1] == entry + "\n"
                                 && r.value[..j + 1] + r.value[j + 2..] == kept)
  {
    match FirstHeaderFrom(kept, 0)
    case None =>
    case Some(j) =>
      var out := kept[..j + 1] + [entry + "\n"] + kept[j + 1..];
      assert InsertAfterFirstHeader(kept, entry) == Success(out);
      assert out[..j + 1] == kept[..j + 1] && out[j + 2..] == kept[j + 1..];
      assert kept[..j + 1] + kept[j + 1..] == kept;
  }

  /**
   * Deleting from the client line on leaves every line before it, in
   * particular the `Files(` line that opens the replaced entry.
   */
  lemma OpeningLineSurvivesReplace(lines: seq<string>, client: string)
    requires FindBlock(lines, client).1.Some?
    ensures var s := FindBlock(lines, client).0;
            && s.Some? && s.value <= |lines| && s.value <= |RemoveBlock(lines, client)|
            && RemoveBlock(lines, client)[..s.value] == lines[..s.value]
  {
  }

  // ---------------------------------------------------------------------------
  // Replacing an entry laid out as the template lays it out
  // ---------------------------------------------------------------------------

  /** A line that opens an entry as the template writes it: `Files(` alone. */
  predicate IsOpener(line: string)
  {
    Strip(line) == "Files("
  }

  /**
   * An entry between other lines: `pre` names no client and ends with the
   * entry's `Files(` line, the client line follows, then lines that neither
   * name the client nor close, then the closing line.
   */
  predicate LaidOutEntry(client: string, pre: seq<string>, clientLine: string, rest: seq<string>, closer: string)
  {
    && |pre| > 0 && IsOpener(pre[|pre| - 1])
    && (forall i :: 0 <= i < |pre| ==> !IsClientLine(pre[i], client))
    && IsClientLine(clientLine, client)
    && (forall i :: 0 <= i < |rest| ==> !IsClientLine(rest[i], client) && !IsClosing(rest[i]))
    && IsClosing(closer) && !IsClientLine(closer, client)
  }

  /** The search finds exactly the client line and the closing line of such an entry. */
  lemma FindBlockOfLaidOutEntry(client: string, pre: seq<string>, clientLine: string, rest: seq<string>, closer: string,
                                post: seq<string>)
    requires LaidOutEntry(client, pre, clientLine, rest, closer)
    ensures FindBlock(pre + [clientLine] + rest + [closer] + post, client) == (Some(|pre|), Some(|pre| + 1 + |rest|))
  {
    var lines := pre + [clientLine] + rest + [closer] + post;
    var c, z := |pre|, |pre| + 1 + |rest|;
    assert lines[c] == clientLine && lines[z] == closer;
    forall i | 0 <= i < c ensures !IsClientLine(lines[i], client) {
      assert lines[i] == pre[i];
    }
    forall i | c < i < z ensures !IsClientLine(lines[i], client) && !IsClosing(lines[i]) {
      assert lines[i] == rest[i - c - 1];
    }
    var (s, e) := FindBlock(lines, client);
    assert s.Some?;
    assert e.Some? && e.value <= z;
    assert s.value == c;
    assert e.value == z;
  }

  /**
   * The removal the comment on the deletion describes: the whole entry,
   * from its `Files(` line when the client line directly follows one.
   */
  function RemoveEntryIntended(lines: seq<string>, client: string): (r: seq<string>)
  {
    match FindBlock(lines, client)
    case (Some(s), Some(e)) =>
      var from := if s > 0 && IsOpener(lines[s - 1]) then s - 1 else s;
      lines[..from] + lines[e + 1..]
    case _ => lines
  }

  /** `insert_entry_to_config` with the whole old entry removed. */
  function InsertEntryIntended(lines: seq<string>, entry: string, client: string): Result<seq<string>, Error>
  {
    InsertAfterFirstHeader(RemoveEntryIntended(lines, client), entry)
  }

  /** As written, replacing such an entry keeps its `Files(` line, now directly followed by the lines after the old entry. */
  lemma ReplaceLeavesOpener(client: string, pre: seq<string>, clientLine: string, rest: seq<string>, closer: string,
                            post: seq<string>)
    requires LaidOutEntry(client, pre, clientLine, rest, closer)
    ensures RemoveBlock(pre + [clientLine] + rest + [closer] + post, client) == pre + post
    ensures IsOpener((pre + post)[|pre| - 1])
  {
    var lines := pre + [clientLine] + rest + [closer] + post;
    FindBlockOfLaidOutEntry(client, pre, clientLine, rest, closer, post);
    assert lines[..|pre|] == pre;
    assert lines[|pre| + 1 + |rest| + 1..] == post;
  }

  /** The intended removal takes out the entry from its `Files(` line to its closing line, and nothing else. */
  lemma IntendedRemovalDropsWholeEntry(client: string, pre: seq<string>, clientLine: string, rest: seq<string>,
                                       closer: string, post: seq<string>)
    requires LaidOutEntry(client, pre, clientLine, rest, closer)
    ensures RemoveEntryIntended(pre + [clientLine] + rest + [closer] + post, client) == pre[..|pre| - 1] + post
  {
    var lines := pre + [clientLine] + rest + [closer] + post;
    FindBlockOfLaidOutEntry(client, pre, clientLine, rest, closer, post);
    assert lines[|pre| - 1] == pre[|pre| - 1];
    assert lines[..|pre| - 1] == pre[..|pre| - 1];
    assert lines[|pre| + 1 + |rest| + 1..] == post;
  }
}
