/**
 * Normalisers of src/utils.py: phone numbers, merge keys, the fixed +7 h
 * Jakarta conversion, durations, memos and user names.
 *
 * Dates are kept abstract: a `Calendar` supplies the parsers the library
 * provides (`fromisoformat`, `strptime`) and the two printed halves of a
 * wall-clock time. `str(datetime)` joins the halves with a space and
 * `isoformat`-style text joins them with `T`; that separator is all the
 * merge logic depends on.
 */
module Utils {
  import opened Wrappers
  import opened Text

  /** A normalised phone identifier: an integer when the text parses, otherwise the cleaned text. */
  datatype Phone = PInt(n: int) | PStr(s: string)

  /** `str(phone)`. */
  function PhoneText(p: Phone): string
  {
    match p
    case PInt(n) => IntToString(n)
    case PStr(s) => s
  }

  /** The characters `parse_phone_number` deletes. */
  const Punctuation: set<char> := {'+', '-', '(', ')', ' '}

  function CleanNumber(s: string): string
  {
    Filter(s, Punctuation)
  }

  /** Drop one leading country code `62`. */
  function DropCountryCode(s: string): string
  {
    if StartsWith(s, "62") then s[2..] else s
  }

  /** `parse_phone_number`. */
  function ParsePhoneNumber(p: Phone): (r: Phone)
    ensures p.PInt? ==> r == p
    ensures p == PStr("scancall") ==> r == p
    ensures p.PStr? && r.PInt? ==> r.n >= 0
    ensures r.PStr? ==> ParseInt(r.s).None? && forall i :: 0 <= i < |r.s| ==> r.s[i] !in Punctuation
  {
    match p
    case PInt(_) => p
    case PStr(s) =>
      if s == "scancall" then p
      else
        var cleaned := DropCountryCode(CleanNumber(s));
        match ParseInt(cleaned)
        case Some(n) => PInt(n)
        case None => PStr(cleaned)
  }

  /** Re-normalising is a no-op exactly when the result is not text that still starts with `62`. */
  lemma ParsePhoneNumberIdempotentIff(p: Phone)
    ensures var r := ParsePhoneNumber(p);
            ParsePhoneNumber(r) == r <==> !(r.PStr? && StartsWith(r.s, "62"))
  {
    var r := ParsePhoneNumber(p);
    if r.PInt? {
      assert ParsePhoneNumber(r) == r;
    } else if r.s == "scancall" {
      assert ParsePhoneNumber(r) == r;
      assert r.s[..2] != "62";
    } else {
      RenormaliseText(r.s);
    }
  }

  /** Clean text that is not an integer normalises to itself exactly when it does not start with `62`. */
  lemma RenormaliseText(c: string)
    requires c != "scancall" && ParseInt(c).None?
    requires forall i :: 0 <= i < |c| ==> c[i] !in Punctuation
    ensures ParsePhoneNumber(PStr(c)) == PStr(c) <==> !StartsWith(c, "62")
  {
    FilterKeepsFree(c, Punctuation);
    assert CleanNumber(c) == c;
    if StartsWith(c, "62") {
      var d := c[2..];
      assert DropCountryCode(c) == d;
      assert ParsePhoneNumber(PStr(c)) == (match ParseInt(d) case Some(n) => PInt(n) case None => PStr(d));
      assert |d| < |c|;
    } else {
      assert DropCountryCode(c) == c;
      assert ParsePhoneNumber(PStr(c)) == PStr(c);
    }
  }

  /** Clean text behind a `62` that does not parse loses the `62` and stays text. */
  lemma DropsOneCountryCode(t: string)
    requires forall i :: 0 <= i < |t| ==> t[i] !in Punctuation
    requires ParseInt(t).None?
    ensures ParsePhoneNumber(PStr("62" + t)) == PStr(t)
  {
    var s := "62" + t;
    FilterKeepsFree(s, Punctuation);
    assert s[..2] == "62" && s[2..] == t;
    assert DropCountryCode(CleanNumber(s)) == t;
  }

  /** Text of two or more characters ending in a non-digit is not an integer. */
  lemma ParseIntNeedsFinalDigit(s: string)
    requires |s| >= 2 && !IsDigit(s[|s| - 1])
    ensures ParseInt(s).None?
  {
    assert s[1..][|s| - 2] == s[|s| - 1];
  }

  /**
   * Text other than `scancall` loses its punctuation (order kept, see `Text.FilterConcat`) and
   * one leading `62`; the rest becomes an integer exactly when it parses as one.
   */
  lemma ParsePhoneNumberOfText(s: string)
    requires s != "scancall"
    ensures var c := DropCountryCode(CleanNumber(s));
            && (ParseInt(c).Some? ==> ParsePhoneNumber(PStr(s)) == PInt(ParseInt(c).value))
            && (ParseInt(c).None? ==> ParsePhoneNumber(PStr(s)) == PStr(c))
  {
  }

  /** Cleaning drops a hyphen between two runs of digits and keeps their order. */
  lemma CleanAroundHyphen(a: string, b: string)
    requires AllDigits(a) && AllDigits(b)
    ensures CleanNumber(a + "-" + b) == a + b
  {
    FilterKeepsFree(a, Punctuation);
    FilterKeepsFree(b, Punctuation);
    FilterChar('-', Punctuation);
    FilterConcat(a, "-", Punctuation);
    FilterConcat(a + "-", b, Punctuation);
  }

  /** Cleaning drops a leading `+` and the space after the country code. */
  lemma CleanAfterCountryCode(rest: string)
    ensures CleanNumber("+62 " + rest) == "62" + CleanNumber(rest)
  {
    var s := "+62 " + rest;
    assert s[1..] == "62 " + rest && s[2..] == "2 " + rest && s[3..] == " " + rest && s[4..] == rest;
    assert Filter(s[3..], Punctuation) == CleanNumber(rest);
    assert Filter(s[2..], Punctuation) == "2" + CleanNumber(rest);
    assert Filter(s[1..], Punctuation) == "62" + CleanNumber(rest);
  }

  /** A number written `+62 <digits>-<digits>` loses its punctuation and its country code, then parses. */
  lemma ParsePhoneNumberOfFormatted(a: string, b: string)
    requires AllDigits(a) && AllDigits(b) && |a + b| > 0
    ensures ParsePhoneNumber(PStr("+62 " + a + "-" + b)) == PInt(DigitsValue(a + b))
  {
    var s := "+62 " + a + "-" + b;
    CleanAroundHyphen(a, b);
    assert s == "+62 " + (a + "-" + b);
    CleanAfterCountryCode(a + "-" + b);
    var cleaned := "62" + (a + b);
    assert cleaned[..2] == "62" && cleaned[2..] == a + b;
    assert (a + b)[0] != '-' && (a + b)[0] != '+';
    assert ParseInt(a + b) == Some(DigitsValue(a + b));
    assert s[0] == '+';
    ParsePhoneNumberOfText(s);
  }

  /** Two passes over `6262ab` strip two country codes, so the normaliser is not idempotent. */
  lemma ParsePhoneNumberNotIdempotentExample()
    ensures ParsePhoneNumber(PStr("6262ab")) == PStr("62ab")
    ensures ParsePhoneNumber(PStr("62ab")) == PStr("ab")
  {
    var b, c := "62ab", "ab";
    ParseIntNeedsFinalDigit(b);
    ParseIntNeedsFinalDigit(c);
    DropsOneCountryCode(c);
    assert "62" + b == "6262ab" && "62" + c == b;
    DropsOneCountryCode(b);
  }

  /** `call_hash`: `"{from}_{to}_{start}"` with every space turned into `_`. */
  function CallHash(callFrom: Phone, callTo: Phone, dialStartAt: string): (key: string)
    ensures var joined := PhoneText(callFrom) + "_" + PhoneText(callTo) + "_" + dialStartAt;
            && |key| == |joined|
            && forall i :: 0 <= i < |key| ==> key[i] == if joined[i] == ' ' then '_' else joined[i]
    ensures |key| == |PhoneText(callFrom)| + |PhoneText(callTo)| + |dialStartAt| + 2
    ensures forall i :: 0 <= i < |key| ==> key[i] != ' '
  {
    ReplaceChar(PhoneText(callFrom) + "_" + PhoneText(callTo) + "_" + dialStartAt, ' ', '_')
  }

  /** A naive or offset-aware datetime: wall-clock seconds and an optional UTC offset in minutes. */
  datatype DateTime = DateTime(wall: int, offset: Option<int>)

  /**
   * The library's text form of datetimes, taken as given: `parseIso` is
   * `datetime.fromisoformat`, `parseNaive` is `strptime(_, "%Y-%m-%d %H:%M:%S")`,
   * and `dateText`/`clockText` are the two halves of the printed wall-clock time.
   */
  datatype Calendar = Calendar(
    parseIso: string -> Option<DateTime>,
    parseNaive: string -> Option<int>,
    dateText: int -> string,
    clockText: int -> string)

  predicate SeparatorFree(s: string)
  {
    forall i :: 0 <= i < |s| ==> s[i] != ' ' && s[i] != 'T' && s[i] != '_'
  }

  /** The printed halves never contain a space, a `T` or an underscore (as `2024-05-01` and `10:00:00`). */
  ghost predicate Plain(cal: Calendar)
  {
    forall w :: SeparatorFree(cal.dateText(w)) && SeparatorFree(cal.clockText(w))
  }

  /** The `+HH:MM` suffix of an offset-aware datetime. */
  function OffsetText(offset: Option<int>): string
  {
    match offset
    case None => ""
    case Some(m) =>
      var a := if m < 0 then -m else m;
      (if m < 0 then "-" else "+") + Pad2(a / 60) + ":" + Pad2(a % 60)
  }

  /** `str(datetime)`: date, a space, clock, offset. */
  function StrDateTime(cal: Calendar, dt: DateTime): string
  {
    cal.dateText(dt.wall) + " " + cal.clockText(dt.wall) + OffsetText(dt.offset)
  }

  /** `format_datetime_as_iso`: `str(datetime)` with every space replaced by `T`. */
  function FormatDatetimeAsIso(cal: Calendar, dt: DateTime): (r: string)
    ensures |r| == |StrDateTime(cal, dt)|
    ensures forall i :: 0 <= i < |r| ==> r[i] == if StrDateTime(cal, dt)[i] == ' ' then 'T' else StrDateTime(cal, dt)[i]
    ensures forall i :: 0 <= i < |r| ==> r[i] != ' '
  {
    ReplaceChar(StrDateTime(cal, dt), ' ', 'T')
  }

  const JakartaOffsetMinutes: int := 7 * 60

  /** `convert_to_jakarta_time_iso`: only region `jkt`; the parsed UTC time plus exactly seven hours, tagged +07:00. */
  function ConvertToJakartaTimeIso(cal: Calendar, text: string, region: string): (r: Result<DateTime, Error>)
    ensures region != "jkt" ==> r == Failure(UnsupportedRegion(region))
    ensures region == "jkt" ==> (r.Success? <==> cal.parseNaive(text).Some?)
    ensures r.Success? ==> r.value.offset == Some(JakartaOffsetMinutes)
    ensures r.Success? ==> cal.parseNaive(text) == Some(r.value.wall - 7 * 3600)
  {
    if region != "jkt" then Failure(UnsupportedRegion(region))
    else
      match cal.parseNaive(text)
      case None => Failure(BadTimestamp(text))
      case Some(w) => Success(DateTime(w + 7 * 3600, Some(JakartaOffsetMinutes)))
  }

  /** `parse_jakarta_datetime`: `"nan"` becomes `"-"` before the region is looked at. */
  function ParseJakartaDatetime(cal: Calendar, text: string, region: string): (r: Result<string, Error>)
    ensures text == "nan" ==> r == Success("-")
    ensures text != "nan" ==> (r.Success? <==> region == "jkt" && cal.parseNaive(text).Some?)
    ensures text != "nan" && region != "jkt" ==> r == Failure(UnsupportedRegion(region))
    ensures text != "nan" && r.Success? ==>
              ConvertToJakartaTimeIso(cal, text, region).Success?
              && r.value == FormatDatetimeAsIso(cal, ConvertToJakartaTimeIso(cal, text, region).value)
    ensures r.Success? ==> forall i :: 0 <= i < |r.value| ==> r.value[i] != ' '
  {
    if text == "nan" then Success("-")
    else
      match ConvertToJakartaTimeIso(cal, text, region)
      case Failure(e) => Failure(e)
      case Success(dt) => Success(FormatDatetimeAsIso(cal, dt))
  }

  /** `parse_time_duration`: exactly three colon-separated integer fields, as seconds. */
  function ParseTimeDuration(text: string): (r: Result<int, Error>)
    ensures |Split(text, ':')| != 3 ==> r == Failure(BadDuration(text))
    ensures r.Success? ==> var p := Split(text, ':');
                           |p| == 3 && ParseInt(p[0]).Some? && ParseInt(p[1]).Some? && ParseInt(p[2]).Some?
                           && r.value == ParseInt(p[0]).value * 3600 + ParseInt(p[1]).value * 60 + ParseInt(p[2]).value
  {
    var parts := Split(text, ':');
    if |parts| != 3 then Failure(BadDuration(text))
    else
      match (ParseInt(parts[0]), ParseInt(parts[1]), ParseInt(parts[2]))
      case (Some(h), Some(m), Some(s)) => Success(h * 3600 + m * 60 + s)
      case _ => Failure(BadDuration(text))
  }

  /** The `H:MM:SS` text `str(timedelta)` prints for a non-negative number of seconds below a day. */
  function ClockOf(rem: nat): string
  {
    NatToString(rem / 3600) + ":" + Pad2(rem % 3600 / 60) + ":" + Pad2(rem % 60)
  }

  /** `str(timedelta(seconds=secs))`: an optional `N day[s], ` part, then the clock of the remainder. */
  function TimedeltaText(secs: int): string
  {
    var days := secs / 86400;
    (if days == 0 then "" else IntToString(days) + (if days == 1 || days == -1 then " day, " else " days, "))
    + ClockOf(secs % 86400)
  }

  /** `text.split(", ")[-1]`. */
  function LastCommaPiece(s: string): string
    decreases |s|
  {
    if !Contains(s, ", ") then s
    else if StartsWith(s, ", ") then LastCommaPiece(s[2..])
    else LastCommaPiece(s[1..])
  }

  /** `format_timedelta`: whole days are dropped, only the clock of the remainder below one day is kept. */
  function FormatTimedelta(secs: int): (r: string)
    ensures r == ClockOf(secs % 86400)
  {
    TimedeltaTextLastPiece(secs);
    LastCommaPiece(TimedeltaText(secs))
  }

  predicate CommaFree(s: string) { forall i :: 0 <= i < |s| ==> s[i] != ',' }

  lemma {:induction false} CommaFreeHasNoCommaSpace(s: string)
    requires CommaFree(s)
    ensures !Contains(s, ", ")
  {
    if |s| > 0 {
      assert !StartsWith(s, ", ") by {
        if |s| >= 2 { assert s[..2][0] == s[0]; }
      }
      CommaFreeHasNoCommaSpace(s[1..]);
    } else {
      assert !StartsWith(s, ", ");
    }
  }

  lemma {:induction false} LastCommaPieceAfter(x: string, c: string)
    requires CommaFree(x) && CommaFree(c)
    ensures LastCommaPiece(x + ", " + c) == c
  {
    var s := x + ", " + c;
    ContainsInfix(x, ", ", c);
    if |x| == 0 {
      assert s == ", " + c;
      assert s[2..] == c;
      CommaFreeHasNoCommaSpace(c);
    } else {
      assert s[0] == x[0] != ',';
      assert s[1..] == x[1..] + ", " + c;
      LastCommaPieceAfter(x[1..], c);
    }
  }

  lemma NatToStringCommaFree(n: nat)
    ensures CommaFree(NatToString(n))
  {
    NoSignInNatToString(n);
  }

  /** The text after the last `", "` of `str(timedelta)` is the clock of the remainder below one day. */
  lemma {:induction false} TimedeltaTextLastPiece(secs: int)
    ensures LastCommaPiece(TimedeltaText(secs)) == ClockOf(secs % 86400)
  {
    var c := ClockOf(secs % 86400);
    ClockCommaFree(secs % 86400);
    var days := secs / 86400;
    if days == 0 {
      CommaFreeHasNoCommaSpace(c);
      assert TimedeltaText(secs) == c;
    } else {
      var x := IntToString(days) + (if days == 1 || days == -1 then " day" else " days");
      DayCountCommaFree(days);
      assert TimedeltaText(secs) == x + ", " + c;
      LastCommaPieceAfter(x, c);
    }
  }

  lemma ClockCommaFree(rem: nat)
    ensures CommaFree(ClockOf(rem))
  {
    NatToStringCommaFree(rem / 3600);
    NatToStringCommaFree(rem % 3600 / 60);
    NatToStringCommaFree(rem % 60);
  }

  lemma DayCountCommaFree(days: int)
    ensures CommaFree(IntToString(days) + (if days == 1 || days == -1 then " day" else " days"))
  {
    if days < 0 {
      NatToStringCommaFree(-days);
    } else {
      NatToStringCommaFree(days);
    }
  }

  /** `parse_call_memo`: an empty or `"nan"` memo becomes `"-"`, anything else is kept. */
  function ParseCallMemo(memo: string): (r: string)
    ensures r != ""
    ensures r == memo || memo == "" || memo == "nan"
    ensures memo == "nan" ==> r == "-"
    ensures memo == "" ==> r == "-"
  {
    if memo == "" || memo == "nan" then "-" else memo
  }

  /** `format_username`: an empty name becomes `"-"`. */
  function FormatUsername(userName: string): (r: string)
    ensures r != ""
    ensures userName != "" ==> r == userName
    ensures userName == "" ==> r == "-"
  {
    if userName != "" then userName else "-"
  }
}
