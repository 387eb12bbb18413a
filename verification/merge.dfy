/**
 * The ingest loops of src/csv_processing.py: dashboard rows and console rows
 * are folded into one store of call records keyed by a text key, plus
 * `round_up_duration`.
 *
 * Each ingest is specified by a fold over the rows on the store's contents
 * (`DashboardIngest`, `ConsoleIngest`); an exception stops the fold and
 * leaves the store as the rows before it (and any partial update of the
 * failing row) made it.
 */
module Merge {
  import opened Wrappers
  import opened Text
  import opened Utils
  import opened Charges
  import opened CallRecords

  /** The dashboard columns the ingest reads, as text. */
  datatype DashboardRow = DashboardRow(
    sequenceId: string,
    userName: string,
    callFrom: string,
    callTo: string,
    callType: string,
    dialBegin: string,
    callBegin: string,
    callEnd: string,
    ringingTime: string,
    callDuration: string,
    callMemo: string)

  /** The console columns the ingest reads, as text. */
  datatype ConsoleRow = ConsoleRow(
    usedNumber: string,
    number: string,
    callType: string,
    callId: string,
    dialStartsAt: string,
    dialAnsweredAt: string,
    dialEndsAt: string,
    pbxRegion: string,
    allDuration: string,
    duration: string,
    discount: string)

  /** The store's contents after an ingest, and the exception that stopped it, if any. */
  datatype Outcome = Outcome(view: map<string, Rec>, error: Option<Error>)

  // ---------------------------------------------------------------------------
  // Dashboard ingest
  // ---------------------------------------------------------------------------

  /** The constructor arguments built from a dashboard row; the charge argument is "0". */
  function DashboardCall(row: DashboardRow, client: string, carrier: string): RawCall
  {
    RawCall(client, row.sequenceId, row.userName, PStr(row.callFrom), PStr(row.callTo), row.callType,
            row.dialBegin, row.callBegin, row.callEnd, row.ringingTime, row.callDuration, row.callMemo, "0", carrier)
  }

  /**
   * One dashboard row: the record is built, then stored under its key, or,
   * when the key is taken, only the user name and the raw memo of the stored
   * record are overwritten.
   */
  function DashboardStep(env: Env, view: map<string, Rec>, row: DashboardRow, client: string, carrier: string)
    : (r: Result<map<string, Rec>, Error>)
    ensures r.Failure? <==> NewRec(env, DashboardCall(row, client, carrier)).Failure?
    ensures r.Success? ==>
              var key := RecKey(env.cal, NewRec(env, DashboardCall(row, client, carrier)).value);
              && r.value.Keys == view.Keys + {key}
              && (forall k :: k in view && k != key ==> r.value[k] == view[k])
              && (key !in view ==> r.value[key] == NewRec(env, DashboardCall(row, client, carrier)).value)
              && (key in view ==> r.value[key].userName == row.userName && r.value[key].callMemo == row.callMemo
                                  && r.value[key].(userName := view[key].userName, callMemo := view[key].callMemo) == view[key])
  {
    var built := NewRec(env, DashboardCall(row, client, carrier));
    if built.Failure? then Failure(built.error)
    else Success(StoreDashboardRec(view, RecKey(env.cal, built.value), built.value, row))
  }

  /** The store after a built dashboard record `rec` arrives under `key`. */
  function StoreDashboardRec(view: map<string, Rec>, key: string, rec: Rec, row: DashboardRow): (r: map<string, Rec>)
    ensures r.Keys == view.Keys + {key}
    ensures forall k :: k in view && k != key ==> r[k] == view[k]
    ensures key !in view ==> r[key] == rec
    ensures key in view ==> r[key].userName == row.userName && r[key].callMemo == row.callMemo
                            && r[key].(userName := view[key].userName, callMemo := view[key].callMemo) == view[key]
  {
    if key in view then view[key := view[key].(userName := row.userName, callMemo := row.callMemo)]
    else view[key := rec]
  }

  /** `process_dashboard_csv` on the store's contents. */
  function DashboardIngest(env: Env, view: map<string, Rec>, rows: seq<DashboardRow>, client: string, carrier: string)
    : (r: Outcome)
    ensures r.error.None? ==> forall j :: 0 <= j < |rows| ==> NewRec(env, DashboardCall(rows[j], client, carrier)).Success?
    decreases |rows|
  {
    if rows == [] then Outcome(view, None)
    else
      match DashboardStep(env, view, rows[0], client, carrier)
      case Failure(e) => Outcome(view, Some(e))
      case Success(next) =>
        assert forall j :: 0 <= j < |rows[1..]| ==> rows[1..][j] == rows[j + 1];
        DashboardIngest(env, next, rows[1..], client, carrier)
  }

  /** An ingest that stops reports the error of a row whose record could not be built. */
  lemma {:induction false} DashboardIngestFailsAtRow(env: Env, view: map<string, Rec>, rows: seq<DashboardRow>, client: string, carrier: string)
    ensures var r := DashboardIngest(env, view, rows, client, carrier);
            r.error.Some? ==>
              exists j :: 0 <= j < |rows| && NewRec(env, DashboardCall(rows[j], client, carrier)) == Failure(r.error.value)
    decreases |rows|
  {
    if rows != [] && DashboardStep(env, view, rows[0], client, carrier).Success? {
      var next := DashboardStep(env, view, rows[0], client, carrier).value;
      DashboardIngestFailsAtRow(env, next, rows[1..], client, carrier);
      var r := DashboardIngest(env, next, rows[1..], client, carrier);
      if r.error.Some? {
        var j :| 0 <= j < |rows[1..]| && NewRec(env, DashboardCall(rows[1..][j], client, carrier)) == Failure(r.error.value);
        assert rows[1..][j] == rows[j + 1];
      }
    }
  }

  /** The dashboard ingest never removes a record. */
  lemma {:induction false} DashboardIngestKeepsKeys(env: Env, view: map<string, Rec>, rows: seq<DashboardRow>, client: string, carrier: string)
    ensures view.Keys <= DashboardIngest(env, view, rows, client, carrier).view.Keys
    decreases |rows|
  {
    if rows != [] {
      match DashboardStep(env, view, rows[0], client, carrier)
      case Failure(_) =>
      case Success(next) =>
        DashboardIngestKeepsKeys(env, next, rows[1..], client, carrier);
    }
  }

  // ---------------------------------------------------------------------------
  // Console ingest
  // ---------------------------------------------------------------------------

  /** The console's call-type codes for outbound calls get the dashboard's labels; other codes are kept. */
  function CallTypeOf(code: string): (t: string)
    ensures code == "OUTGOING_CALL" ==> t == "Outbound call"
    ensures code == "OUTGOING_CALL_ABSENCE" ==> t == "Outbound call (No answer)"
    ensures code != "OUTGOING_CALL" && code != "OUTGOING_CALL_ABSENCE" ==> t == code
  {
    if code == "OUTGOING_CALL" then "Outbound call"
    else if code == "OUTGOING_CALL_ABSENCE" then "Outbound call (No answer)"
    else code
  }

  /**
   * A console row over a stored record: the call type, then the answer and
   * end times as Jakarta text, then the raw durations, an empty memo and the
   * discount as charge.  A time that cannot be read stops the update where
   * it is; the record keeps what was already written.
   */
  function ConsoleOverwrite(cal: Calendar, r: Rec, row: ConsoleRow): (u: (Rec, Option<Error>))
    ensures u.0.client == r.client && u.0.sequenceId == r.sequenceId && u.0.userName == r.userName
    ensures u.0.callFrom == r.callFrom && u.0.callTo == r.callTo && u.0.dialStartAt == r.dialStartAt
    ensures u.0.carrier == r.carrier && u.0.numberType == r.numberType
    ensures u.0.callType == CallTypeOf(row.callType)
    ensures u.1.None? ==>
              && ParseJakartaDatetime(cal, row.dialAnsweredAt, row.pbxRegion).Success?
              && ParseJakartaDatetime(cal, row.dialEndsAt, row.pbxRegion).Success?
              && u.0.dialAnsweredAt == Text(ParseJakartaDatetime(cal, row.dialAnsweredAt, row.pbxRegion).value)
              && u.0.dialEndAt == Text(ParseJakartaDatetime(cal, row.dialEndsAt, row.pbxRegion).value)
              && u.0.ringingTime == RawSpan(row.allDuration) && u.0.callDuration == RawSpan(row.duration)
              && u.0.callMemo == "" && u.0.callCharge == Literal(row.discount)
    ensures u.1.Some? ==>
              && u.0.dialEndAt == r.dialEndAt && u.0.ringingTime == r.ringingTime && u.0.callDuration == r.callDuration
              && u.0.callMemo == r.callMemo && u.0.callCharge == r.callCharge
    ensures ParseJakartaDatetime(cal, row.dialAnsweredAt, row.pbxRegion).Failure? ==>
              && u.1 == Some(ParseJakartaDatetime(cal, row.dialAnsweredAt, row.pbxRegion).error)
              && u.0.dialAnsweredAt == r.dialAnsweredAt
    ensures ParseJakartaDatetime(cal, row.dialAnsweredAt, row.pbxRegion).Success?
            && ParseJakartaDatetime(cal, row.dialEndsAt, row.pbxRegion).Failure? ==>
              && u.1 == Some(ParseJakartaDatetime(cal, row.dialEndsAt, row.pbxRegion).error)
              && u.0.dialAnsweredAt == Text(ParseJakartaDatetime(cal, row.dialAnsweredAt, row.pbxRegion).value)
  {
    var r1 := r.(callType := CallTypeOf(row.callType));
    match ParseJakartaDatetime(cal, row.dialAnsweredAt, row.pbxRegion)
    case Failure(e) => (r1, Some(e))
    case Success(answered) =>
      var r2 := r1.(dialAnsweredAt := Text(answered));
      match ParseJakartaDatetime(cal, row.dialEndsAt, row.pbxRegion)
      case Failure(e) => (r2, Some(e))
      case Success(end) =>
        (r2.(dialEndAt := Text(end), ringingTime := RawSpan(row.allDuration), callDuration := RawSpan(row.duration),
             callMemo := "", callCharge := Literal(row.discount)), None)
  }

  /** The record a console row creates: user "-", empty memo, times as Jakarta text parsed back by the constructor. */
  function ConsoleRecord(env: Env, row: ConsoleRow, from: Phone, to: Phone, start: string, client: string, carrier: string)
    : (r: Result<Rec, Error>)
    ensures r.Success? ==> r.value.userName == "-" && r.value.sequenceId == row.callId && r.value.callMemo == "-"
    ensures r.Success? ==> r.value.callType == CallTypeOf(row.callType)
  {
    var answered :- ParseJakartaDatetime(env.cal, row.dialAnsweredAt, row.pbxRegion);
    var end :- ParseJakartaDatetime(env.cal, row.dialEndsAt, row.pbxRegion);
    NewRec(env, RawCall(client, row.callId, "-", from, to, CallTypeOf(row.callType), start, answered, end,
                        row.allDuration, row.duration, "", row.discount, carrier))
  }

  /** Whether a stored record carries this sequence id. */
  ghost predicate SequenceIdSeen(view: map<string, Rec>, id: string)
  {
    exists k :: k in view && view[k].sequenceId == id
  }

  /** The key a console row is looked up and stored under. */
  function ConsoleKey(cal: Calendar, row: ConsoleRow): (r: Result<string, Error>)
    ensures r.Success? <==> ParseJakartaDatetime(cal, row.dialStartsAt, row.pbxRegion).Success?
  {
    var start :- ParseJakartaDatetime(cal, row.dialStartsAt, row.pbxRegion);
    Success(CallHash(ParsePhoneNumber(PStr(row.usedNumber)), ParsePhoneNumber(PStr(row.number)), start))
  }

  /** One console row. */
  ghost function ConsoleStep(env: Env, view: map<string, Rec>, row: ConsoleRow, client: string, carrier: string)
    : (r: Outcome)
    ensures ConsoleKey(env.cal, row).Failure? ==> r == Outcome(view, Some(ConsoleKey(env.cal, row).error))
    ensures r.error.None? ==>
              && ConsoleKey(env.cal, row).Success?
              && (ConsoleKey(env.cal, row).value in r.view || (r.view == view && SequenceIdSeen(view, row.callId)))
  {
    var from := ParsePhoneNumber(PStr(row.usedNumber));
    var to := ParsePhoneNumber(PStr(row.number));
    match ParseJakartaDatetime(env.cal, row.dialStartsAt, row.pbxRegion)
    case Failure(e) => Outcome(view, Some(e))
    case Success(start) =>
      var key := CallHash(from, to, start);
      if key in view then
        var u := ConsoleOverwrite(env.cal, view[key], row);
        Outcome(view[key := u.0], u.1)
      else if SequenceIdSeen(view, row.callId) then Outcome(view, None)
      else
        match ConsoleRecord(env, row, from, to, start, client, carrier)
        case Failure(e) => Outcome(view, Some(e))
        case Success(r) => Outcome(view[key := r], None)
  }

  /** `process_console_csv` on the store's contents. */
  ghost function ConsoleIngest(env: Env, view: map<string, Rec>, rows: seq<ConsoleRow>, client: string, carrier: string)
    : (r: Outcome)
    ensures r.error.None? ==> forall j :: 0 <= j < |rows| ==> ConsoleKey(env.cal, rows[j]).Success?
    decreases |rows|
  {
    if rows == [] then Outcome(view, None)
    else
      var o := ConsoleStep(env, view, rows[0], client, carrier);
      if o.error.Some? then o else ConsoleIngest(env, o.view, rows[1..], client, carrier)
  }

  /** A console row changes at most the record under its own key. */
  lemma ConsoleStepChangesOneKey(env: Env, view: map<string, Rec>, row: ConsoleRow, client: string, carrier: string)
    ensures var o := ConsoleStep(env, view, row, client, carrier);
            && view.Keys <= o.view.Keys
            && (ConsoleKey(env.cal, row).Failure? ==> o.view == view)
            && (ConsoleKey(env.cal, row).Success? ==>
                  && o.view.Keys <= view.Keys + {ConsoleKey(env.cal, row).value}
                  && forall k :: k in view && k != ConsoleKey(env.cal, row).value ==> o.view[k] == view[k])
  {
    var from := ParsePhoneNumber(PStr(row.usedNumber));
    var to := ParsePhoneNumber(PStr(row.number));
    match ParseJakartaDatetime(env.cal, row.dialStartsAt, row.pbxRegion)
    case Failure(_) =>
    case Success(start) =>
      var key := CallHash(from, to, start);
      assert ConsoleKey(env.cal, row).value == key;
      if key !in view && !SequenceIdSeen(view, row.callId) {
        match ConsoleRecord(env, row, from, to, start, client, carrier)
        case Failure(_) =>
        case Success(_) =>
      }
  }

  /** A row whose key is new but whose call id is already stored is dropped. */
  lemma ConsoleDuplicateCallIdDropped(env: Env, view: map<string, Rec>, row: ConsoleRow, client: string, carrier: string)
    requires ConsoleKey(env.cal, row).Success? && ConsoleKey(env.cal, row).value !in view
    requires SequenceIdSeen(view, row.callId)
    ensures ConsoleStep(env, view, row, client, carrier) == Outcome(view, None)
  {
  }

  /** The console ingest never removes a record. */
  lemma {:induction false} ConsoleIngestKeepsKeys(env: Env, view: map<string, Rec>, rows: seq<ConsoleRow>, client: string, carrier: string)
    ensures view.Keys <= ConsoleIngest(env, view, rows, client, carrier).view.Keys
    decreases |rows|
  {
    if rows != [] {
      var o := ConsoleStep(env, view, rows[0], client, carrier);
      ConsoleStepChangesOneKey(env, view, rows[0], client, carrier);
      if o.error.None? {
        ConsoleIngestKeepsKeys(env, o.view, rows[1..], client, carrier);
      }
    }
  }

  // ---------------------------------------------------------------------------
  // Dashboard keys and console keys
  // ---------------------------------------------------------------------------

  /** A piece of a key with neither a space nor an underscore. */
  predicate KeyPart(s: string)
  {
    forall i :: 0 <= i < |s| ==> s[i] != ' ' && s[i] != '_'
  }

  lemma KeyPartCounts(s: string)
    requires KeyPart(s)
    ensures CountChar(s, ' ') == 0 && CountChar(s, '_') == 0
  {
    CountCharAbsent(s, ' ');
    CountCharAbsent(s, '_');
  }

  lemma Pad2KeyPart(n: nat)
    ensures KeyPart(Pad2(n))
  {
    NoSignInNatToString(n);
  }

  lemma OffsetTextKeyPart(offset: Option<int>)
    ensures KeyPart(OffsetText(offset))
  {
    if offset.Some? {
      var m := offset.value;
      var a := if m < 0 then -m else m;
      var sign := if m < 0 then "-" else "+";
      Pad2KeyPart(a / 60);
      Pad2KeyPart(a % 60);
      KeyPartConcat(sign, Pad2(a / 60));
      KeyPartConcat(sign + Pad2(a / 60), ":");
      KeyPartConcat(sign + Pad2(a / 60) + ":", Pad2(a % 60));
      assert OffsetText(offset) == sign + Pad2(a / 60) + ":" + Pad2(a % 60);
    }
  }

  lemma KeyPartConcat(a: string, b: string)
    requires KeyPart(a) && KeyPart(b)
    ensures KeyPart(a + b)
  {
  }

  /** `str(datetime)` holds exactly one space and no underscore when the printed halves hold neither. */
  lemma StrDateTimeCounts(cal: Calendar, dt: DateTime)
    requires Plain(cal)
    ensures CountChar(StrDateTime(cal, dt), ' ') == 1 && CountChar(StrDateTime(cal, dt), '_') == 0
  {
    var d := cal.dateText(dt.wall);
    var c := cal.clockText(dt.wall);
    var o := OffsetText(dt.offset);
    assert SeparatorFree(d) && SeparatorFree(c);
    assert KeyPart(d) && KeyPart(c);
    OffsetTextKeyPart(dt.offset);
    KeyPartCounts(d);
    KeyPartCounts(c);
    KeyPartCounts(o);
    assert StrDateTime(cal, dt) == d + (" " + (c + o));
    CountCharConcat(d, " " + (c + o), ' ');
    CountCharConcat(d, " " + (c + o), '_');
    CountCharConcat(" ", c + o, ' ');
    CountCharConcat(" ", c + o, '_');
    CountCharConcat(c, o, ' ');
    CountCharConcat(c, o, '_');
  }

  /** The text `parse_jakarta_datetime` returns holds neither a space nor an underscore. */
  lemma JakartaTextKeyPart(cal: Calendar, text: string, region: string)
    requires Plain(cal) && ParseJakartaDatetime(cal, text, region).Success?
    ensures KeyPart(ParseJakartaDatetime(cal, text, region).value)
  {
    if text != "nan" {
      var dt := ConvertToJakartaTimeIso(cal, text, region).value;
      var s := StrDateTime(cal, dt);
      StrDateTimeCounts(cal, dt);
      forall i | 0 <= i < |s| ensures s[i] != '_' {
        if s[i] == '_' {
          CountCharPositive(s, '_', i);
        }
      }
    }
  }

  lemma {:induction false} CountCharPositive(s: string, c: char, i: nat)
    requires i < |s| && s[i] == c
    ensures CountChar(s, c) > 0
  {
    if i > 0 {
      CountCharPositive(s[1..], c, i - 1);
    }
  }

  /** Underscores in `call_hash`: the two separators, the start text's own, and one per space in it. */
  lemma CallHashUnderscores(from: Phone, to: Phone, start: string)
    requires KeyPart(PhoneText(from)) && KeyPart(PhoneText(to))
    ensures CountChar(CallHash(from, to, start), '_') == 2 + CountChar(start, '_') + CountChar(start, ' ')
  {
    var f := PhoneText(from);
    var t := PhoneText(to);
    var s := f + "_" + t + "_" + start;
    assert s == f + ("_" + (t + ("_" + start)));
    KeyPartCounts(f);
    KeyPartCounts(t);
    CountAfterReplace(s, ' ', '_');
    CountCharConcat(f, "_" + (t + ("_" + start)), '_');
    CountCharConcat(f, "_" + (t + ("_" + start)), ' ');
    CountCharConcat("_", t + ("_" + start), '_');
    CountCharConcat("_", t + ("_" + start), ' ');
    CountCharConcat(t, "_" + start, '_');
    CountCharConcat(t, "_" + start, ' ');
    CountCharConcat("_", start, '_');
    CountCharConcat("_", start, ' ');
  }

  /** A record's own key (`hash_key`) has three underscores. */
  lemma RecKeyUnderscores(cal: Calendar, r: Rec)
    requires Plain(cal) && KeyPart(PhoneText(r.callFrom)) && KeyPart(PhoneText(r.callTo))
    ensures CountChar(RecKey(cal, r), '_') == 3
  {
    CallHashUnderscores(r.callFrom, r.callTo, StrDateTime(cal, r.dialStartAt));
    StrDateTimeCounts(cal, r.dialStartAt);
  }

  /** A console key has two underscores. */
  lemma ConsoleKeyUnderscores(cal: Calendar, row: ConsoleRow)
    requires Plain(cal) && ConsoleKey(cal, row).Success?
    requires KeyPart(PhoneText(ParsePhoneNumber(PStr(row.usedNumber)))) && KeyPart(PhoneText(ParsePhoneNumber(PStr(row.number))))
    ensures CountChar(ConsoleKey(cal, row).value, '_') == 2
  {
    var start := ParseJakartaDatetime(cal, row.dialStartsAt, row.pbxRegion).value;
    JakartaTextKeyPart(cal, row.dialStartsAt, row.pbxRegion);
    KeyPartCounts(start);
    CallHashUnderscores(ParsePhoneNumber(PStr(row.usedNumber)), ParsePhoneNumber(PStr(row.number)), start);
  }

  /**
   * A console row never finds a record under the key a dashboard row
   * stored it, so it can only update records the console itself created
   * (for numbers and printed times without spaces or underscores).
   */
  lemma ConsoleKeyNeverDashboardKey(cal: Calendar, row: ConsoleRow, r: Rec)
    requires Plain(cal) && ConsoleKey(cal, row).Success?
    requires KeyPart(PhoneText(ParsePhoneNumber(PStr(row.usedNumber)))) && KeyPart(PhoneText(ParsePhoneNumber(PStr(row.number))))
    requires KeyPart(PhoneText(r.callFrom)) && KeyPart(PhoneText(r.callTo))
    ensures ConsoleKey(cal, row).value != RecKey(cal, r)
  {
    ConsoleKeyUnderscores(cal, row);
    RecKeyUnderscores(cal, r);
  }

  /** Text without an underscore. */
  predicate NoUnderscore(s: string)
  {
    forall i :: 0 <= i < |s| ==> s[i] != '_'
  }

  /** A phone number written without an underscore normalises to a key piece. */
  lemma ParsedPhoneKeyPart(s: string)
    requires NoUnderscore(s)
    ensures KeyPart(PhoneText(ParsePhoneNumber(PStr(s))))
  {
    var p := ParsePhoneNumber(PStr(s));
    if s != "scancall" {
      var cleaned := CleanNumber(s);
      FilterAvoids(s, Punctuation, '_');
      match p
      case PInt(n) =>
        NoSignInNatToString(n);
      case PStr(c) =>
        assert c == DropCountryCode(cleaned);
    }
  }

  /**
   * The dashboard's store invariant: every record sits under its own
   * `hash_key`, and its numbers hold neither a space nor an underscore.
   */
  ghost predicate DashboardKeyed(cal: Calendar, view: map<string, Rec>)
  {
    forall k :: k in view ==>
      k == RecKey(cal, view[k]) && KeyPart(PhoneText(view[k].callFrom)) && KeyPart(PhoneText(view[k].callTo))
  }

  /** A dashboard row keeps the invariant: a new record goes under its key, a repeat only renames and re-memos. */
  lemma DashboardStepKeyed(env: Env, view: map<string, Rec>, row: DashboardRow, client: string, carrier: string)
    requires DashboardKeyed(env.cal, view)
    requires NoUnderscore(row.callFrom) && NoUnderscore(row.callTo)
    ensures DashboardStep(env, view, row, client, carrier).Success? ==>
              DashboardKeyed(env.cal, DashboardStep(env, view, row, client, carrier).value)
  {
    var built := NewRec(env, DashboardCall(row, client, carrier));
    if built.Success? {
      ParsedPhoneKeyPart(row.callFrom);
      ParsedPhoneKeyPart(row.callTo);
      var key := RecKey(env.cal, built.value);
      var next := DashboardStep(env, view, row, client, carrier).value;
      forall k | k in next
        ensures k == RecKey(env.cal, next[k]) && KeyPart(PhoneText(next[k].callFrom)) && KeyPart(PhoneText(next[k].callTo))
      {
        if k == key && key in view {
          assert next[k].(userName := view[k].userName, callMemo := view[k].callMemo) == view[k];
        }
      }
    }
  }

  /** Every record the dashboard ingest stores, from an empty store, sits under its own `hash_key`. */
  lemma {:induction false} DashboardIngestKeyed(env: Env, view: map<string, Rec>, rows: seq<DashboardRow>, client: string, carrier: string)
    requires DashboardKeyed(env.cal, view)
    requires forall j :: 0 <= j < |rows| ==> NoUnderscore(rows[j].callFrom) && NoUnderscore(rows[j].callTo)
    ensures DashboardKeyed(env.cal, DashboardIngest(env, view, rows, client, carrier).view)
    decreases |rows|
  {
    if rows != [] {
      DashboardStepKeyed(env, view, rows[0], client, carrier);
      match DashboardStep(env, view, rows[0], client, carrier)
      case Failure(_) =>
      case Success(next) =>
        assert forall j :: 0 <= j < |rows[1..]| ==> rows[1..][j] == rows[j + 1];
        DashboardIngestKeyed(env, next, rows[1..], client, carrier);
    }
  }

  /** A console row's key is never a key of a store the dashboard filled. */
  lemma ConsoleKeyMissesDashboardStore(env: Env, view: map<string, Rec>, row: ConsoleRow)
    requires Plain(env.cal) && DashboardKeyed(env.cal, view)
    requires NoUnderscore(row.usedNumber) && NoUnderscore(row.number)
    ensures ConsoleKey(env.cal, row).Success? ==> ConsoleKey(env.cal, row).value !in view
  {
    if ConsoleKey(env.cal, row).Success? && ConsoleKey(env.cal, row).value in view {
      var k := ConsoleKey(env.cal, row).value;
      ParsedPhoneKeyPart(row.usedNumber);
      ParsedPhoneKeyPart(row.number);
      ConsoleKeyNeverDashboardKey(env.cal, row, view[k]);
      assert false;
    }
  }

  /** A console ingest leaves a record stored under its own `hash_key` exactly as it was. */
  lemma {:induction false} ConsoleIngestKeepsKeyedRecord(env: Env, view: map<string, Rec>, rows: seq<ConsoleRow>,
                                                          client: string, carrier: string, k: string)
    requires Plain(env.cal) && k in view && k == RecKey(env.cal, view[k])
    requires KeyPart(PhoneText(view[k].callFrom)) && KeyPart(PhoneText(view[k].callTo))
    requires forall j :: 0 <= j < |rows| ==> NoUnderscore(rows[j].usedNumber) && NoUnderscore(rows[j].number)
    ensures k in ConsoleIngest(env, view, rows, client, carrier).view
    ensures ConsoleIngest(env, view, rows, client, carrier).view[k] == view[k]
    decreases |rows|
  {
    if rows != [] {
      var o := ConsoleStep(env, view, rows[0], client, carrier);
      ConsoleStepChangesOneKey(env, view, rows[0], client, carrier);
      if ConsoleKey(env.cal, rows[0]).Success? {
        ParsedPhoneKeyPart(rows[0].usedNumber);
        ParsedPhoneKeyPart(rows[0].number);
        ConsoleKeyNeverDashboardKey(env.cal, rows[0], view[k]);
      }
      assert k in o.view && o.view[k] == view[k];
      if o.error.None? {
        assert forall j :: 0 <= j < |rows[1..]| ==> rows[1..][j] == rows[j + 1];
        ConsoleIngestKeepsKeyedRecord(env, o.view, rows[1..], client, carrier, k);
      }
    }
  }

  /** A console ingest over a store the dashboard filled leaves every stored record as it was. */
  lemma ConsoleKeepsDashboardStore(env: Env, stored: map<string, Rec>, console: seq<ConsoleRow>, client: string, carrier: string)
    requires Plain(env.cal) && DashboardKeyed(env.cal, stored)
    requires forall j :: 0 <= j < |console| ==> NoUnderscore(console[j].usedNumber) && NoUnderscore(console[j].number)
    ensures forall k :: k in stored ==>
              k in ConsoleIngest(env, stored, console, client, carrier).view
              && ConsoleIngest(env, stored, console, client, carrier).view[k] == stored[k]
  {
    forall k | k in stored
      ensures k in ConsoleIngest(env, stored, console, client, carrier).view
      ensures ConsoleIngest(env, stored, console, client, carrier).view[k] == stored[k]
    {
      ConsoleIngestKeepsKeyedRecord(env, stored, console, client, carrier, k);
    }
  }

  /**
   * As written, the console pass never updates a record the dashboard
   * pass stored: after both ingests every dashboard record is unchanged.
   */
  lemma ConsoleNeverUpdatesDashboardRecords(env: Env, dashboard: seq<DashboardRow>, console: seq<ConsoleRow>,
                                            client: string, carrier: string)
    requires Plain(env.cal)
    requires forall j :: 0 <= j < |dashboard| ==> NoUnderscore(dashboard[j].callFrom) && NoUnderscore(dashboard[j].callTo)
    requires forall j :: 0 <= j < |console| ==> NoUnderscore(console[j].usedNumber) && NoUnderscore(console[j].number)
    ensures var stored := DashboardIngest(env, map[], dashboard, client, carrier).view;
            var merged := ConsoleIngest(env, stored, console, client, carrier).view;
            forall k :: k in stored ==> k in merged && merged[k] == stored[k]
  {
    DashboardIngestKeyed(env, map[], dashboard, client, carrier);
    ConsoleKeepsDashboardStore(env, DashboardIngest(env, map[], dashboard, client, carrier).view, console, client, carrier);
  }

  /**
   * The console key built the way `hash_key` builds it: the start converted
   * to Jakarta time and printed by `str(datetime)`, with a space that
   * `call_hash` turns into an underscore.
   */
  function IntendedConsoleKey(cal: Calendar, row: ConsoleRow): (r: Result<string, Error>)
    ensures row.dialStartsAt != "nan" ==>
              (r.Success? <==> ConvertToJakartaTimeIso(cal, row.dialStartsAt, row.pbxRegion).Success?)
    ensures row.dialStartsAt == "nan" ==> r == ConsoleKey(cal, row)
  {
    if row.dialStartsAt == "nan" then ConsoleKey(cal, row)
    else
      var start :- ConvertToJakartaTimeIso(cal, row.dialStartsAt, row.pbxRegion);
      Success(CallHash(ParsePhoneNumber(PStr(row.usedNumber)), ParsePhoneNumber(PStr(row.number)), StrDateTime(cal, start)))
  }

  /**
   * A console row for the same numbers whose start, in Jakarta time, is a
   * dashboard record's start: the intended key finds that record, the key
   * as written does not.
   */
  lemma IntendedConsoleKeyFindsDashboardRecord(cal: Calendar, view: map<string, Rec>, row: ConsoleRow, k: string)
    requires DashboardKeyed(cal, view) && k in view
    requires row.dialStartsAt != "nan"
    requires ConvertToJakartaTimeIso(cal, row.dialStartsAt, row.pbxRegion) == Success(view[k].dialStartAt)
    requires ParsePhoneNumber(PStr(row.usedNumber)) == view[k].callFrom && ParsePhoneNumber(PStr(row.number)) == view[k].callTo
    ensures IntendedConsoleKey(cal, row) == Success(k)
    ensures Plain(cal) ==> ConsoleKey(cal, row).Success? && ConsoleKey(cal, row).value != k
  {
    if Plain(cal) {
      ConsoleKeyNeverDashboardKey(cal, row, view[k]);
    }
  }

  // ---------------------------------------------------------------------------
  // round_up_duration
  // ---------------------------------------------------------------------------

  /**
   * `round_up_duration`: `h:m:s` gives whole minutes with the seconds rounded
   * up, a plain integer is seconds rounded up to minutes, anything that does
   * not parse gives 0.
   */
  function RoundUpDuration(text: string): (n: int)
    ensures ':' in text && |Split(text, ':')| != 3 ==> n == 0
    ensures ':' !in text && ParseInt(text).None? ==> n == 0
  {
    if ':' in text then
      var parts := Split(text, ':');
      if |parts| != 3 then 0
      else
        match (ParseInt(parts[0]), ParseInt(parts[1]), ParseInt(parts[2]))
        case (Some(h), Some(m), Some(s)) => h * 60 + m + CeilMinutes(s)
        case _ => 0
    else
      match ParseInt(text)
      case Some(secs) => CeilMinutes(secs)
      case None => 0
  }

  lemma CeilMinutesShift(k: int, s: int)
    ensures CeilMinutes(60 * k + s) == k + CeilMinutes(s)
  {
    var m := CeilMinutes(60 * k + s);
    var c := CeilMinutes(s);
    assert (m - 1) * 60 < 60 * k + s <= m * 60;
    assert (c - 1) * 60 < s <= c * 60;
  }

  /** A plain count of seconds rounds up to whole minutes. */
  lemma RoundUpOfSeconds(secs: nat)
    ensures RoundUpDuration(IntToString(secs)) == CeilMinutes(secs)
  {
    NoSignInNatToString(secs);
    ParseIntOfIntToString(secs);
    assert ':' !in IntToString(secs);
  }

  /** The clock text `h:mm:ss` splits into its three fields. */
  lemma ClockFields(h: nat, mm: nat, ss: nat)
    ensures Split(NatToString(h) + ":" + Pad2(mm) + ":" + Pad2(ss), ':') == [NatToString(h), Pad2(mm), Pad2(ss)]
  {
    var a := NatToString(h);
    var b := Pad2(mm);
    var c := Pad2(ss);
    assert a + ":" + b + ":" + c == a + [':'] + (b + [':'] + c);
    NoSignInNatToString(h);
    Pad2KeyPart(mm);
    NoSignInNatToString(mm);
    NoSignInNatToString(ss);
    assert forall i :: 0 <= i < |b| ==> b[i] != ':';
    assert forall i :: 0 <= i < |c| ==> c[i] != ':';
    SplitAt(a, ':', b + [':'] + c);
    SplitAt(b, ':', c);
    SplitFree(c, ':');
  }

  /** `round_up_duration` of a clock text: whole hours and minutes, seconds rounded up. */
  lemma RoundUpOfClock(h: nat, mm: nat, ss: nat)
    ensures RoundUpDuration(NatToString(h) + ":" + Pad2(mm) + ":" + Pad2(ss)) == h * 60 + mm + CeilMinutes(ss)
  {
    var text := NatToString(h) + ":" + Pad2(mm) + ":" + Pad2(ss);
    assert text[|NatToString(h)|] == ':';
    ClockFields(h, mm, ss);
    ParseIntOfIntToString(h);
    ParseIntOfPad2(mm);
    ParseIntOfPad2(ss);
  }

  lemma ClockDecomposition(secs: nat)
    ensures secs == 60 * (60 * (secs / 3600) + secs % 3600 / 60) + secs % 60
  {
  }

  /** A duration printed as `format_timedelta` prints it rounds up to the minutes of what is left after whole days. */
  lemma RoundUpOfFormattedDuration(secs: int)
    ensures RoundUpDuration(FormatTimedelta(secs)) == CeilMinutes(secs % 86400)
  {
    var rem := secs % 86400;
    RoundUpOfClock(rem / 3600, rem % 3600 / 60, rem % 60);
    ClockDecomposition(rem);
    CeilMinutesShift(60 * (rem / 3600) + rem % 3600 / 60, rem % 60);
  }

  /** Below one day the rounded duration is the call's whole minutes. */
  lemma RoundUpOfShortCall(secs: int)
    requires 0 <= secs < 86400
    ensures RoundUpDuration(FormatTimedelta(secs)) == CeilMinutes(secs)
  {
    RoundUpOfFormattedDuration(secs);
  }

  /** A call lasting whole days plus `secs` rounds to the minutes of `secs` alone: 1440 minutes per day are lost. */
  lemma RoundUpLosesWholeDays(days: nat, secs: int)
    requires 0 <= secs < 86400
    ensures CeilMinutes(86400 * days + secs) == 1440 * days + CeilMinutes(secs)
    ensures RoundUpDuration(FormatTimedelta(86400 * days + secs)) == CeilMinutes(secs)
  {
    DayRemainder(days, secs);
    RoundUpOfRemainder(86400 * days + secs, secs);
  }

  lemma RoundUpOfRemainder(n: int, secs: int)
    requires n % 86400 == secs
    ensures RoundUpDuration(FormatTimedelta(n)) == CeilMinutes(secs)
  {
    RoundUpOfFormattedDuration(n);
  }

  lemma DayRemainder(days: nat, secs: int)
    requires 0 <= secs < 86400
    ensures (86400 * days + secs) % 86400 == secs
    ensures CeilMinutes(86400 * days + secs) == 1440 * days + CeilMinutes(secs)
  {
    assert 60 * (1440 * days) + secs == 86400 * days + secs;
    CeilMinutesShift(1440 * days, secs);
  }

  // ---------------------------------------------------------------------------
  // The store
  // ---------------------------------------------------------------------------

  /** The dict of call records the two ingests fill. */
  class MergeStore {
    const env: Env
    var details: map<string, CallDetail>

    /** The records as values, key by key. */
    ghost var view: map<string, Rec>

    /**
     * `view` mirrors the objects; distinct keys hold distinct objects, all
     * valid and built against this store's environment.
     */
    ghost predicate Valid()
      reads this, details.Values
    {
      && view.Keys == details.Keys
      && (forall k1, k2 :: k1 in details && k2 in details && k1 != k2 ==> details[k1] != details[k2])
      && (forall k :: k in details ==> details[k].env == env && details[k].Valid() && view[k] == details[k].Value())
    }

    constructor (env: Env)
      ensures this.env == env && view == map[] && Valid()
    {
      this.env := env;
      details := map[];
      view := map[];
    }

    /** `any(d.sequence_id == id for d in call_details.values())`. */
    method HasSequenceId(id: string) returns (found: bool)
      requires Valid()
      ensures found <==> SequenceIdSeen(view, id)
    {
      found := false;
      var remaining := details.Keys;
      while remaining != {}
        invariant remaining <= details.Keys
        invariant found <==> exists k :: k in details.Keys - remaining && details[k].sequenceId == id
        decreases |remaining|
      {
        var k :| k in remaining;
        if details[k].sequenceId == id {
          found := true;
        }
        remaining := remaining - {k};
      }
      assert SequenceIdSeen(view, id) <==> exists k :: k in details && details[k].sequenceId == id by {
        assert forall k :: k in details ==> view[k].sequenceId == details[k].sequenceId;
      }
    }

    /** Stores a new record under a new key. */
    method Insert(key: string, d: CallDetail)
      requires Valid() && key !in details && d !in details.Values
      requires d.Valid() && d.env == env
      modifies this
      ensures Valid() && details == old(details)[key := d]
      ensures view == old(view)[key := d.Value()]
    {
      details := details[key := d];
      view := view[key := d.Value()];
    }

    /** The dashboard's overwrite of a stored record: the user name and the memo, nothing else. */
    method SetNameAndMemo(key: string, userName: string, callMemo: string)
      requires Valid() && key in details
      modifies this, details[key]
      ensures Valid() && details == old(details)
      ensures view == old(view)[key := old(view)[key].(userName := userName, callMemo := callMemo)]
    {
      var d := details[key];
      d.userName := userName;
      d.callMemo := callMemo;
      view := view[key := d.Value()];
      forall k | k in details
        ensures details[k].env == env && details[k].Valid() && view[k] == details[k].Value()
      {
        if k != key {
          assert details[k] != d;
        }
      }
    }

    /** The console's overwrite of the record stored under `key`. */
    method OverwriteAt(key: string, row: ConsoleRow) returns (err: Option<Error>)
      requires Valid() && key in details
      modifies this, details[key]
      ensures Valid() && details == old(details)
      ensures view == old(view)[key := ConsoleOverwrite(env.cal, old(view)[key], row).0]
      ensures err == ConsoleOverwrite(env.cal, old(view)[key], row).1
    {
      var d := details[key];
      err := Overwrite(d, row);
      view := view[key := d.Value()];
      forall k | k in details
        ensures details[k].env == env && details[k].Valid() && view[k] == details[k].Value()
      {
        if k != key {
          assert details[k] != d;
        }
      }
    }

    /** One dashboard row against the store. */
    method DashboardRowStep(row: DashboardRow, client: string, carrier: string) returns (err: Option<Error>)
      requires Valid()
      modifies this, details.Values
      ensures Valid()
      ensures forall k :: k in details ==> details[k] in old(details.Values) || fresh(details[k])
      ensures err.Some? <==> DashboardStep(env, old(view), row, client, carrier).Failure?
      ensures err.Some? ==> err.value == DashboardStep(env, old(view), row, client, carrier).error && view == old(view)
      ensures err.None? ==> view == DashboardStep(env, old(view), row, client, carrier).value
    {
      var created := CallDetail.Create(env, DashboardCall(row, client, carrier));
      if created.Failure? {
        return Some(created.error);
      }
      StoreDashboard(created.value, row);
      return None;
    }

    /** A record built from a dashboard row is stored under its key, or updates the record already there. */
    method StoreDashboard(d: CallDetail, row: DashboardRow)
      requires Valid() && d.Valid() && d.env == env && d !in details.Values
      modifies this, details.Values
      ensures Valid()
      ensures forall k :: k in details ==> details[k] in old(details.Values) || details[k] == d
      ensures view == StoreDashboardRec(old(view), RecKey(env.cal, d.Value()), d.Value(), row)
    {
      var key := d.HashKey();
      if key in details {
        SetNameAndMemo(key, row.userName, row.callMemo);
      } else {
        Insert(key, d);
      }
    }

    /** `process_dashboard_csv` over rows already read from the file. */
    method ProcessDashboard(rows: seq<DashboardRow>, client: string, carrier: string) returns (err: Option<Error>)
      requires Valid()
      modifies this, details.Values
      ensures Valid()
      ensures Outcome(view, err) == DashboardIngest(env, old(view), rows, client, carrier)
    {
      var i := 0;
      while i < |rows|
        invariant 0 <= i <= |rows|
        invariant Valid()
        invariant forall k :: k in details ==> details[k] in old(details.Values) || fresh(details[k])
        invariant DashboardIngest(env, old(view), rows, client, carrier) == DashboardIngest(env, view, rows[i..], client, carrier)
      {
        assert rows[i..][0] == rows[i] && rows[i..][1..] == rows[i + 1..];
        err := DashboardRowStep(rows[i], client, carrier);
        if err.Some? {
          return err;
        }
        i := i + 1;
      }
      return None;
    }

    /** Writes a console row over one stored record, stopping where `ConsoleOverwrite` stops. */
    static method Overwrite(d: CallDetail, row: ConsoleRow) returns (err: Option<Error>)
      requires d.Valid()
      modifies d
      ensures d.Valid()
      ensures (d.Value(), err) == ConsoleOverwrite(d.env.cal, old(d.Value()), row)
    {
      ghost var r := d.Value().(callType := CallTypeOf(row.callType));
      d.callType := CallTypeOf(row.callType);
      assert d.Value() == r;
      var answered := ParseJakartaDatetime(d.env.cal, row.dialAnsweredAt, row.pbxRegion);
      if answered.Failure? {
        return Some(answered.error);
      }
      r := r.(dialAnsweredAt := Text(answered.value));
      d.dialAnsweredAt := Text(answered.value);
      assert d.Value() == r;
      var end := ParseJakartaDatetime(d.env.cal, row.dialEndsAt, row.pbxRegion);
      if end.Failure? {
        return Some(end.error);
      }
      d.dialEndAt := Text(end.value);
      d.ringingTime := RawSpan(row.allDuration);
      d.callDuration := RawSpan(row.duration);
      d.callMemo := "";
      d.callCharge := Literal(row.discount);
      assert d.Value() == r.(dialEndAt := Text(end.value), ringingTime := RawSpan(row.allDuration),
                             callDuration := RawSpan(row.duration), callMemo := "", callCharge := Literal(row.discount));
      return None;
    }

    /** One console row against the store. */
    method ConsoleRowStep(row: ConsoleRow, client: string, carrier: string) returns (err: Option<Error>)
      requires Valid()
      modifies this, details.Values
      ensures Valid()
      ensures forall k :: k in details ==> details[k] in old(details.Values) || fresh(details[k])
      ensures Outcome(view, err) == ConsoleStep(env, old(view), row, client, carrier)
    {
      var from := ParsePhoneNumber(PStr(row.usedNumber));
      var to := ParsePhoneNumber(PStr(row.number));
      var start := ParseJakartaDatetime(env.cal, row.dialStartsAt, row.pbxRegion);
      if start.Failure? {
        return Some(start.error);
      }
      var key := CallHash(from, to, start.value);
      if key in details {
        err := OverwriteAt(key, row);
      } else {
        var seen := HasSequenceId(row.callId);
        if seen {
          return None;
        }
        err := AddConsoleRecord(key, row, from, to, start.value, client, carrier);
      }
    }

    /** A console row without a stored counterpart becomes a new record under `key`. */
    method AddConsoleRecord(key: string, row: ConsoleRow, from: Phone, to: Phone, start: string, client: string, carrier: string)
      returns (err: Option<Error>)
      requires Valid() && key !in details
      modifies this
      ensures Valid()
      ensures forall k :: k in details ==> details[k] in old(details.Values) || fresh(details[k])
      ensures ConsoleRecord(env, row, from, to, start, client, carrier).Failure? ==>
                err == Some(ConsoleRecord(env, row, from, to, start, client, carrier).error) && view == old(view)
      ensures ConsoleRecord(env, row, from, to, start, client, carrier).Success? ==>
                err.None? && view == old(view)[key := ConsoleRecord(env, row, from, to, start, client, carrier).value]
    {
      var answered := ParseJakartaDatetime(env.cal, row.dialAnsweredAt, row.pbxRegion);
      if answered.Failure? {
        return Some(answered.error);
      }
      var end := ParseJakartaDatetime(env.cal, row.dialEndsAt, row.pbxRegion);
      if end.Failure? {
        return Some(end.error);
      }
      err := AddRecord(key, RawCall(client, row.callId, "-", from, to, CallTypeOf(row.callType), start, answered.value,
                                    end.value, row.allDuration, row.duration, "", row.discount, carrier));
    }

    /** Builds a record from `a` and stores it under the unused `key`, or reports why it could not be built. */
    method AddRecord(key: string, a: RawCall) returns (err: Option<Error>)
      requires Valid() && key !in details
      modifies this
      ensures Valid()
      ensures forall k :: k in details ==> details[k] in old(details.Values) || fresh(details[k])
      ensures NewRec(env, a).Failure? ==> err == Some(NewRec(env, a).error) && view == old(view)
      ensures NewRec(env, a).Success? ==> err.None? && view == old(view)[key := NewRec(env, a).value]
    {
      var created := CallDetail.Create(env, a);
      if created.Failure? {
        return Some(created.error);
      }
      var d := created.value;
      assert d !in details.Values;
      Insert(key, d);
      return None;
    }

    /** `process_console_csv` over rows already read from the file. */
    method ProcessConsole(rows: seq<ConsoleRow>, client: string, carrier: string) returns (err: Option<Error>)
      requires Valid()
      modifies this, details.Values
      ensures Valid()
      ensures Outcome(view, err) == ConsoleIngest(env, old(view), rows, client, carrier)
    {
      var i := 0;
      while i < |rows|
        invariant 0 <= i <= |rows|
        invariant Valid()
        invariant forall k :: k in details ==> details[k] in old(details.Values) || fresh(details[k])
        invariant ConsoleIngest(env, old(view), rows, client, carrier) == ConsoleIngest(env, view, rows[i..], client, carrier)
      {
        assert rows[i..][0] == rows[i] && rows[i..][1..] == rows[i + 1..];
        err := ConsoleRowStep(rows[i], client, carrier);
        if err.Some? {
          return err;
        }
        i := i + 1;
      }
      return None;
    }
  }
}
