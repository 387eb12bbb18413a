/**
 * The call record of src/CallDetail.py: construction from raw field texts,
 * the lazily cached configuration entry and the record's store key.
 */
module CallRecords {
  import opened Wrappers
  import opened Text
  import opened Utils
  import opened FileConfig
  import opened Charges
  import Classify

  /** A point in time as the record holds it: parsed, absent (`None`), or text written over it by the console ingest. */
  datatype Stamp = At(dt: DateTime) | Unset | Text(text: string)

  /** A duration: parsed seconds, or the raw text the console ingest writes over it. */
  datatype Span = Delta(seconds: int) | RawSpan(text: string)

  /** Everything the record reads from outside: the classifier tables, the rate tables, CONFIG and the datetime library. */
  datatype Env = Env(tables: Classify.Tables, rates: RateTables, configs: seq<Files>, cal: Calendar)

  /** The constructor's arguments. Phone numbers arrive as text from the dashboard and already normalised from the console. */
  datatype RawCall = RawCall(
    client: string,
    sequenceId: string,
    userName: string,
    callFrom: Phone,
    callTo: Phone,
    callType: string,
    dialStartAt: string,
    dialAnsweredAt: string,
    dialEndAt: string,
    ringingTime: string,
    callDuration: string,
    callMemo: string,
    callCharge: string,
    carrier: string)

  /** The attributes of a record as a value. */
  datatype Rec = Rec(
    client: string,
    sequenceId: string,
    userName: string,
    callFrom: Phone,
    callTo: Phone,
    callType: string,
    dialStartAt: DateTime,
    dialAnsweredAt: Stamp,
    dialEndAt: Stamp,
    ringingTime: Span,
    callDuration: Span,
    callMemo: string,
    carrier: string,
    numberType: Option<string>,
    callCharge: Charge)

  /** `parse_iso_datetime`. */
  function ParseIsoDatetime(cal: Calendar, text: string): (r: Result<DateTime, Error>)
    ensures r.Success? <==> cal.parseIso(text).Some?
    ensures r.Success? ==> cal.parseIso(text) == Some(r.value)
  {
    match cal.parseIso(text)
    case Some(dt) => Success(dt)
    case None => Failure(BadTimestamp(text))
  }

  /**
   * `CallDetail.__init__`: every field is normalised in source order, the
   * first failure propagates, and the charge is computed from the rules;
   * the `call_charge` argument is never read.
   */
  function NewRec(env: Env, a: RawCall): (r: Result<Rec, Error>)
    ensures r.Success? ==> r.value.callFrom == ParsePhoneNumber(a.callFrom) && r.value.callTo == ParsePhoneNumber(a.callTo)
    ensures r.Success? ==> (r.value.dialAnsweredAt == Unset <==> a.dialAnsweredAt == "-")
    ensures r.Success? ==> env.cal.parseIso(a.dialStartAt) == Some(r.value.dialStartAt)
    ensures r.Success? ==> r.value.callDuration.Delta? && ParseTimeDuration(a.callDuration) == Success(r.value.callDuration.seconds)
    ensures r.Success? ==> r.value.ringingTime.Delta? && ParseTimeDuration(a.ringingTime) == Success(r.value.ringingTime.seconds)
    ensures r.Success? ==> r.value.numberType == Classify.ClassifyNumber(env.tables, r.value.callTo, a.callType, r.value.callFrom)
    ensures r.Success? ==> r.value.callMemo == ParseCallMemo(a.callMemo)
    ensures r.Success? ==> r.value.client == a.client && r.value.sequenceId == a.sequenceId && r.value.userName == a.userName
                           && r.value.callType == a.callType && r.value.carrier == a.carrier
    ensures r.Success? ==>
              CallCharge(env.tables, env.rates, MatchClient(env.configs, a.client),
                         CallFacts(a.client, r.value.callFrom, r.value.callTo, a.callType, r.value.numberType),
                         r.value.callDuration.seconds) == Success(r.value.callCharge)
    ensures ParseIsoDatetime(env.cal, a.dialStartAt).Failure? ==> r == Failure(BadTimestamp(a.dialStartAt))
  {
    Normalise(env, a.(callCharge := ""))
  }

  /** The constructor's field-by-field normalisation; `NewRec` hands it the arguments with `call_charge` blanked. */
  function Normalise(env: Env, a: RawCall): Result<Rec, Error>
  {
    var callFrom := ParsePhoneNumber(a.callFrom);
    var callTo := ParsePhoneNumber(a.callTo);
    var start :- ParseIsoDatetime(env.cal, a.dialStartAt);
    var answered :- if a.dialAnsweredAt == "-" then Success(Unset)
                    else match ParseIsoDatetime(env.cal, a.dialAnsweredAt)
                         case Success(dt) => Success(At(dt))
                         case Failure(e) => Failure(e);
    var end :- ParseIsoDatetime(env.cal, a.dialEndAt);
    var ringing :- ParseTimeDuration(a.ringingTime);
    var duration :- ParseTimeDuration(a.callDuration);
    var memo := ParseCallMemo(a.callMemo);
    var numberType := Classify.ClassifyNumber(env.tables, callTo, a.callType, callFrom);
    var charge :- CallCharge(env.tables, env.rates, MatchClient(env.configs, a.client),
                             CallFacts(a.client, callFrom, callTo, a.callType, numberType), duration);
    Success(Rec(a.client, a.sequenceId, a.userName, callFrom, callTo, a.callType, start, answered, At(end),
                Delta(ringing), Delta(duration), memo, a.carrier, numberType, charge))
  }

  /** The answer and end times of a built record are what the datetime library parsed. */
  lemma NewRecTimes(env: Env, a: RawCall)
    requires NewRec(env, a).Success?
    ensures NewRec(env, a).value.dialEndAt.At? && env.cal.parseIso(a.dialEndAt) == Some(NewRec(env, a).value.dialEndAt.dt)
    ensures a.dialAnsweredAt != "-" ==>
              NewRec(env, a).value.dialAnsweredAt.At?
              && env.cal.parseIso(a.dialAnsweredAt) == Some(NewRec(env, a).value.dialAnsweredAt.dt)
  {
  }

  /** The timestamps that parse: the start, the answer unless it is `-`, and the end. */
  predicate TimesParse(env: Env, a: RawCall)
  {
    && env.cal.parseIso(a.dialStartAt).Some?
    && (a.dialAnsweredAt == "-" || env.cal.parseIso(a.dialAnsweredAt).Some?)
    && env.cal.parseIso(a.dialEndAt).Some?
  }

  /** The first field that fails to parse, in source order, is the error raised. */
  lemma NewRecFailsInOrder(env: Env, a: RawCall)
    ensures env.cal.parseIso(a.dialStartAt).Some? && a.dialAnsweredAt != "-" && env.cal.parseIso(a.dialAnsweredAt).None? ==>
              NewRec(env, a) == Failure(BadTimestamp(a.dialAnsweredAt))
    ensures env.cal.parseIso(a.dialStartAt).Some? && (a.dialAnsweredAt == "-" || env.cal.parseIso(a.dialAnsweredAt).Some?)
            && env.cal.parseIso(a.dialEndAt).None? ==>
              NewRec(env, a) == Failure(BadTimestamp(a.dialEndAt))
    ensures TimesParse(env, a) && ParseTimeDuration(a.ringingTime).Failure? ==>
              NewRec(env, a) == Failure(ParseTimeDuration(a.ringingTime).error)
    ensures TimesParse(env, a) && ParseTimeDuration(a.ringingTime).Success? && ParseTimeDuration(a.callDuration).Failure? ==>
              NewRec(env, a) == Failure(ParseTimeDuration(a.callDuration).error)
    ensures NewRec(env, a).Failure? && TimesParse(env, a)
            && ParseTimeDuration(a.ringingTime).Success? && ParseTimeDuration(a.callDuration).Success? ==>
              var callFrom, callTo := ParsePhoneNumber(a.callFrom), ParsePhoneNumber(a.callTo);
              CallCharge(env.tables, env.rates, MatchClient(env.configs, a.client),
                         CallFacts(a.client, callFrom, callTo, a.callType,
                                   Classify.ClassifyNumber(env.tables, callTo, a.callType, callFrom)),
                         ParseTimeDuration(a.callDuration).value) == Failure(NewRec(env, a).error)
  {
  }

  /** The `call_charge` argument has no effect on the record built. */
  lemma ChargeArgumentIgnored(env: Env, a: RawCall, given: string)
    ensures NewRec(env, a.(callCharge := given)) == NewRec(env, a)
  {
    assert a.(callCharge := given).(callCharge := "") == a.(callCharge := "");
  }

  /** `hash_key`: the caller, the callee and `str()` of the start time. */
  function RecKey(cal: Calendar, r: Rec): string
  {
    CallHash(r.callFrom, r.callTo, StrDateTime(cal, r.dialStartAt))
  }

  /** A call record; the attributes the ingests overwrite are variables, the others constants. */
  class CallDetail {
    const env: Env
    const client: string
    const sequenceId: string
    var userName: string
    const callFrom: Phone
    const callTo: Phone
    var callType: string
    const dialStartAt: DateTime
    var dialAnsweredAt: Stamp
    var dialEndAt: Stamp
    var ringingTime: Span
    var callDuration: Span
    var callMemo: string
    var callCharge: Charge
    const carrier: string
    const numberType: Option<string>
    /** `_matched_client`: absent until `matched_client` is first read. */
    var matchedCache: Option<Option<Files>>

    /** The cache, once filled, holds the entry the lookup would find. */
    ghost predicate Valid()
      reads this
    {
      matchedCache.Some? ==> matchedCache.value == MatchClient(env.configs, client)
    }

    function Value(): (r: Rec)
      reads this
      ensures r.client == client && r.sequenceId == sequenceId && r.userName == userName
    {
      Rec(client, sequenceId, userName, callFrom, callTo, callType, dialStartAt, dialAnsweredAt, dialEndAt,
          ringingTime, callDuration, callMemo, carrier, numberType, callCharge)
    }

    /** Builds the object holding `r`; the charge computation has already read `matched_client`. */
    constructor (env: Env, r: Rec)
      ensures this.env == env && Value() == r
      ensures matchedCache == Some(MatchClient(env.configs, r.client))
      ensures Valid()
    {
      this.env := env;
      client := r.client;
      sequenceId := r.sequenceId;
      userName := r.userName;
      callFrom := r.callFrom;
      callTo := r.callTo;
      callType := r.callType;
      dialStartAt := r.dialStartAt;
      dialAnsweredAt := r.dialAnsweredAt;
      dialEndAt := r.dialEndAt;
      ringingTime := r.ringingTime;
      callDuration := r.callDuration;
      callMemo := r.callMemo;
      carrier := r.carrier;
      numberType := r.numberType;
      callCharge := r.callCharge;
      matchedCache := Some(MatchClient(env.configs, r.client));
    }

    /** `CallDetail(...)`: a fresh record, or the exception the arguments raise. */
    static method Create(env: Env, a: RawCall) returns (res: Result<CallDetail, Error>)
      ensures res.Failure? <==> NewRec(env, a).Failure?
      ensures res.Failure? ==> res.error == NewRec(env, a).error
      ensures res.Success? ==> fresh(res.value) && res.value.env == env && res.value.Valid()
      ensures res.Success? ==> res.value.Value() == NewRec(env, a).value
    {
      match NewRec(env, a)
      case Failure(e) =>
        res := Failure(e);
      case Success(r) =>
        var d := new CallDetail(env, r);
        res := Success(d);
    }

    /** `matched_client`: looked up on first use, then served from the cache. */
    method MatchedClient() returns (m: Option<Files>)
      requires Valid()
      modifies this
      ensures m == MatchClient(env.configs, client)
      ensures matchedCache == Some(m) && Valid()
      ensures Value() == old(Value())
    {
      if matchedCache.None? {
        matchedCache := Some(MatchClient(env.configs, client));
      }
      m := matchedCache.value;
    }

    /** `is_enduser`. */
    method IsEnduser() returns (b: bool)
      requires Valid()
      modifies this
      ensures b == Charges.IsEnduser(MatchClient(env.configs, client))
      ensures Valid() && Value() == old(Value())
    {
      var m := MatchedClient();
      b := m.Some? && Contains(Lower(m.value.client), "enduser");
    }

    /** `hash_key`. */
    function HashKey(): (key: string)
      reads this
      ensures key == RecKey(env.cal, Value())
      ensures forall i :: 0 <= i < |key| ==> key[i] != ' '
    {
      CallHash(callFrom, callTo, StrDateTime(env.cal, dialStartAt))
    }
  }
}
