/**
 * The billing rules of src/CallDetail.py: the per-minute and per-second
 * arithmetic, the lookup of the client's configuration entry, and the
 * first-match cascade of `calculate_call_charge`.
 *
 * The cascade is split in two: `Decide` says which rule bills the call and
 * how (mode and rate), `CallCharge` applies that to the duration.  A rate
 * of None reaching the multiplication is the source's TypeError.
 */
module Charges {
  import opened Wrappers
  import opened Text
  import opened Utils
  import opened FileConfig
  import Classify

  /** A charge: a number (its `str()` rendering is not modelled) or the literal text "0". */
  datatype Charge = Amount(value: real) | Literal(text: string)

  datatype Mode = PerMinute | PerSecond

  /** The branch of the cascade that billed the call, in the order they are tried. */
  datatype Rule =
    | ZeroAllowlist | InternalCall | Premium | International | S2c
    | Number1 | Number2 | General | GeneralFallback | Excluded

  /** How a rule bills: the literal "0", or a mode and a rate that may still be None. */
  datatype Billing = LiteralZero | Rated(mode: Mode, rate: Option<real>)

  datatype Decision = Decided(rule: Rule, billing: Billing) | Crash(error: Error)

  /** INTERNATIONAL_RATES: carrier name to its (destination, rate) entries in table order. */
  type RateTables = map<string, seq<(string, real)>>

  /** What `calculate_call_charge` reads of the record besides the duration. */
  datatype CallFacts = CallFacts(client: string, callFrom: Phone, callTo: Phone, callType: string, numberType: Option<string>)

  const ZeroChargeCallers: set<string> :=
    {"2150913403", "85161662298", "85157455618", "82248400487", "2150913400", "2131141271"}
  const ZeroChargeClient: string := "siemens-id"
  const PremiumTypes: seq<string> := ["premium call", "toll-free", "split charge"]
  const DefaultChargeableTypes: seq<string> := ["outbound call", "predictive dialer"]
  const S2cAnsweredTypes: seq<string> := ["incoming call", "answering machine"]
  const PremiumRate: real := 1700.0
  const EnduserSurcharge: real := 200.0
  const FallbackRate: real := 720.0
  const DefaultCarrier: string := "Atlasat"

  // ---------------------------------------------------------------------------
  // Charge primitives
  // ---------------------------------------------------------------------------

  /** `math.ceil(seconds / 60)`: the fewest whole minutes covering the call. */
  function CeilMinutes(secs: int): (m: int)
    ensures (m - 1) * 60 < secs <= m * 60
  {
    -((-secs) / 60)
  }

  /** `calculate_per_minute_charge`: every started minute is billed in full. */
  function PerMinuteCharge(secs: int, rate: real): (c: real)
    ensures secs >= 0 && rate >= 0.0 ==> c >= 0.0
  {
    CeilMinutes(secs) as real * rate
  }

  /** `calculate_per_second_charge`. */
  function PerSecondCharge(secs: int, rate: real): (c: real)
    ensures secs >= 0 && rate >= 0.0 ==> c >= 0.0
  {
    secs as real * rate
  }

  /** 150 seconds are billed as three minutes. */
  lemma PerMinuteChargeExample(rate: real)
    ensures PerMinuteCharge(150, rate) == 3.0 * rate
  {
    assert CeilMinutes(150) == 3;
  }

  /**
   * The per-minute charge never undercuts the per-second charge at a
   * sixtieth of the rate, and exceeds it by less than one minute's rate.
   */
  lemma PerMinuteChargeRoundsUp(secs: int, rate: real)
    requires rate > 0.0
    ensures secs as real * rate <= 60.0 * PerMinuteCharge(secs, rate)
    ensures 60.0 * PerMinuteCharge(secs, rate) < secs as real * rate + 60.0 * rate
  {
    var m := CeilMinutes(secs);
    var slack := (60 * m - secs) as real;
    assert 0.0 <= slack < 60.0;
    assert 60.0 * PerMinuteCharge(secs, rate) == secs as real * rate + slack * rate;
    assert slack * rate < 60.0 * rate;
  }

  // ---------------------------------------------------------------------------
  // The configuration entry of the record's client
  // ---------------------------------------------------------------------------

  /** `matched_client`: the first configuration entry whose client is the record's client. */
  function MatchClient(configs: seq<Files>, client: string): (r: Option<Files>)
    ensures r.Some? ==> r.value in configs && r.value.client == client
    ensures r.None? <==> forall f :: f in configs ==> f.client != client
  {
    if |configs| == 0 then None
    else if configs[0].client == client then Some(configs[0])
    else MatchClient(configs[1..], client)
  }

  /** When several entries name the client, the earliest one is used. */
  lemma {:induction false} MatchClientFirst(configs: seq<Files>, client: string, i: nat)
    requires i < |configs| && configs[i].client == client
    requires forall j :: 0 <= j < i ==> configs[j].client != client
    ensures MatchClient(configs, client) == Some(configs[i])
  {
    if i > 0 {
      MatchClientFirst(configs[1..], client, i - 1);
    }
  }

  /** `is_enduser`: a matched client whose name contains "enduser" in any letter case. */
  predicate IsEnduser(config: Option<Files>)
  {
    config.Some? && Contains(Lower(config.value.client), "enduser")
  }

  function Surcharge(enduser: bool): real
  {
    if enduser then EnduserSurcharge else 0.0
  }

  // ---------------------------------------------------------------------------
  // The cascade
  // ---------------------------------------------------------------------------

  /** `str(phone or "").strip()`: the integer 0 is falsy and gives "". */
  function PhoneKey(p: Phone): string
  {
    if p == PInt(0) then "" else Strip(PhoneText(p))
  }

  /** `number_type.lower()` when the classification is a non-empty text, "" otherwise. */
  function NumberTypeKey(numberType: Option<string>): string
  {
    if numberType.Some? && numberType.value != "" then Lower(numberType.value) else ""
  }

  /** The client's call-type list lower-cased, or the default pair when it is empty. */
  function ChargeableTypes(cfg: Files): (ts: seq<string>)
    ensures cfg.chargeableCallTypes == [] ==> ts == DefaultChargeableTypes
    ensures cfg.chargeableCallTypes != [] ==> ts == LowerAll(cfg.chargeableCallTypes)
  {
    if cfg.chargeableCallTypes != [] then LowerAll(cfg.chargeableCallTypes) else DefaultChargeableTypes
  }

  /** The two recognised rate types; any other text selects no mode. */
  function RateMode(rateType: Option<string>): (m: Option<Mode>)
    ensures m == Some(PerMinute) <==> rateType == Some("per_minute")
    ensures m == Some(PerSecond) <==> rateType == Some("per_second")
  {
    match rateType
    case Some("per_minute") => Some(PerMinute)
    case Some("per_second") => Some(PerSecond)
    case _ => None
  }

  /** The rate table of `carrier.title()`, or the Atlasat table when there is none. */
  function CarrierRates(rates: RateTables, carrier: string): seq<(string, real)>
    requires DefaultCarrier in rates
  {
    if Title(carrier) in rates then rates[Title(carrier)] else rates[DefaultCarrier]
  }

  /** A rate key matches when either lower-cased text contains the other. */
  predicate KeyMatches(key: string, numberType: string)
  {
    Contains(numberType, Lower(key)) || Contains(Lower(key), numberType)
  }

  /** Index of the first rate entry at or after `from` whose key matches. */
  function FirstRateFrom(rateMap: seq<(string, real)>, numberType: string, from: nat): (r: Option<nat>)
    requires from <= |rateMap|
    ensures r.Some? ==> from <= r.value < |rateMap| && KeyMatches(rateMap[r.value].0, numberType)
    ensures r.Some? ==> forall j :: from <= j < r.value ==> !KeyMatches(rateMap[j].0, numberType)
    ensures r.None? ==> forall j :: from <= j < |rateMap| ==> !KeyMatches(rateMap[j].0, numberType)
    decreases |rateMap| - from
  {
    if from == |rateMap| then None
    else if KeyMatches(rateMap[from].0, numberType) then Some(from)
    else FirstRateFrom(rateMap, numberType, from + 1)
  }

  /** Whether the S2C setting lists the number; an unset single number lists nothing. */
  predicate S2cListed(s: S2cSetting, target: string)
  {
    match s
    case S2cSingle(None) => false
    case S2cSingle(Some(n)) => n == target
    case S2cList(ns) => target in ns
  }

  /** The S2C branch: None when it does not bill the call and the cascade goes on. */
  function S2cRule(cfg: Files, callTo: string, callFrom: string, callType: string, numberType: string): (b: Option<Billing>)
    ensures b.Some? ==> RateMode(cfg.s2cRateType).Some? && b.value == Rated(RateMode(cfg.s2cRateType).value, cfg.s2cRate)
    ensures b.Some? <==>
              (S2cListed(cfg.s2c, if callTo != "" then callTo else callFrom) || numberType == "scancall")
              && (callType in S2cAnsweredTypes || callType in ChargeableTypes(cfg))
              && RateMode(cfg.s2cRateType).Some?
  {
    var target := if callTo != "" then callTo else callFrom;
    if !(S2cListed(cfg.s2c, target) || numberType == "scancall") then None
    else if callType in S2cAnsweredTypes || callType in ChargeableTypes(cfg) then
      match RateMode(cfg.s2cRateType)
      case Some(m) => Some(Rated(m, cfg.s2cRate))
      case None => None
    else None
  }

  /** `_handle_number_charge` with the caller's `or 0` / `or "per_minute"` defaults applied. */
  function NumberRule(number: Option<string>, types: seq<string>, rate: Option<real>, rateType: Option<string>,
                      callType: string, callTo: string, callFrom: string): (b: Option<Billing>)
    ensures b.Some? <==>
              callType in LowerAll(types) && number.Some? && (callTo == number.value || callFrom == number.value)
              && (rateType.None? || rateType.value in {"", "per_minute", "per_second"})
    ensures b.Some? ==> b.value.Rated? && b.value.rate.Some? && b.value.rate.value != 0.0
    ensures b.Some? ==> b.value.mode == if rateType == Some("per_second") then PerSecond else PerMinute
    ensures b.Some? && (rate.None? || rate == Some(0.0)) ==> b.value.rate == Some(FallbackRate)
    ensures b.Some? && rate.Some? && rate != Some(0.0) ==> b.value.rate == rate
  {
    var r := if rate.None? || rate.value == 0.0 then FallbackRate else rate.value;
    var rt := if rateType.None? || rateType.value == "" then "per_minute" else rateType.value;
    if callType in LowerAll(types) && number.Some? && (callTo == number.value || callFrom == number.value) then
      match RateMode(Some(rt))
      case Some(m) => Some(Rated(m, Some(r)))
      case None => None
    else None
  }

  /** The general branch and the two after it; they always decide. */
  function GeneralRule(cfg: Files, callType: string): Decision
  {
    var allowed := LowerAll(cfg.chargeableCallTypes);
    var general := if allowed == [] || callType in allowed then RateMode(cfg.rateType) else None;
    if general.Some? then Decided(General, Rated(general.value, cfg.rate))
    else if callType in ChargeableTypes(cfg) then
      var rate := if cfg.rate.None? then FallbackRate else cfg.rate.value;
      Decided(GeneralFallback, Rated(if cfg.rateType == Some("per_second") then PerSecond else PerMinute, Some(rate)))
    else Decided(Excluded, Rated(PerMinute, Some(0.0)))
  }

  /**
   * `calculate_call_charge` up to the multiplication, given the matched
   * configuration entry, the classifier's tables and the rate tables.
   */
  function Decide(t: Classify.Tables, rates: RateTables, config: Option<Files>, c: CallFacts): (d: Decision)
    ensures config.None? <==> d == Crash(MissingConfig)
    ensures d.Crash? ==> d.error == MissingConfig || (d.error == MissingCarrierTable && DefaultCarrier !in rates)
    ensures d.Decided? && d.billing.LiteralZero? ==> d.rule == ZeroAllowlist && config.value.client == ZeroChargeClient
    ensures d.Decided? && d.billing.Rated? && d.billing.rate.None? ==> d.rule == S2c || d.rule == General
  {
    var callTo := PhoneKey(c.callTo);
    var callFrom := PhoneKey(c.callFrom);
    var callType := Lower(Strip(c.callType));
    var numberType := NumberTypeKey(c.numberType);
    // line 82 reads the call-type list of the entry before the None check, so
    // an unmatched client raises there and the 720 default is never reached
    if config.None? then Crash(MissingConfig)
    else
      var cfg := config.value;
      var enduser := IsEnduser(config);
      if callFrom in ZeroChargeCallers && cfg.client == ZeroChargeClient then Decided(ZeroAllowlist, LiteralZero)
      else if numberType == "internal call" then Decided(InternalCall, Rated(PerMinute, Some(0.0)))
      else if numberType in PremiumTypes || numberType in t.emergency.Values then
        Decided(Premium, Rated(PerMinute, Some(PremiumRate + Surcharge(enduser))))
      // the fallback table is looked up even when the carrier has its own
      else if DefaultCarrier !in rates then Crash(MissingCarrierTable)
      else
        var rateMap := CarrierRates(rates, cfg.carrier);
        var matched := FirstRateFrom(rateMap, numberType, 0);
        // an empty key is falsy and falls through
        if matched.Some? && rateMap[matched.value].0 != "" then
          Decided(International, Rated(PerMinute, Some(rateMap[matched.value].1 + Surcharge(enduser))))
        else
          var s2c := S2cRule(cfg, callTo, callFrom, callType, numberType);
          var n1 := NumberRule(cfg.number1, cfg.number1ChargeableCallTypes, cfg.number1Rate, cfg.number1RateType,
                               callType, callTo, callFrom);
          var n2 := NumberRule(cfg.number2, cfg.number2ChargeableCallTypes, cfg.number2Rate, cfg.number2RateType,
                               callType, callTo, callFrom);
          if s2c.Some? then Decided(S2c, s2c.value)
          else if n1.Some? then Decided(Number1, n1.value)
          else if n2.Some? then Decided(Number2, n2.value)
          else GeneralRule(cfg, callType)
  }

  /** Applies a billing to the duration in seconds; a None rate is the multiplication's TypeError. */
  function ApplyBilling(b: Billing, secs: int): (r: Result<Charge, Error>)
    ensures b.LiteralZero? ==> r == Success(Literal("0"))
    ensures b.Rated? ==> (r.Failure? <==> b.rate.None?)
    ensures r.Failure? ==> r.error == MissingRate
    ensures b.Rated? && r.Success? ==> r.value.Amount?
    ensures secs >= 0 && b.Rated? && b.rate.Some? && b.rate.value >= 0.0 ==> r.value.Amount? && r.value.value >= 0.0
  {
    match b
    case LiteralZero => Success(Literal("0"))
    case Rated(_, None) => Failure(MissingRate)
    case Rated(PerMinute, Some(rate)) => Success(Amount(PerMinuteCharge(secs, rate)))
    case Rated(PerSecond, Some(rate)) => Success(Amount(PerSecondCharge(secs, rate)))
  }

  /** `calculate_call_charge` for a call of `secs` seconds. */
  function CallCharge(t: Classify.Tables, rates: RateTables, config: Option<Files>, c: CallFacts, secs: int)
    : (r: Result<Charge, Error>)
    ensures config.None? ==> r == Failure(MissingConfig)
    ensures config.Some? && Allowlisted(config.value, c) ==> r == Success(Literal("0"))
    ensures r.Success? && r.value.Literal? ==> r.value == Literal("0") && config.value.client == ZeroChargeClient
    ensures r.Failure? ==>
              || r.error == MissingConfig
              || (r.error == MissingCarrierTable && DefaultCarrier !in rates)
              || (r.error == MissingRate && Decide(t, rates, config, c).Decided?
                  && Decide(t, rates, config, c).rule in {S2c, General})
  {
    match Decide(t, rates, config, c)
    case Crash(e) => Failure(e)
    case Decided(_, b) => ApplyBilling(b, secs)
  }

  // ---------------------------------------------------------------------------
  // Properties of the cascade
  // ---------------------------------------------------------------------------

  /** The caller is one of the free numbers and the entry is the client they are free for. */
  predicate Allowlisted(cfg: Files, c: CallFacts)
  {
    PhoneKey(c.callFrom) in ZeroChargeCallers && cfg.client == ZeroChargeClient
  }

  /** An unknown client always raises; no charge is ever produced for it. */
  lemma UnknownClientRaises(t: Classify.Tables, rates: RateTables, configs: seq<Files>, c: CallFacts, secs: int)
    requires forall f :: f in configs ==> f.client != c.client
    ensures CallCharge(t, rates, MatchClient(configs, c.client), c, secs) == Failure(MissingConfig)
  {
  }

  /** A listed caller of the allowlisted client is billed the literal `0` before any other rule. */
  lemma AllowlistedCallerIsFree(t: Classify.Tables, rates: RateTables, cfg: Files, c: CallFacts, secs: int)
    requires Allowlisted(cfg, c)
    ensures Decide(t, rates, Some(cfg), c) == Decided(ZeroAllowlist, LiteralZero)
    ensures CallCharge(t, rates, Some(cfg), c, secs) == Success(Literal("0"))
  {
  }

  /** Internal calls cost nothing, whatever the client's overrides say. */
  lemma InternalCallIsFree(t: Classify.Tables, rates: RateTables, cfg: Files, c: CallFacts, secs: int)
    requires !Allowlisted(cfg, c)
    requires NumberTypeKey(c.numberType) == "internal call"
    ensures CallCharge(t, rates, Some(cfg), c, secs) == Success(Amount(0.0))
  {
  }

  /**
   * Premium, toll-free, split-charge and emergency categories are billed at
   * 1700 per minute (1900 for an end-user client) before any override; only
   * the allowlist and the internal-call rule come earlier.
   */
  lemma PremiumBeatsOverrides(t: Classify.Tables, rates: RateTables, cfg: Files, c: CallFacts)
    requires !Allowlisted(cfg, c) && NumberTypeKey(c.numberType) != "internal call"
    requires NumberTypeKey(c.numberType) in PremiumTypes || NumberTypeKey(c.numberType) in t.emergency.Values
    ensures Decide(t, rates, Some(cfg), c) == Decided(Premium, Rated(PerMinute, Some(PremiumRate + Surcharge(IsEnduser(Some(cfg))))))
  {
  }

  /**
   * The emergency categories are compared as stored in the table, against a
   * lower-cased category: a category with a capital letter never reaches the
   * premium rate through the emergency test.
   */
  lemma CapitalisedEmergencyCategoryMissed(t: Classify.Tables, rates: RateTables, cfg: Files, c: CallFacts)
    requires c.numberType == Some("Police")
    requires t.emergency.Values == {"Police"}
    ensures Decide(t, rates, Some(cfg), c) != Decided(Premium, Rated(PerMinute, Some(PremiumRate + Surcharge(IsEnduser(Some(cfg))))))
  {
    assert NumberTypeKey(c.numberType) == "police";
  }

  /** Moving a client to an end-user name adds exactly 200 to the premium and international rates. */
  lemma EnduserPaysSurcharge(t: Classify.Tables, rates: RateTables, cfg: Files, enduserName: string, c: CallFacts)
    requires cfg.client != ZeroChargeClient && enduserName != ZeroChargeClient
    requires !Contains(Lower(cfg.client), "enduser") && Contains(Lower(enduserName), "enduser")
    requires Decide(t, rates, Some(cfg), c).Decided?
    requires Decide(t, rates, Some(cfg), c).rule == Premium || Decide(t, rates, Some(cfg), c).rule == International
    ensures var d := Decide(t, rates, Some(cfg), c);
            var e := Decide(t, rates, Some(cfg.(client := enduserName)), c);
            e.Decided? && e.rule == d.rule && e.billing.Rated? && d.billing.Rated?
            && e.billing.mode == d.billing.mode == PerMinute
            && e.billing.rate == Some(d.billing.rate.value + EnduserSurcharge)
  {
    var cfg2 := cfg.(client := enduserName);
    var numberType := NumberTypeKey(c.numberType);
    assert !IsEnduser(Some(cfg)) && IsEnduser(Some(cfg2));
    assert !Allowlisted(cfg, c) && !Allowlisted(cfg2, c);
    if numberType in PremiumTypes || numberType in t.emergency.Values {
      assert Decide(t, rates, Some(cfg), c) == Decided(Premium, Rated(PerMinute, Some(PremiumRate + 0.0)));
      assert Decide(t, rates, Some(cfg2), c) == Decided(Premium, Rated(PerMinute, Some(PremiumRate + EnduserSurcharge)));
    } else {
      var rateMap := CarrierRates(rates, cfg.carrier);
      var matched := FirstRateFrom(rateMap, numberType, 0);
      assert matched.Some? && rateMap[matched.value].0 != "";
      assert Decide(t, rates, Some(cfg), c) == Decided(International, Rated(PerMinute, Some(rateMap[matched.value].1 + 0.0)));
      assert Decide(t, rates, Some(cfg2), c)
          == Decided(International, Rated(PerMinute, Some(rateMap[matched.value].1 + EnduserSurcharge)));
    }
  }

  /**
   * A call with no category: the empty text is contained in every key, so
   * the first entry of the carrier's rate table bills it (when its key is
   * not itself empty).
   */
  lemma UnclassifiedCallBilledAtFirstRate(t: Classify.Tables, rates: RateTables, cfg: Files, c: CallFacts)
    requires !Allowlisted(cfg, c)
    requires NumberTypeKey(c.numberType) == "" && "" !in t.emergency.Values
    requires DefaultCarrier in rates
    requires |CarrierRates(rates, cfg.carrier)| > 0 && CarrierRates(rates, cfg.carrier)[0].0 != ""
    ensures Decide(t, rates, Some(cfg), c)
         == Decided(International, Rated(PerMinute, Some(CarrierRates(rates, cfg.carrier)[0].1 + Surcharge(IsEnduser(Some(cfg))))))
  {
    var rateMap := CarrierRates(rates, cfg.carrier);
    assert StartsWith(Lower(rateMap[0].0), "");
    assert KeyMatches(rateMap[0].0, "");
    assert FirstRateFrom(rateMap, "", 0) == Some(0);
  }

  /**
   * A number type past the premium check is billed per minute at the rate of
   * the first key in the carrier's table (Atlasat's when the carrier has
   * none) that matches it, plus the end-user surcharge, unless that key is empty.
   */
  lemma FirstMatchingRateKeyBills(t: Classify.Tables, rates: RateTables, cfg: Files, c: CallFacts, i: nat)
    requires !Allowlisted(cfg, c)
    requires NumberTypeKey(c.numberType) != "internal call"
    requires NumberTypeKey(c.numberType) !in PremiumTypes && NumberTypeKey(c.numberType) !in t.emergency.Values
    requires DefaultCarrier in rates
    requires i < |CarrierRates(rates, cfg.carrier)| && CarrierRates(rates, cfg.carrier)[i].0 != ""
    requires KeyMatches(CarrierRates(rates, cfg.carrier)[i].0, NumberTypeKey(c.numberType))
    requires forall j :: 0 <= j < i ==> !KeyMatches(CarrierRates(rates, cfg.carrier)[j].0, NumberTypeKey(c.numberType))
    ensures Decide(t, rates, Some(cfg), c)
         == Decided(International, Rated(PerMinute, Some(CarrierRates(rates, cfg.carrier)[i].1 + Surcharge(IsEnduser(Some(cfg))))))
  {
    var rateMap := CarrierRates(rates, cfg.carrier);
    assert FirstRateFrom(rateMap, NumberTypeKey(c.numberType), 0) == Some(i);
  }

  /** The S2C rule applied to a call's normalised facts. */
  function S2cFor(cfg: Files, c: CallFacts): Option<Billing>
  {
    S2cRule(cfg, PhoneKey(c.callTo), PhoneKey(c.callFrom), Lower(Strip(c.callType)), NumberTypeKey(c.numberType))
  }

  /** The number1 rule applied to a call's normalised facts. */
  function Number1For(cfg: Files, c: CallFacts): Option<Billing>
  {
    NumberRule(cfg.number1, cfg.number1ChargeableCallTypes, cfg.number1Rate, cfg.number1RateType,
               Lower(Strip(c.callType)), PhoneKey(c.callTo), PhoneKey(c.callFrom))
  }

  /** The number2 rule applied to a call's normalised facts. */
  function Number2For(cfg: Files, c: CallFacts): Option<Billing>
  {
    NumberRule(cfg.number2, cfg.number2ChargeableCallTypes, cfg.number2Rate, cfg.number2RateType,
               Lower(Strip(c.callType)), PhoneKey(c.callTo), PhoneKey(c.callFrom))
  }

  /**
   * A call that gets past the international rule: not allowlisted, not an
   * internal call, not premium or emergency, the `Atlasat` table present,
   * and no non-empty rate key matching its category.
   */
  predicate PastInternational(t: Classify.Tables, rates: RateTables, cfg: Files, c: CallFacts)
  {
    && !Allowlisted(cfg, c)
    && NumberTypeKey(c.numberType) != "internal call"
    && NumberTypeKey(c.numberType) !in PremiumTypes && NumberTypeKey(c.numberType) !in t.emergency.Values
    && DefaultCarrier in rates
    && var m := FirstRateFrom(CarrierRates(rates, cfg.carrier), NumberTypeKey(c.numberType), 0);
       !(m.Some? && CarrierRates(rates, cfg.carrier)[m.value].0 != "")
  }

  /**
   * Past the international rule the cascade tries S2C, then number1, then
   * number2, and the first that applies bills the call; when none applies
   * the general rules decide.
   */
  lemma CascadeAfterInternational(t: Classify.Tables, rates: RateTables, cfg: Files, c: CallFacts)
    requires PastInternational(t, rates, cfg, c)
    ensures S2cFor(cfg, c).Some? ==> Decide(t, rates, Some(cfg), c) == Decided(S2c, S2cFor(cfg, c).value)
    ensures S2cFor(cfg, c).None? && Number1For(cfg, c).Some? ==>
              Decide(t, rates, Some(cfg), c) == Decided(Number1, Number1For(cfg, c).value)
    ensures S2cFor(cfg, c).None? && Number1For(cfg, c).None? && Number2For(cfg, c).Some? ==>
              Decide(t, rates, Some(cfg), c) == Decided(Number2, Number2For(cfg, c).value)
    ensures S2cFor(cfg, c).None? && Number1For(cfg, c).None? && Number2For(cfg, c).None? ==>
              Decide(t, rates, Some(cfg), c) == GeneralRule(cfg, Lower(Strip(c.callType)))
  {
  }

  /** An S2C call billed per second at 500 costs 5000 for ten seconds. */
  lemma S2cPerSecondCharge(t: Classify.Tables, rates: RateTables, cfg: Files, c: CallFacts)
    requires PastInternational(t, rates, cfg, c) && S2cFor(cfg, c).Some?
    requires cfg.s2cRateType == Some("per_second") && cfg.s2cRate == Some(500.0)
    ensures CallCharge(t, rates, Some(cfg), c, 10) == Success(Amount(5000.0))
  {
    CascadeAfterInternational(t, rates, cfg, c);
  }

  /** S2C is tried before both numbers: a number1 or number2 decision means S2C did not apply. */
  lemma S2cBeforeNumbers(t: Classify.Tables, rates: RateTables, cfg: Files, c: CallFacts)
    requires Decide(t, rates, Some(cfg), c).Decided?
    requires Decide(t, rates, Some(cfg), c).rule == Number1 || Decide(t, rates, Some(cfg), c).rule == Number2
    ensures S2cRule(cfg, PhoneKey(c.callTo), PhoneKey(c.callFrom), Lower(Strip(c.callType)), NumberTypeKey(c.numberType)).None?
  {
  }

  /**
   * With no chargeable call types configured, every call that reaches the
   * general branch is billed at the configured rate and rate type.
   */
  lemma EmptyTypeListBillsGeneral(t: Classify.Tables, rates: RateTables, cfg: Files, c: CallFacts)
    requires cfg.chargeableCallTypes == [] && RateMode(cfg.rateType).Some?
    requires Decide(t, rates, Some(cfg), c).Decided?
    requires Decide(t, rates, Some(cfg), c).rule in {General, GeneralFallback, Excluded}
    ensures Decide(t, rates, Some(cfg), c) == Decided(General, Rated(RateMode(cfg.rateType).value, cfg.rate))
  {
  }

  /** number1 is tried first: number2 bills a call only when number1 does not apply to it. */
  lemma Number1BeforeNumber2(t: Classify.Tables, rates: RateTables, cfg: Files, c: CallFacts)
    requires Decide(t, rates, Some(cfg), c).Decided? && Decide(t, rates, Some(cfg), c).rule == Number2
    ensures NumberRule(cfg.number1, cfg.number1ChargeableCallTypes, cfg.number1Rate, cfg.number1RateType,
                       Lower(Strip(c.callType)), PhoneKey(c.callTo), PhoneKey(c.callFrom)).None?
    ensures NumberRule(cfg.number2, cfg.number2ChargeableCallTypes, cfg.number2Rate, cfg.number2RateType,
                       Lower(Strip(c.callType)), PhoneKey(c.callTo), PhoneKey(c.callFrom)).Some?
  {
  }

  /**
   * The 720 default of the last general branch applies only when the rate
   * type is neither recognised text, and then always per minute.
   */
  lemma GeneralFallbackOnlyForUnknownRateType(t: Classify.Tables, rates: RateTables, cfg: Files, c: CallFacts)
    requires Decide(t, rates, Some(cfg), c).Decided? && Decide(t, rates, Some(cfg), c).rule == GeneralFallback
    ensures RateMode(cfg.rateType).None?
    ensures Decide(t, rates, Some(cfg), c).billing
         == Rated(PerMinute, Some(if cfg.rate.None? then FallbackRate else cfg.rate.value))
  {
  }

  /**
   * An excluded call costs 0.  Its type is outside the chargeable list; with
   * an empty client list that happens only when the rate type is unknown.
   */
  lemma ExcludedCallsCostNothing(t: Classify.Tables, rates: RateTables, cfg: Files, c: CallFacts, secs: int)
    requires Decide(t, rates, Some(cfg), c).Decided? && Decide(t, rates, Some(cfg), c).rule == Excluded
    ensures Lower(Strip(c.callType)) !in ChargeableTypes(cfg)
    ensures cfg.chargeableCallTypes == [] ==> RateMode(cfg.rateType).None?
    ensures CallCharge(t, rates, Some(cfg), c, secs) == Success(Amount(0.0))
  {
    if cfg.chargeableCallTypes == [] {
      assert LowerAll(cfg.chargeableCallTypes) == [];
    }
  }

  /**
   * A client configured with nothing but the required fields raises on
   * every call that no fixed-rate rule bills: its rates are all None.
   */
  lemma DefaultEntryLacksRate(t: Classify.Tables, rates: RateTables, client: string, dashboard: string, console: string,
                              output: string, c: CallFacts, secs: int)
    requires var d := Decide(t, rates, Some(NewFiles(client, dashboard, console, output)), c);
             d.Decided? && d.rule !in {ZeroAllowlist, InternalCall, Premium, International}
    ensures CallCharge(t, rates, Some(NewFiles(client, dashboard, console, output)), c, secs) == Failure(MissingRate)
  {
  }
}
