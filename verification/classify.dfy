/**
 * `classify_number` of src/utils.py: an ordered first-match cascade over
 * the call-type labels, the scancall caller, transfers from an extension,
 * the emergency table, the configured prefixes (longest first), a fixed
 * list of special prefixes and the international prefixes (table order).
 *
 * The three tables come from a module that is not part of this model; they
 * are given as values, dictionaries as sequences of pairs in their
 * iteration order.
 */
module Classify {
  import opened Wrappers
  import opened Text
  import opened Utils

  datatype Tables = Tables(
    emergency: map<Phone, string>,          // EMERGENCY_NUMBERS: number -> category
    prefixes: seq<(int, string)>,           // PHONE_PREFIXES: integer prefix -> category
    international: seq<(string, string)>)   // INTERNATIONAL_PHONE_PREFIXES: "+65" -> country

  /** The hard-coded fallback prefixes, tried in this order. */
  const SpecialPrefixes: seq<int> := [211500, 211400, 21150, 21140, 1500, 1400, 800, 84, 31, 21, 8]

  /** `str(prefix)` of each special prefix. */
  function SpecialTexts(): (ts: seq<string>)
    ensures |ts| == |SpecialPrefixes| && forall i :: 0 <= i < |ts| ==> ts[i] == IntToString(SpecialPrefixes[i])
  {
    seq(|SpecialPrefixes|, i requires 0 <= i < |SpecialPrefixes| => IntToString(SpecialPrefixes[i]))
  }

  function Keys(entries: seq<(int, string)>): (ks: seq<int>)
    ensures |ks| == |entries| && forall i :: 0 <= i < |ks| ==> ks[i] == entries[i].0
  {
    seq(|entries|, i requires 0 <= i < |entries| => entries[i].0)
  }

  /** `dict.get(key)`: the category of the first entry with that key. */
  function Lookup(entries: seq<(int, string)>, key: int): (r: Option<string>)
    ensures r.Some? ==> key in Keys(entries)
  {
    if |entries| == 0 then None
    else if entries[0].0 == key then Some(entries[0].1)
    else Lookup(entries[1..], key)
  }

  /** `map(str, PHONE_PREFIXES.keys())`. */
  function KeyTexts(entries: seq<(int, string)>): (ts: seq<string>)
    ensures |ts| == |entries| && forall i :: 0 <= i < |ts| ==> ts[i] == IntToString(entries[i].0)
  {
    seq(|entries|, i requires 0 <= i < |entries| => IntToString(entries[i].0))
  }

  predicate LongestFirst(ps: seq<string>)
  {
    forall i, j :: 0 <= i < j < |ps| ==> |ps[i]| >= |ps[j]|
  }

  /**
   * Put `p` before the first text that is no longer than it. `p` comes
   * before every text of its own length; since the sort inserts each head
   * into the sorted tail, equal lengths keep their list order.
   */
  function InsertByLength(p: string, sorted: seq<string>): (r: seq<string>)
    ensures |r| == |sorted| + 1
    ensures forall x :: x in r <==> x == p || x in sorted
    ensures multiset(r) == multiset(sorted) + multiset{p}
  {
    if |sorted| == 0 then [p]
    else if |p| >= |sorted[0]| then [p] + sorted
    else
      assert sorted == [sorted[0]] + sorted[1..];
      [sorted[0]] + InsertByLength(p, sorted[1..])
  }

  lemma {:induction false} InsertByLengthSorted(p: string, sorted: seq<string>)
    requires LongestFirst(sorted)
    ensures LongestFirst(InsertByLength(p, sorted))
  {
    if |sorted| > 0 && |p| < |sorted[0]| {
      var rest := InsertByLength(p, sorted[1..]);
      InsertByLengthSorted(p, sorted[1..]);
      forall k | 0 <= k < |rest| ensures |rest[k]| <= |sorted[0]| {
        var x := rest[k];
        assert x in rest;
        if x != p {
          var m :| 0 <= m < |sorted[1..]| && sorted[1..][m] == x;
          assert sorted[m + 1] == x;
        }
      }
      ConsLongestFirst(sorted[0], rest);
    }
  }

  /** A text no shorter than every text of a longest-first list can head it. */
  lemma ConsLongestFirst(h: string, rest: seq<string>)
    requires LongestFirst(rest)
    requires forall k :: 0 <= k < |rest| ==> |rest[k]| <= |h|
    ensures LongestFirst([h] + rest)
  {
    var r := [h] + rest;
    forall i, j | 0 <= i < j < |r| ensures |r[i]| >= |r[j]| {
      assert r[j] == rest[j - 1];
      if i > 0 {
        assert r[i] == rest[i - 1];
      }
    }
  }

  /** `sorted(texts, key=len, reverse=True)`: a stable sort, longest text first. */
  function SortByLengthDesc(ps: seq<string>): (r: seq<string>)
    ensures multiset(r) == multiset(ps)
    ensures LongestFirst(r)
  {
    if |ps| == 0 then []
    else
      assert ps == [ps[0]] + ps[1..];
      InsertByLengthSorted(ps[0], SortByLengthDesc(ps[1..]));
      InsertByLength(ps[0], SortByLengthDesc(ps[1..]))
  }

  /** Index of the first text, from `from` on, that starts `text`. */
  function FirstPrefixFrom(ps: seq<string>, text: string, from: nat): (r: Option<nat>)
    requires from <= |ps|
    ensures r.Some? ==> from <= r.value < |ps| && StartsWith(text, ps[r.value])
                        && forall j :: from <= j < r.value ==> !StartsWith(text, ps[j])
    ensures r.None? ==> forall j :: from <= j < |ps| ==> !StartsWith(text, ps[j])
    decreases |ps| - from
  {
    if from == |ps| then None
    else if StartsWith(text, ps[from]) then Some(from)
    else FirstPrefixFrom(ps, text, from + 1)
  }

  /** The first of `texts`, longest first, that starts `text`. */
  function LongestPrefix(texts: seq<string>, text: string): Option<string>
  {
    var sorted := SortByLengthDesc(texts);
    match FirstPrefixFrom(sorted, text, 0)
    case Some(i) => Some(sorted[i])
    case None => None
  }

  /** The longest matching text wins; none matches exactly when the search comes back empty. */
  lemma LongestPrefixWins(texts: seq<string>, text: string)
    ensures match LongestPrefix(texts, text)
            case Some(p) =>
              p in texts && StartsWith(text, p)
              && forall q :: q in texts && StartsWith(text, q) ==> |q| <= |p|
            case None => forall q :: q in texts ==> !StartsWith(text, q)
  {
    var sorted := SortByLengthDesc(texts);
    forall q | q in texts ensures q in sorted {
      assert multiset(sorted)[q] == multiset(texts)[q] > 0;
    }
    match FirstPrefixFrom(sorted, text, 0)
    case Some(i) =>
      assert sorted[i] in multiset(texts);
      forall q | q in texts && StartsWith(text, q) ensures |q| <= |sorted[i]| {
        var j :| 0 <= j < |sorted| && sorted[j] == q;
        assert i <= j;
      }
    case None =>
  }

  /** The configured prefix, longest first, that starts `text`. */
  function PrefixMatch(t: Tables, text: string): Option<string>
  {
    LongestPrefix(KeyTexts(t.prefixes), text)
  }

  /** Every candidate prefix is the text of an integer key, so `int(prefix)` gives that key back. */
  lemma PrefixMatchParses(t: Tables, text: string)
    requires PrefixMatch(t, text).Some?
    ensures ParseInt(PrefixMatch(t, text).value).Some?
    ensures Lookup(t.prefixes, ParseInt(PrefixMatch(t, text).value).value).Some?
  {
    LongestPrefixWins(KeyTexts(t.prefixes), text);
    var texts := KeyTexts(t.prefixes);
    var i :| 0 <= i < |texts| && texts[i] == PrefixMatch(t, text).value;
    ParseIntOfIntToString(t.prefixes[i].0);
    LookupFindsKey(t.prefixes, i);
  }

  lemma {:induction false} LookupFindsKey(entries: seq<(int, string)>, i: nat)
    requires i < |entries|
    ensures Lookup(entries, entries[i].0).Some?
  {
    if entries[0].0 != entries[i].0 {
      LookupFindsKey(entries[1..], i - 1);
    }
  }

  /** Index of the first international prefix (with `+` removed) that starts `text`. */
  function FirstInternationalFrom(table: seq<(string, string)>, text: string, from: nat): (r: Option<nat>)
    requires from <= |table|
    ensures r.Some? ==> from <= r.value < |table| && StartsWith(text, Filter(table[r.value].0, {'+'}))
                        && forall j :: from <= j < r.value ==> !StartsWith(text, Filter(table[j].0, {'+'}))
    ensures r.None? ==> forall j :: from <= j < |table| ==> !StartsWith(text, Filter(table[j].0, {'+'}))
    decreases |table| - from
  {
    if from == |table| then None
    else if StartsWith(text, Filter(table[from].0, {'+'})) then Some(from)
    else FirstInternationalFrom(table, text, from + 1)
  }

  /** The rules decided by the call type and the caller alone, before any table is read. */
  predicate StructuralRule(callType: string, callFrom: Phone)
  {
    callType in ["Internal Call", "EXTENSION", "Internal Call (No answer)", "AUTOMATIC_RECORD",
                 "AUTOMATIC_TRANSFER", "Monitoring"]
    || callFrom == PStr("scancall")
    || (callType == "Call transfer" && |PhoneText(callFrom)| == 3 && IsDecimal(PhoneText(callFrom)))
  }

  /** A number of three to five characters with a non-empty emergency category. */
  predicate EmergencyHit(t: Tables, phone: Phone)
  {
    3 <= |PhoneText(phone)| <= 5 && phone in t.emergency && t.emergency[phone] != ""
  }

  /** Neither a configured key nor a special prefix starts `text`. */
  predicate NoPrefixStarts(t: Tables, text: string)
  {
    && (forall i :: 0 <= i < |t.prefixes| ==> !StartsWith(text, IntToString(t.prefixes[i].0)))
    && (forall j :: 0 <= j < |SpecialPrefixes| ==> !StartsWith(text, IntToString(SpecialPrefixes[j])))
  }

  /**
   * `classify_number(phone_number, call_type, call_from, call_to)`; `call_to` is not read.
   * It comes back without a category only through a special prefix that the prefix table lacks.
   */
  function ClassifyNumber(t: Tables, phone: Phone, callType: string, callFrom: Phone): (r: Option<string>)
    ensures r.None? ==>
              && !EmergencyHit(t, phone)
              && PrefixMatch(t, PhoneText(phone)).None?
              && FirstPrefixFrom(SpecialTexts(), PhoneText(phone), 0).Some?
  {
    var text := PhoneText(phone);
    if callType == "Internal Call" || callType == "EXTENSION" then Some("Internal Call")
    else if callType == "Internal Call (No answer)" then Some("Internal Call (No answer)")
    else if callType == "AUTOMATIC_RECORD" then Some("Voicemail")
    else if callType == "AUTOMATIC_TRANSFER" then Some("Automatic Transfer")
    else if callType == "Monitoring" then Some("Monitoring")
    else if callFrom == PStr("scancall") then Some("scancall")
    else if callType == "Call transfer" && |PhoneText(callFrom)| == 3 && IsDecimal(PhoneText(callFrom)) then Some("Internal Call")
    else if 3 <= |text| <= 5 && phone in t.emergency && t.emergency[phone] != "" then Some(t.emergency[phone])
    else PrefixCascade(t, text)
  }

  /** The table steps of the cascade: configured prefixes, special prefixes, international prefixes. */
  function PrefixCascade(t: Tables, text: string): (r: Option<string>)
    ensures r.None? ==> PrefixMatch(t, text).None? && FirstPrefixFrom(SpecialTexts(), text, 0).Some?
  {
    match PrefixMatch(t, text)
    case Some(p) =>
      PrefixMatchParses(t, text);
      (match ParseInt(p)
       case Some(k) => Lookup(t.prefixes, k)
       case None => None)
    case None =>
      match FirstPrefixFrom(SpecialTexts(), text, 0)
      case Some(i) => Lookup(t.prefixes, SpecialPrefixes[i])
      case None =>
        match FirstInternationalFrom(t.international, text, 0)
        case Some(i) => Some("International - " + t.international[i].1)
        case None => Some("Unknown number type")
  }

  /** Past the structural rules and the emergency table, only the prefix tables decide. */
  lemma ClassifyByTables(t: Tables, phone: Phone, callType: string, callFrom: Phone)
    requires !StructuralRule(callType, callFrom) && !EmergencyHit(t, phone)
    ensures ClassifyNumber(t, phone, callType, callFrom) == PrefixCascade(t, PhoneText(phone))
  {
  }

  /** The structural rules come first: their result does not depend on any table. */
  lemma StructuralRulesIgnoreTables(t1: Tables, t2: Tables, phone: Phone, callType: string, callFrom: Phone)
    requires StructuralRule(callType, callFrom)
    ensures ClassifyNumber(t1, phone, callType, callFrom) == ClassifyNumber(t2, phone, callType, callFrom)
    ensures ClassifyNumber(t1, phone, callType, callFrom).Some?
  {
  }

  /**
   * Once no configured prefix matched, a special prefix can never be a key
   * of the prefix table, so that path returns no category at all.
   */
  lemma SpecialPrefixYieldsNone(t: Tables, text: string, i: nat)
    requires PrefixMatch(t, text).None?
    requires i < |SpecialPrefixes| && StartsWith(text, SpecialTexts()[i])
    ensures Lookup(t.prefixes, SpecialPrefixes[i]) == None
  {
    LongestPrefixWins(KeyTexts(t.prefixes), text);
    var ks := Keys(t.prefixes);
    var texts := KeyTexts(t.prefixes);
    forall j | 0 <= j < |ks| ensures ks[j] != SpecialPrefixes[i] {
      assert texts[j] in texts;
      assert IntToString(ks[j]) != IntToString(SpecialPrefixes[i]);
    }
  }

  /** A non-empty emergency category of a short number beats every prefix table. */
  lemma EmergencyBeatsPrefixes(t: Tables, phone: Phone, callType: string, callFrom: Phone)
    requires !StructuralRule(callType, callFrom) && EmergencyHit(t, phone)
    ensures ClassifyNumber(t, phone, callType, callFrom) == Some(t.emergency[phone])
  {
  }

  /** The emergency table is read only for numbers of three to five characters. */
  lemma EmergencyOnlyForShortNumbers(t: Tables, emergency: map<Phone, string>, phone: Phone, callType: string, callFrom: Phone)
    requires !(3 <= |PhoneText(phone)| <= 5)
    ensures ClassifyNumber(t, phone, callType, callFrom) == ClassifyNumber(t.(emergency := emergency), phone, callType, callFrom)
  {
  }

  /**
   * When a configured key starts the number, the category is the table's
   * entry for the longest such key.
   */
  lemma ConfiguredPrefixLongestWins(t: Tables, phone: Phone, callType: string, callFrom: Phone, i0: nat)
    requires !StructuralRule(callType, callFrom) && !EmergencyHit(t, phone)
    requires i0 < |t.prefixes| && StartsWith(PhoneText(phone), IntToString(t.prefixes[i0].0))
    ensures exists i :: 0 <= i < |t.prefixes|
              && StartsWith(PhoneText(phone), IntToString(t.prefixes[i].0))
              && ClassifyNumber(t, phone, callType, callFrom) == Lookup(t.prefixes, t.prefixes[i].0)
              && (forall j :: 0 <= j < |t.prefixes| && StartsWith(PhoneText(phone), IntToString(t.prefixes[j].0)) ==>
                    |IntToString(t.prefixes[j].0)| <= |IntToString(t.prefixes[i].0)|)
    ensures ClassifyNumber(t, phone, callType, callFrom).Some?
  {
    var text := PhoneText(phone);
    var texts := KeyTexts(t.prefixes);
    ClassifyByTables(t, phone, callType, callFrom);
    LongestPrefixWins(texts, text);
    assert texts[i0] in texts;
    var p := PrefixMatch(t, text).value;
    var i :| 0 <= i < |texts| && texts[i] == p;
    ParseIntOfIntToString(t.prefixes[i].0);
    PrefixMatchParses(t, text);
    forall j | 0 <= j < |t.prefixes| && StartsWith(text, IntToString(t.prefixes[j].0))
      ensures |IntToString(t.prefixes[j].0)| <= |IntToString(t.prefixes[i].0)|
    {
      assert texts[j] in texts;
    }
  }

  /** With no prefix match, the first international prefix in table order names the country. */
  lemma InternationalFirstInTableOrder(t: Tables, phone: Phone, callType: string, callFrom: Phone, i: nat)
    requires !StructuralRule(callType, callFrom) && !EmergencyHit(t, phone) && NoPrefixStarts(t, PhoneText(phone))
    requires i < |t.international| && StartsWith(PhoneText(phone), Filter(t.international[i].0, {'+'}))
    requires forall j :: 0 <= j < i ==> !StartsWith(PhoneText(phone), Filter(t.international[j].0, {'+'}))
    ensures ClassifyNumber(t, phone, callType, callFrom) == Some("International - " + t.international[i].1)
  {
    ClassifyByTables(t, phone, callType, callFrom);
    NoPrefixMatch(t, PhoneText(phone));
  }

  /** A number that no table matches is an unknown number type. */
  lemma UnmatchedIsUnknown(t: Tables, phone: Phone, callType: string, callFrom: Phone)
    requires !StructuralRule(callType, callFrom) && !EmergencyHit(t, phone) && NoPrefixStarts(t, PhoneText(phone))
    requires forall j :: 0 <= j < |t.international| ==> !StartsWith(PhoneText(phone), Filter(t.international[j].0, {'+'}))
    ensures ClassifyNumber(t, phone, callType, callFrom) == Some("Unknown number type")
  {
    ClassifyByTables(t, phone, callType, callFrom);
    NoPrefixMatch(t, PhoneText(phone));
  }

  lemma NoPrefixMatch(t: Tables, text: string)
    requires NoPrefixStarts(t, text)
    ensures PrefixMatch(t, text).None? && FirstPrefixFrom(SpecialTexts(), text, 0).None?
  {
    LongestPrefixWins(KeyTexts(t.prefixes), text);
  }

  /** The number 2115009 with no configured prefix and no emergency entry is classified as None. */
  lemma ClassifyNumberCanBeNone(t: Tables)
    requires t.prefixes == []
    ensures ClassifyNumber(t, PInt(2115009), "Outbound call", PInt(21)) == None
  {
    assert IntToString(211500) == "211500" && IntToString(2115009) == "2115009" by {
      assert NatToString(2) == "2";
      assert NatToString(21) == "21";
      assert NatToString(211) == "211";
      assert NatToString(2115) == "2115";
      assert NatToString(21150) == "21150";
      assert NatToString(211500) == "211500";
    }
    assert PrefixMatch(t, "2115009") == None;
    assert StartsWith("2115009", SpecialTexts()[0]);
  }
}
