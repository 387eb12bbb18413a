# Call-record reconciliation and billing

This project models the core of a call-record reconciliation and billing engine.
The engine reads the call logs of a telephony provider from two sources: a
"dashboard" export and a PBX "console" export. It merges them into one store of
call records keyed by caller, callee and start time, and works out what each call
costs. The price follows the client's entry in a configuration list (`CONFIG`, a
list of `Files` records) and a first-match cascade of billing rules. A small form
tool renders a new `Files(...)` entry as Python text and splices it into the
configuration file's lines.

The model covers five pieces:

- **Normalisers and classifier** (`utils.dfy`, `classify.dfy`, with string
  helpers in `text.dfy`):
  - phone-number cleaning;
  - the merge key `call_hash`;
  - the fixed `jkt` (+07:00) time conversion;
  - the duration, memo and user-name helpers;
  - the `classify_number` cascade.
- **The configuration record** (`fileconfig.dfy`): the `Files` dataclass and
  its defaults.
- **The call record and its charge** (`charges.dfy`, `records.dfy`):
  - `Charges.Decide` selects the rule that bills a call, with its mode and rate.
  - `Charges.CallCharge` applies it to the duration.
  - `CallRecords.NewRec` is the constructor.
  - `CallRecords.CallDetail` is the record object with its lazily cached
    configuration lookup.
- **The merge store** (`merge.dfy`):
  - `Merge.MergeStore` is the key→record dictionary that both ingest loops
    update in place.
  - Each loop is proved against a fold over the rows (`DashboardIngest`,
    `ConsoleIngest`) on a ghost `view` of the records' values.
  - `round_up_duration` also lives here.
- **The configuration editor** (`configform.dfy`): `generate_config_entry`, and
  the line-list logic of `insert_entry_to_config`. That logic is a search loop,
  a deletion and an insertion after the `CONFIG = [` line, each proved against
  a function.

Modelling choices:

- **Exceptions** become `Failure` values of `Wrappers.Result`, using the error
  constructors in `wrappers.dfy`.
- **Outside tables** are parameters: the emergency, prefix and international
  tables of the classifier, the carrier rate tables, and `CONFIG`. Where the
  source iterates a table, it is a sequence in iteration order.
- **Datetime handling** is a `Utils.Calendar` value. It stands for the parsing
  and text forms of Python's `datetime` library, and parse failures are `None`.
  Instants are integer seconds with an optional offset in minutes. The
  separators the code adds or replaces (the space between date and time, and
  `T`) are written out.
- **Rates and charges** are `real`.

## Model

| member | source | states |
|---|---|---|
| Utils.ParsePhoneNumber | src/utils.py:30-50 | An integer comes back unchanged, and so does `"scancall"`. An integer made from text is never negative. A text result does not parse as an integer and holds none of `+ - ( )` or space. |
| Utils.ParsePhoneNumberOfText | src/utils.py:39-50 | Text other than `"scancall"` is cleaned, loses one leading `62`, and becomes the integer it spells exactly when it parses as one; otherwise the cleaned text itself is returned. |
| Utils.ParsePhoneNumberOfFormatted | src/utils.py:39-50 | A number written `+62 <digits>-<digits>` becomes the integer spelt by the two runs of digits together. |
| Utils.CleanAroundHyphen | src/utils.py:40 | Cleaning drops a hyphen between two runs of digits and keeps both runs in order. |
| Utils.CleanAfterCountryCode | src/utils.py:40 | Cleaning `+62 ` followed by any text gives `62` followed by the cleaned text. |
| Utils.ParsePhoneNumberIdempotentIff | src/utils.py:30-50 | Normalising a result again changes nothing exactly when the result is not text that still starts with `62`. |
| Utils.RenormaliseText | src/utils.py:36-50 | For cleaned non-numeric text other than `"scancall"`, it is returned unchanged if and only if it does not start with `62`. |
| Utils.DropsOneCountryCode | src/utils.py:40-50 | Only one leading `62` is removed: `"62" + t` becomes `t` for cleaned non-numeric `t`. |
| Utils.ParseIntNeedsFinalDigit | src/utils.py:47-50 | Text whose last character is not a digit never parses as an integer, so it is kept as text. |
| Utils.ParsePhoneNumberNotIdempotentExample | src/utils.py:40-50 | `"6262ab"` normalises to `"62ab"`, which normalises again to `"ab"`. |
| Utils.CallHash | src/utils.py:8-9 | The key is the text `caller_callee_start` character by character, with each space replaced by `_`. It therefore has that text's length and contains no space. |
| Utils.FormatDatetimeAsIso | src/utils.py:100-101 | The ISO text is `str()` of the datetime character by character, with each space replaced by `T`. |
| Utils.ConvertToJakartaTimeIso | src/utils.py:11-26 | Any region other than `jkt` raises. For `jkt` the result exists exactly when the text parses; it is that instant plus 7 hours, tagged with offset +420 minutes. |
| Utils.ParseJakartaDatetime | src/utils.py:120-124 | `"nan"` gives `"-"` before the region is checked. Otherwise a result exists exactly for region `jkt` and parseable text. The result is the ISO text of the converted Jakarta time, and it contains no space. |
| Utils.ParseTimeDuration | src/utils.py:126-128 | Text that does not split into exactly three `:` fields raises. A result is hours·3600 + minutes·60 + seconds of the three fields parsed as integers. |
| Utils.FormatTimedelta | src/utils.py:103-107 | The result is the `H:MM:SS` clock of the duration modulo one day: keeping the text after the last `", "` of `str(timedelta)` loses whole days. |
| Utils.ParseCallMemo | src/utils.py:112-115 | The result is never empty. An empty memo and `"nan"` both become `"-"`; any other memo is kept. |
| Utils.FormatUsername | src/utils.py:109-110 | The result is never empty. A non-empty name is kept, and an empty name becomes `"-"`. |
| Text.ParseIntOfIntToString | src/utils.py:81-83 | `int(str(n)) == n`: a prefix key rendered as text parses back to the same key. |
| Classify.SortByLengthDesc | src/utils.py:78 | The sorted prefixes are a permutation of the keys, longest first. |
| Classify.InsertByLengthSorted | src/utils.py:78 | Inserting a prefix into a longest-first list keeps it longest first. |
| Classify.LongestPrefixWins | src/utils.py:78-83 | The prefix the loop picks is a prefix of the number, and no longer prefix of the number is a key. If it picks none, no key is a prefix of the number. |
| Classify.PrefixMatchParses | src/utils.py:81-83 | A matching prefix parses back to an integer key that the lookup finds. |
| Classify.LookupFindsKey | src/utils.py:83 | A key present in the table is always found. |
| Classify.FirstPrefixFrom | src/utils.py:86-88 | The special prefix found is the first in list order that starts the number; if none is found, none starts it. |
| Classify.FirstInternationalFrom | src/utils.py:91-93 | The international entry found is the first in table order whose prefix, with `+` removed, starts the number; if none is found, none does. |
| Classify.StructuralRulesIgnoreTables | src/utils.py:56-69 | Fixed call-type labels, a `scancall` caller and a transfer from a 3-digit extension are classified the same whatever the tables hold, and never as None. |
| Classify.ClassifyNumber | src/utils.py:52-95 | The classification is None only when no configured prefix starts the number, a special prefix does, and the number is not a short emergency number. |
| Classify.PrefixCascade | src/utils.py:77-95 | The table steps give None only when no configured prefix matches and a special prefix does. |
| Classify.ClassifyByTables | src/utils.py:52-95 | Past the structural rules and a short emergency number, only the prefix tables decide the classification. |
| Classify.EmergencyBeatsPrefixes | src/utils.py:71-75 | A number of 3 to 5 characters with a non-empty emergency category gets that category, whatever the prefix tables hold. |
| Classify.EmergencyOnlyForShortNumbers | src/utils.py:71-75 | For a number shorter than 3 or longer than 5 characters, the emergency table has no effect. |
| Classify.ConfiguredPrefixLongestWins | src/utils.py:77-83 | When a configured key starts the number, the category is the lookup of a matching key, and no matching key is longer. |
| Classify.InternationalFirstInTableOrder | src/utils.py:90-93 | With no prefix match, the first international entry in table order whose prefix, with `+` removed, starts the number gives `International - <country>`. |
| Classify.UnmatchedIsUnknown | src/utils.py:95 | A number that no prefix and no international entry matches is `Unknown number type`. |
| Classify.NoPrefixMatch | src/utils.py:77-88 | When neither a configured key nor a special prefix starts the number, both prefix searches come back empty. |
| Classify.SpecialPrefixYieldsNone | src/utils.py:81-88 | When no configured prefix matches and a special prefix does, its lookup in the prefix table is absent. |
| Classify.ClassifyNumberCanBeNone | src/utils.py:81-88 | With an empty prefix table, an outbound call to the number `2115009` is classified as None rather than as text. |
| FileConfig.NewFiles | src/FileConfig.py:4-30 | The four required fields are as given. The carrier is `Atlasat`, every rate is None, every rate type is `per_minute`, the numbers and `s2c` are None, and every call-type list is empty. |
| Charges.CeilMinutes | src/CallDetail.py:45 | The result is the fewest whole minutes covering the seconds. |
| Charges.PerMinuteCharge | src/CallDetail.py:44-46 | Non-negative for a non-negative duration and rate. |
| Charges.PerSecondCharge | src/CallDetail.py:48-49 | Non-negative for a non-negative duration and rate. |
| Charges.PerMinuteChargeExample | src/CallDetail.py:44-46 | A 150-second call bills three minutes. |
| Charges.PerMinuteChargeRoundsUp | src/CallDetail.py:44-46 | The per-minute charge covers the exact per-second price and exceeds it by less than one minute's rate. |
| Charges.MatchClient | src/CallDetail.py:51-58 | A match is an entry of `CONFIG` with the client's name; there is no match exactly when no entry has that name. |
| Charges.MatchClientFirst | src/CallDetail.py:54-57 | The first entry in list order with the name is the one matched. |
| Charges.ChargeableTypes | src/CallDetail.py:82 | An empty client list gives `outbound call` and `predictive dialer`; otherwise the client's types in lower case. |
| Charges.RateMode | src/CallDetail.py:64-72 | Per minute exactly for `"per_minute"`, per second exactly for `"per_second"`, otherwise no mode. |
| Charges.FirstRateFrom | src/CallDetail.py:103-106 | The rate key found is the first in table order where one lower-cased text contains the other; if none is found, no key matches. |
| Charges.S2cRule | src/CallDetail.py:115-131 | Fires exactly when the target is listed or the category is `scancall`, the type is answered or chargeable, and the S2C rate type is known. It then bills at the S2C rate and mode. |
| Charges.NumberRule | src/CallDetail.py:133-157 | Bills exactly when the type is in the number's list, an endpoint equals the number, and the rate type is unset, empty, `per_minute` or `per_second`. The mode is per second only for `per_second`. A zero or unset rate becomes 720; any other rate is kept. |
| Charges.CallCharge | src/CallDetail.py:74-180 | A missing entry fails with `MissingConfig`. An allowlisted caller of `siemens-id` is charged the literal `"0"`, and that is the only literal charge. Any other failure is the missing `Atlasat` table, or a None rate reached through the S2C or general rule. |
| Charges.Decide | src/CallDetail.py:74-180 | A missing entry is exactly the crash at line 82. A crash is that one, or the missing `Atlasat` table. The literal `"0"` comes only from the `siemens-id` allowlist. A None rate can reach billing only through the S2C or general rules. The order of the rules after the international one is stated by `CascadeAfterInternational`. |
| Charges.AllowlistedCallerIsFree | src/CallDetail.py:87-88 | A listed caller of `siemens-id` is billed the literal `"0"` before any other rule. |
| Charges.FirstMatchingRateKeyBills | src/CallDetail.py:99-112 | Past the premium rule, the first non-empty key of the carrier's rate table that matches the number type sets the per-minute rate, plus 200 for an end user. |
| Charges.S2cBeforeNumbers | src/CallDetail.py:114-157 | A number1 or number2 decision means the S2C rule did not apply. The forward direction is `CascadeAfterInternational`. |
| Charges.CascadeAfterInternational | src/CallDetail.py:114-167 | Once a call passes the allowlist, internal, premium and international rules, the S2C rule bills it whenever it fires. Otherwise number1 bills it whenever it applies, then number2, and only when none of the three applies does the general rule decide. |
| Charges.S2cPerSecondCharge | src/CallDetail.py:114-131 | A 10-second call that the S2C rule catches, with rate 500 per second, is charged 5000. |
| Charges.EmptyTypeListBillsGeneral | src/CallDetail.py:159-167 | With no chargeable call types configured and a known rate type, every call that reaches the general branch is billed at the configured rate and rate type. |
| Charges.ApplyBilling | src/CallDetail.py:44-49 | The literal rule yields `"0"`. A rated rule fails exactly when its rate is None. A known non-negative rate gives a non-negative amount. |
| Charges.UnknownClientRaises | src/CallDetail.py:76-85 | A client with no `CONFIG` entry always raises, so the 720 default for a missing entry is never reached. |
| Charges.InternalCallIsFree | src/CallDetail.py:90-92 | An `internal call` category not on the allowlist costs 0. |
| Charges.PremiumBeatsOverrides | src/CallDetail.py:94-97 | Premium, toll-free, split-charge and emergency categories bill 1700 per minute, plus the end-user surcharge, whatever the international, S2C and number settings. |
| Charges.CapitalisedEmergencyCategoryMissed | src/CallDetail.py:81-95 | The category is lower-cased but the emergency names are not, so an emergency category `"Police"` misses the premium rule. |
| Charges.EnduserPaysSurcharge | src/CallDetail.py:94-112 | Renaming a client to an `enduser` name keeps the premium or international rule and raises its per-minute rate by exactly 200. |
| Charges.UnclassifiedCallBilledAtFirstRate | src/CallDetail.py:103-112 | A call with no category bills at the first rate in the carrier's table. |
| Charges.Number1BeforeNumber2 | src/CallDetail.py:133-157 | number2 bills a call only when number1 does not apply to it. The forward direction, that number1 and then number2 bill whenever they apply, is `CascadeAfterInternational`. |
| Charges.GeneralFallbackOnlyForUnknownRateType | src/CallDetail.py:160-174 | The 720 default of the last general rule is reachable only for an unknown rate type, and then bills per minute. |
| Charges.ExcludedCallsCostNothing | src/CallDetail.py:176-178 | An excluded call's type is not chargeable, and the call costs 0. With an empty client list this needs an unknown rate type. |
| Charges.DefaultEntryLacksRate | src/CallDetail.py:160-167 | An entry with only its required fields raises on every call that a fixed-rate rule does not bill. |
| CallRecords.ParseIsoDatetime | src/utils.py:117-118 | Succeeds exactly when the text parses, with that instant. |
| CallRecords.NewRec | src/CallDetail.py:9-42 | On success: both phones are normalised; an answer time of `"-"` is absent; the start time is parsed; both durations parse; the category is `classify_number` of (callee, type, caller); the memo is normalised; the other fields are copied; the charge is the cascade's. An unparseable start time raises. |
| CallRecords.NewRecTimes | src/CallDetail.py:32-36 | A built record's end time, and its answer time unless that is `"-"`, are what the datetime library parsed. |
| CallRecords.NewRecFailsInOrder | src/CallDetail.py:32-42 | The first field that fails, in source order, raises: the answer time, then the end time, then the ringing time, then the duration, then the charge. |
| CallRecords.ChargeArgumentIgnored | src/CallDetail.py:23-42 | The `call_charge` argument has no effect on the record. |
| CallRecords.CallDetail.constructor | src/CallDetail.py:9-42 | The object holds the record, and its configuration cache is filled with the client's entry. |
| CallRecords.CallDetail.Create | src/CallDetail.py:9-42 | Raises exactly the constructor's exception; otherwise a fresh object whose value is the constructed record. |
| CallRecords.CallDetail.MatchedClient | src/CallDetail.py:51-58 | Returns the client's entry, leaves it cached, and changes no attribute. |
| CallRecords.CallDetail.IsEnduser | src/CallDetail.py:60-62 | True exactly when an entry matched and its name contains `enduser` in any case; no attribute changes. |
| CallRecords.CallDetail.HashKey | src/CallDetail.py:201-202 | The key of the record's caller, callee and start time, with no space. |
| Merge.DashboardStep | src/csv_processing.py:19-42 | A row raises exactly when its record cannot be built. Otherwise only its key is added or changed. A new key stores the record. A taken key gets the row's raw name and memo, and every other field is kept. |
| Merge.StoreDashboardRec | src/csv_processing.py:35-42 | The same as `DashboardStep`, for a record already built. |
| Merge.DashboardIngest | src/csv_processing.py:10-43 | An ingest that ends without an exception built a record from every row. |
| Merge.DashboardIngestFailsAtRow | src/csv_processing.py:18-42 | An ingest that stops reports the constructor error of one of its rows. |
| Merge.DashboardIngestKeepsKeys | src/csv_processing.py:18-42 | The dashboard ingest never removes a record. |
| Merge.CallTypeOf | src/csv_processing.py:52-65 | `OUTGOING_CALL` becomes `Outbound call` and `OUTGOING_CALL_ABSENCE` becomes `Outbound call (No answer)`; other codes are kept. |
| Merge.ConsoleOverwrite | src/csv_processing.py:67-76 | Keeps client, sequence id, user, phones, start, carrier and category, and sets the call type. On success it sets the answer and end times as Jakarta text, the raw durations, an empty memo and the discount as charge. If the answer time fails, that error is returned and the answer time is untouched. If only the end time fails, that error is returned and the answer time has already been written. After any failure, the end time, durations, memo and charge are untouched. |
| Merge.ConsoleRecord | src/csv_processing.py:81-98 | A new console record has user `"-"`, the row's call id, memo `"-"` and the mapped call type. |
| Merge.ConsoleKey | src/csv_processing.py:59-63 | The key exists exactly when the start time converts. |
| Merge.ConsoleStep | src/csv_processing.py:57-98 | An unreadable start time stops at the row with that error and changes nothing. A row that passes either is stored under its key or is dropped because its call id is already stored. |
| Merge.ConsoleIngest | src/csv_processing.py:46-99 | An ingest that ends without an exception had a readable start time in every row. |
| Merge.ConsoleStepChangesOneKey | src/csv_processing.py:57-98 | A console row never removes a key. An unreadable start changes nothing. Otherwise only the row's own key may be added or changed. |
| Merge.ConsoleDuplicateCallIdDropped | src/csv_processing.py:78-80 | A row with a new key whose call id is already stored is dropped without error. |
| Merge.ConsoleIngestKeepsKeys | src/csv_processing.py:57-99 | The console ingest never removes a record. |
| Merge.StrDateTimeCounts | src/utils.py:8-9 | `str()` of a datetime has one space and no underscore. |
| Merge.JakartaTextKeyPart | src/utils.py:120-124 | A converted console time has no space and no underscore. |
| Merge.CallHashUnderscores | src/utils.py:8-9 | The key's underscores are the two separators plus the underscores and spaces of the start text. |
| Merge.RecKeyUnderscores | src/CallDetail.py:201-202 | A dashboard key has exactly three underscores. |
| Merge.ConsoleKeyUnderscores | src/csv_processing.py:63 | A console key has exactly two underscores. |
| Merge.ConsoleKeyNeverDashboardKey | src/csv_processing.py:35-63 | When the calendar prints dates and clock times without spaces or underscores, and all four numbers are written without underscores, a console row's key differs from the `hash_key` of any record. |
| Merge.ParsedPhoneKeyPart | src/utils.py:30-50 | A number written without an underscore normalises to text with neither a space nor an underscore. |
| Merge.DashboardStepKeyed | src/csv_processing.py:35-42 | A dashboard row keeps every record under its own `hash_key`: a new record goes under its key, and a repeat changes only the name and memo. |
| Merge.DashboardIngestKeyed | src/csv_processing.py:18-42 | After the dashboard ingest from an empty store, every record sits under its own `hash_key` and its numbers hold neither a space nor an underscore. |
| Merge.ConsoleKeyMissesDashboardStore | src/csv_processing.py:63-67 | A console row's key is never a key of a store the dashboard filled, under the same conditions. |
| Merge.ConsoleIngestKeepsKeyedRecord | src/csv_processing.py:57-99 | A record stored under its own `hash_key` is still present and unchanged after any console ingest. |
| Merge.ConsoleKeepsDashboardStore | src/csv_processing.py:57-99 | Every record of a dashboard-filled store is present and unchanged after the console ingest. |
| Merge.ConsoleNeverUpdatesDashboardRecords | src/csv_processing.py:63-76 | After a dashboard ingest then a console ingest, every dashboard record is exactly as the dashboard left it: the console overwrite never reaches one. |
| Merge.IntendedConsoleKey | src/csv_processing.py:63 | The corrected key exists exactly when the start time converts, and `"nan"` is handled as written. |
| Merge.IntendedConsoleKeyFindsDashboardRecord | src/csv_processing.py:62-69 | For a console row with the same numbers whose converted start is a dashboard record's start, the corrected key is that record's key and the key as written is not. |
| Merge.RoundUpDuration | src/csv_processing.py:131-144 | A text with `:` but not three fields gives 0, and so does colon-free text that is not an integer. |
| Merge.RoundUpOfSeconds | src/csv_processing.py:138-139 | An integer n of seconds rounds up to ceil(n/60) minutes. |
| Merge.RoundUpOfClock | src/csv_processing.py:135-137 | `h:mm:ss` rounds up to h·60 + mm + ceil(ss/60). |
| Merge.RoundUpOfFormattedDuration | src/csv_processing.py:131-152 | The rounded value of a formatted duration is the ceiling in minutes of the duration modulo one day. |
| Merge.RoundUpOfShortCall | src/csv_processing.py:131-152 | For a call under one day, the formatted duration rounds up to its exact ceiling in minutes. |
| Merge.RoundUpLosesWholeDays | src/utils.py:103-107 | A call lasting whole days plus s seconds is reported as if it lasted s seconds: 1440 minutes per day are lost. |
| Merge.MergeStore.constructor | src/csv_processing.py:13-14 | An empty store. |
| Merge.MergeStore.HasSequenceId | src/csv_processing.py:80 | True exactly when a stored record carries the id. |
| Merge.MergeStore.Insert | src/csv_processing.py:42 | Adds one record under a new key; nothing else changes. |
| Merge.MergeStore.SetNameAndMemo | src/csv_processing.py:38-40 | Only the name and memo of the record under the key change. |
| Merge.MergeStore.OverwriteAt | src/csv_processing.py:69-76 | The record under the key becomes the console overwrite of itself; every other record is unchanged. |
| Merge.MergeStore.Overwrite | src/csv_processing.py:70-76 | The object's fields are set in source order, and the exception is the one the overwrite meets. |
| Merge.MergeStore.DashboardRowStep | src/csv_processing.py:19-42 | The store after one row is `DashboardStep` of it, or unchanged together with the row's exception. |
| Merge.MergeStore.StoreDashboard | src/csv_processing.py:35-42 | Stores a built record as `StoreDashboardRec` describes. |
| Merge.MergeStore.ProcessDashboard | src/csv_processing.py:10-43 | The store's contents after the loop are the dashboard fold over the rows, up to the first exception. |
| Merge.MergeStore.ConsoleRowStep | src/csv_processing.py:57-98 | The store after one row is the console step over its contents. |
| Merge.MergeStore.AddConsoleRecord | src/csv_processing.py:81-98 | Inserts the row's new record under the console key, or leaves the store unchanged with the exception. |
| Merge.MergeStore.AddRecord | src/csv_processing.py:82-98 | Inserts the constructed record under the given key, or leaves the store unchanged with the constructor's exception. |
| Merge.MergeStore.ProcessConsole | src/csv_processing.py:46-99 | The store's contents after the loop are the console fold over the rows, up to the first exception. |
| ConfigForm.Quote | config_form2.py:34-37 | Text is wrapped in double quotes with its content unchanged; anything else is its `str`. |
| ConfigForm.OptionalQuote | config_form2.py:45-55 | A falsy value is written as `None`; truthy text is quoted. |
| ConfigForm.ListRepr | config_form2.py:48-52 | The rendered list is `[]` exactly when the list is empty. |
| ConfigForm.ReprStrRoundTrip | config_form2.py:48 | Each rendered list element reads back as the original text. |
| ConfigForm.Hex4RoundTrip | config_form2.py:58 | A four-hex-digit `\u` escape reads back as its code unit. |
| ConfigForm.JsonCharDecodes | config_form2.py:58 | Every character's JSON escape reads back as that character, including pairs beyond U+FFFF. |
| ConfigForm.JsonStrRoundTrip | config_form2.py:58 | A JSON-dumped string reads back as the original text. |
| ConfigForm.JsonBodyKeepsPlainText | config_form2.py:58 | Printable ASCII without `"` or `\` is dumped verbatim. |
| ConfigForm.EntryTextDiffersOnlyInNumber2Types | config_form2.py:52 | Two entries differing only in the list rendered on the number2 line have equal text exactly when those lists render alike. |
| ConfigForm.Number2TypesIgnored | config_form2.py:52 | The entry text does not depend on the number2 call-type list at all. |
| ConfigForm.Number2TypesLost | config_form2.py:52 | With an empty number1 list and a non-empty number2 list, the written entry differs from the intended one. |
| ConfigForm.IntendedEntryAgreesIff | config_form2.py:52 | The written and intended entries agree exactly when the two lists render alike. |
| ConfigForm.IntendedEntryCarriesNumber2Types | config_form2.py:52 | The intended entry contains the number2 list on its own line. |
| ConfigForm.GenerateConfigEntry | config_form2.py:33-59 | The entry starts with the `Files(` line and ends with the `),` line, and an entry for client X is found by the search for `client="X"`. |
| ConfigForm.GenerateConfigEntryIntended | config_form2.py:33-59 | The corrected entry has the same frame and the same client line. |
| ConfigForm.EntryFramed | config_form2.py:39-59 | Whatever list the number2 line renders, the template text starts with the `Files(` line and ends with the `),` line. |
| ConfigForm.EntryOpens | config_form2.py:39-40 | Whatever list the number2 line renders, the template text starts with the `Files(` line. |
| ConfigForm.EntryCloses | config_form2.py:58-59 | Whatever list the number2 line renders, the template text ends with a line break and the `),` line. |
| ConfigForm.EntryNamesClient | config_form2.py:40-70 | Whatever list the number2 line renders, the template for client X is found by the search for `client="X"`. |
| ConfigForm.FindBlockFromSpec | config_form2.py:69-75 | The search result satisfies the block condition from any intermediate state of the loop. |
| ConfigForm.FindBlock | config_form2.py:69-75 | The start is a client line, and no client line lies between it and the end. The end is a closing line that is not a client line. Before the end, no closing line follows any client line. With no start there is no client line at all; with a start but no end, no closing line follows any client line. |
| ConfigForm.FirstHeaderFrom | config_form2.py:82-84 | The header found is the first line that opens the `CONFIG` list; if none is found, none does. |
| ConfigForm.FindBlockIndices | config_form2.py:65-75 | The loop's start and end indices are the block the search defines. |
| ConfigForm.DeleteBlock | config_form2.py:77-79 | The kept lines are the block removal. |
| ConfigForm.InsertAfterHeader | config_form2.py:81-89 | The loop's result is the insertion after the first header, or the `ValueError`. |
| ConfigForm.InsertEntryToConfig | config_form2.py:61-92 | The edited lines are the removal followed by the insertion. |
| ConfigForm.RemoveBlock | config_form2.py:77-79 | Lines are removed exactly when an end was found, and then exactly end − start + 1 of them. |
| ConfigForm.InsertEntry | config_form2.py:77-89 | A failure is the missing `CONFIG` header. Otherwise the result has one line more than the kept lines, and that line is the entry. |
| ConfigForm.InsertEntryAddsOneLine | config_form2.py:77-89 | Without a header the edit fails with `ValueError`. Otherwise it adds one line, the entry, right after the first header, and removing that line gives back the kept lines in order. |
| ConfigForm.InsertAfterFirstHeaderSpec | config_form2.py:82-89 | The insertion step alone has the same outcome as `InsertEntryAddsOneLine`. |
| ConfigForm.OpeningLineSurvivesReplace | config_form2.py:72-79 | Every line before the client line survives the deletion. |
| ConfigForm.FindBlockOfLaidOutEntry | config_form2.py:69-75 | In an entry laid out like the template, the search finds its client line and its closing line. |
| ConfigForm.ReplaceLeavesOpener | config_form2.py:72-79 | Deleting such an entry as written keeps its `Files(` line, now directly followed by the lines that came after the old entry. |
| ConfigForm.IntendedRemovalDropsWholeEntry | config_form2.py:78-79 | The intended removal takes out the entry from its `Files(` line to its closing line, and nothing else. |

## Left out

- The Streamlit form (config_form.py, and the widget and session-state code of config_form2.py): user interface only. The editor is modelled on a list of lines, not on files.
- File reading and writing: the pandas CSV reads and writes in src/csv_processing.py, and `open`/`readlines`/`writelines` in config_form2.py. Rows are records of text, and configuration files are sequences of lines.
- `process_merged_csv` (src/csv_processing.py:102-129) is not modelled. It cannot run: it subscripts the `row.get` method, uses an undefined `carrier`, and omits `client`. Nothing calls it.
- `save_merged_csv` and `CallDetail.to_dict` are not modelled beyond the round-up lemmas, which cover the "Round up duration" column they produce.
- auto-anna.py is not part of this model. It is a driver loop over `CONFIG` that does file I/O.
- The constant sets in src/incoming_exemptions.py, src/dipo_numbers.py and src/special_rates.py are not part of this model. No modelled code reads them.
- `src.idn_area_codes`, `src.international_rates` and `config.CONFIG` are not part of this model. Their contents are parameters: `Classify.Tables`, `Charges.RateTables`, and a sequence of `Files`.
- Python's datetime library is abstracted by `Utils.Calendar`:
  - `fromisoformat`, `strptime` and `str()` of a datetime are functions of the calendar;
  - the date and clock text are left abstract;
  - `str(timedelta)` is written out for the `h:mm:ss` and `N day(s), h:mm:ss` forms.
- Floating point: rates and charges are exact reals, and `str()` of a float charge (such as `"2160.0"`) is not modelled; a charge is an amount or the literal `"0"`. `int()` is modelled as strict decimal digits with an optional sign, without surrounding whitespace or `_` separators.
- Merge.ConsoleNeverUpdatesDashboardRecords: it is stated for phone numbers written without underscores and a calendar whose printed dates and clock times hold no space or underscore. The proof counts underscores in the two keys, so an underscore inside a number or a printed time could make keys meet by accident. `Merge.ConsoleKeyNeverDashboardKey`, `Merge.ConsoleKeyMissesDashboardStore`, `Merge.ConsoleIngestKeepsKeyedRecord` and `Merge.ConsoleKeepsDashboardStore` carry the same conditions.
- ConfigForm.ReprStrRoundTrip: Python's `repr` is modelled for printable text and for the escapes of `\\`, quotes, `\n`, `\r` and `\t`. Other non-printable characters are left as they are.
- Text.Lower: only ASCII `A`-`Z` are lower-cased. Python's Unicode case mapping is not modelled, so non-ASCII letters in call types, number types, client names and rate keys are compared unchanged. This affects `Charges.KeyMatches`, `Charges.IsEnduser` and the call-type lists.
- Text.Title: only ASCII letters are cased, so a carrier name with non-ASCII letters may select a different rate table than Python's `str.title()` would.
- Text.Strip: only ASCII whitespace is removed. Python's `str.strip()` also removes Unicode whitespace.
- Text.IsDecimal: only ASCII digits count. Python's `str.isdigit()` and `int()` also accept other Unicode digits.
- Every `print` call. It is logging only.
- Charges.Decide: line 180 has no counterpart. The three branches before it always return, so it cannot be reached.
- The description of the system bills a client missing from `CONFIG` at 720 per minute (lines 84-85 of src/CallDetail.py). The code raises at line 82 before that branch, and the model follows the code (`Charges.UnknownClientRaises`).

## Findings

| source | as written | input that shows it | evidently intended | confidence | as-written member | corrected member |
|---|---|---|---|---|---|---|
| src/csv_processing.py:63-76 | The console key is built from `parse_jakarta_datetime`, which writes `T` between date and time. The dashboard stores records under `hash_key`, whose `str(datetime)` space becomes `_`. A console row therefore never finds a dashboard record, and the update at lines 67-76 applies only to records the console itself added. | Dashboard row: caller `8123`, callee `8456`, begin `2024-01-01 10:00:00+07:00`, stored under `8123_8456_2024-01-01_10:00:00+07:00`. Console row for the same call: numbers `8123` and `8456`, start `2024-01-01 03:00:00`, region `jkt`, looked up under `8123_8456_2024-01-01T10:00:00+07:00`. The lookup misses. | The console row finds the dashboard record of the same call and updates it. | not executed | Merge.ConsoleNeverUpdatesDashboardRecords | Merge.IntendedConsoleKeyFindsDashboardRecord |
| config_form2.py:52 | The `number2_chargeable_call_types` line renders `data["number1_chargeable_call_types"]`. | An empty number1 list and a number2 list `["outbound call"]`: the entry says `number2_chargeable_call_types=[]`. | The line renders the number2 list. | not executed | ConfigForm.Number2TypesLost | ConfigForm.IntendedEntryCarriesNumber2Types |
| config_form2.py:72-79 | Replacing a client's entry deletes from the `client=` line to the `),` line. The template puts a `Files(` line above the `client=` line, and that line stays. | The lines `CONFIG = [`, `    Files(`, `        client="acme",`, `    ),`, `]` keep `    Files(` after the old entry is removed. The file then has an unclosed `Files(`. | The whole old entry is removed, from its `Files(` line to its `),` line. | not executed | ConfigForm.ReplaceLeavesOpener | ConfigForm.IntendedRemovalDropsWholeEntry |
