# go-messaging, modelled in Dafny

go-messaging builds structured log and error messages. A message number plus a
list of heterogeneous detail arguments becomes a record. That record holds:

- the time;
- a level derived from the number's range;
- an id rendered from a template;
- the text rendered from the message table;
- a status, a duration and a caller location;
- the errors among the details;
- the remaining details, each numbered by its argument position.

The record is emitted as JSON, or as an alternating key/value list for Go's
structured logger (slog). A small parser reads a JSON message back.

This project models the message-building core in its three revisions:

- `BasicMessenger`, the current one (messenger/messenger_basic.go);
- `SimpleMessenger`, the earlier one (messenger/messenger.go);
- `AppMessageImpl`, the earliest one (appmessage/appmessage.go).

It also models the constructors `New` of both packages, the level tables, the
slog handler options of the appmessage package, and `ParserImpl` of the parser
package.

Modules, one per part of the program:

| module | file | models |
|---|---|---|
| `Wrappers` | wrappers.dfy | Option and Result |
| `StringUtil` | strings.dfy | tab/newline removal, the `"%!("` cut, split/trim, decimal and zero-padded renderings |
| `Levels` | levels.dfy | level constants and maps, the message-number ranges, `getLevel`, the sorted-bounds cache |
| `Values` | values.dfy | detail arguments as one datatype, the runtime services as a `Host` record, `isJSON`, `interfaceAsString` |
| `Details` | details.dfy | `messageDetails` and `create*Detail` of the two messenger revisions |
| `KeyValue` | keyvalue.dfy | `getKeyValuePairs`, shared by all revisions |
| `Overrides` | overrides.dfy | `parseDetails` and the override loop of `SimpleMessenger.populateStructure`; the location lookup |
| `MessengerBasic` | messenger_basic.dfy | the `BasicMessenger` class: field selection, `populateMessageFormat`, `populateStructure`, `NewSlogLevel` |
| `MessengerNew` | messenger_main.dfy | `messenger.New` |
| `MessengerSimple` | messenger_simple.dfy | the `SimpleMessenger` class |
| `AppMessage` | appmessage.dfy | the `AppMessageImpl` class: `stringify`, the unquoting `isJson`, the position-keyed `messageDetails`, `populateStructure`, `NewSlog`, `NewSlogLevel` |
| `AppMessageMain` | appmessage_main.dfy | `appmessage.New`, `HandlerOptions` and its `ReplaceAttr` |
| `Parser` | parser.dfy | the `ParserImpl` class: `initialize` and the getters |

The Go code that changes state is modelled as imperative Dafny:

- The messengers are classes whose lazily filled level cache is a field.
- The parser is a class whose `Initialize` updates its fields.
- Option loops, detail loops, key/value loops and map-filling loops are
  methods with loop invariants.
- Each such method is proved equal to a specification function.

The properties the program promises are lemmas about those functions. For
example:

- last write wins for overrides and options;
- one position per argument;
- even-length alternating key/value lists in key order;
- the two level maps are inverses;
- the cache holds the range bounds in descending order;
- the parser's default values.

Go's `interface{}` arguments are the closed datatype `Values.Arg`. The Go
runtime services the code calls are function-valued fields of a `Host` (or,
for the parser, a `Decoder`) parameter, so every property holds for any
behaviour of them:

- the JSON syntax check of RFC 8259;
- `strconv.Unquote`;
- `fmt.Sprintf`, `%g` and `%#v`;
- reflect type names;
- `runtime.Caller`;
- time formatting and parsing;
- `json.Unmarshal`.

The environment variable `SENZING_MESSAGE_FIELDS` and the current time are
parameters as well.

## Model

| member | source | states |
|---|---|---|
| StringUtil.CleanTabsAndNewlines | messenger/messenger_basic.go:507-513 | no tab or newline remains; every other character keeps its count; text without tabs and newlines is returned unchanged |
| StringUtil.CleanConcat | messenger/messenger_basic.go:509-510 | removal works character by character: cleaning distributes over concatenation |
| StringUtil.CleanIdempotent | messenger/messenger.go:36-41 | cleaning twice is cleaning once |
| StringUtil.RemoveAll | messenger/messenger_basic.go:509 | strings.ReplaceAll of one character by "": the character is gone, the other characters keep their counts, and a string without it is unchanged |
| StringUtil.TextBeforeMarker | messenger/messenger_basic.go:323 | the result is the prefix of the rendering before the first "%!(", and the whole rendering when there is none |
| StringUtil.TextWithoutMarkerUnchanged | messenger/messenger_basic.go:323 | a rendering without "%!(" is the text unchanged |
| StringUtil.Split | messenger/messenger_basic.go:291 | strings.Split yields at least one piece and no piece holds the separator |
| StringUtil.JoinSplit | messenger/messenger_basic.go:291 | joining the pieces with the separator gives the setting back: splitting loses nothing |
| StringUtil.TrimSpace | messenger/messenger_basic.go:293 | the result is the infix of the input left once white space is dropped from both ends: only white space lies outside it, it neither starts nor ends with white space, and an already trimmed input is unchanged |
| StringUtil.Trim | messenger/messenger_basic.go:293 | trimming a character class leaves a result that neither starts nor ends with a character of the class, no longer than the input, and an input already free of them at both ends unchanged |
| StringUtil.TrimIsInfix | messenger/messenger_basic.go:293 | what trimming leaves is an infix of the input with only characters of the class before and after it |
| StringUtil.CleanChar | messenger/messenger_basic.go:509-510 | on one character, cleaning drops a tab or a newline and keeps anything else |
| StringUtil.NatToDecimal | messenger/messenger_basic.go:556 | strconv.Itoa of a natural number is a non-empty digit string with no leading zero |
| StringUtil.DecimalRoundTrip | messenger/messenger_basic.go:556 | the decimal digits of n read back as n |
| StringUtil.NatToDecimalInjective | appmessage/appmessage.go:149 | different positions get different decimal keys |
| StringUtil.ItoaRoundTrip | appmessage/appmessage.go:149 | strconv.Atoi(strconv.Itoa(i)) is i for every integer, negative ones included |
| StringUtil.ZeroPad | messenger/main.go:248 | "%0Nd" of a natural number is all digits and at least N characters long |
| StringUtil.ZeroPadRoundTrip | messenger/main.go:248 | zero padding keeps the value: the padded digits read back as the number |
| StringUtil.FixedWidth | messenger/main.go:260 | for 0 <= n < 10^w, "%0wd" is exactly w digits that read back as n |
| Values.JsonAsInterface | messenger/messenger_basic.go:529-540 | on text that isJSON accepts, the json.RawMessage is the cleaned text with the JSON white space (RFC 8259 section 2) around the value dropped: an infix of the cleaned text, with no tab or newline, neither starting nor ending with white space, and the whole cleaned text, valid JSON, when it has none around it; the panic branch is excluded by the precondition every caller guarantees |
| Values.RawOfText | messenger/messenger_basic.go:406-417 | a string detail's ValueRaw is set exactly when the string isJSON, and is then the cleaned text without the JSON white space around it |
| Values.BoolText | messenger/messenger_basic.go:560 | strconv.FormatBool gives "true" exactly for true and "false" otherwise |
| Values.InterfaceAsString | messenger/messenger_basic.go:543-568 | nil gives "<nil>"; a bool gives "true" or "false"; an int gives strconv.Itoa of it (no leading zero), which reads back as the int; a float64 its "%g" rendering; an error gives cleanErrorString of its message; a non-JSON string comes back unchanged and a JSON one without its tabs and newlines, as valid JSON; any other value its "%#v" rendering |
| Values.CleanErrorString | messenger/messenger_basic.go:515-517 | an error's message without tabs or newlines, unchanged when it has none |
| Levels.LevelMapsInverse | messenger/main.go:198-217 | LevelToTextMap and TextToLevelMap cover exactly the seven levels and are mutual inverses (appmessage/main.go:113-131 repeats the same tables) |
| Levels.SlogLevelOfName | messenger/main.go:150-156 | the level integers of TRACE..PANIC are -8, -4, 0, 4, 8, 12, 16: strictly increasing, four apart |
| Levels.RangeBoundsNameLevels | messenger/main.go:187-195 | the range bounds are exactly 0, 1000, ..., 6000, and bound 1000*i names the i-th level in increasing order |
| Levels.FirstAtMost | messenger/messenger_basic.go:259-263 | the bound getLevel's loop stops at is a bound not above the number, and there is none exactly when every bound is above it |
| Levels.FirstAtMostIsGreatest | messenger/messenger_basic.go:259-263 | on a descending list the first bound not above n is the greatest such bound |
| Levels.LevelFromSorted | messenger/messenger_basic.go:257-266 | getLevel returns "UNKNOWN" or the level of some bound not above the number |
| Levels.FindLevel | messenger/messenger_basic.go:257-266 | the loop over the sorted bounds returns the level LevelFromSorted specifies |
| Levels.LevelOfNumber | messenger/messenger_basic.go:257-280 | whatever order the keys were visited in, the sorted bounds are 6000, ..., 0, and the level is that of the number's thousand (PANIC from 6000 on), "UNKNOWN" below 0 |
| Levels.LevelForNumber | messenger/messenger_basic.go:257-266 | the level is "UNKNOWN" exactly for a negative number, and a known level name otherwise |
| Levels.LevelMonotone | messenger/main.go:187-195 | for non-negative message numbers, a larger number never gets a lower slog level (a negative number is "UNKNOWN" and logs at PANIC) |
| Levels.InsertDescending | messenger/messenger_basic.go:276 | inserting a new key into a descending list keeps it strictly descending, with the same keys plus the new one |
| Levels.DescendingUnique | messenger/messenger_basic.go:276 | two strictly descending lists of the same numbers are equal, so the sort's result does not depend on the map's iteration order |
| Levels.SortKeysDescending | messenger/messenger_basic.go:271-276 | the keys, collected in any iteration order and sorted in reverse, are a strictly descending list of exactly those keys |
| Levels.FillLevelCache | messenger/messenger_basic.go:269-280 | a filled cache satisfies the cache invariant |
| Levels.CacheIsSortedBounds | messenger/messenger_basic.go:269-280 | a filled cache holds exactly the range bounds, greatest first |
| Levels.SlogLevelOf | messenger/messenger_basic.go:150-153 | a level name's slog level is its TextToLevelMap entry, and PANIC for a name the map lacks |
| Levels.NegativeNumberLogsAtPanic | messenger/messenger_basic.go:150-153 | a negative message number has level "UNKNOWN" and is therefore logged at PANIC |
| Details.ArgDetails | messenger/messenger_basic.go:576-617 | one argument contributes as many details as DetailCount says, all at the argument's position |
| Details.ArgDetailsShape | messenger/messenger_basic.go:578-617 | a map gives one "map[string]string" detail per entry in iteration order, each with its own key; a skipped option gives none; any other value exactly one unkeyed detail; nil a "nil" detail; an int an "integer" detail whose text is strconv.Itoa of the int, reading back as it, and whose raw value is the int; a float64 a "float" detail with its "%g" text and raw value; a string a "string" detail holding the string, raw exactly when it is JSON; a bool a "boolean" detail with "true" or "false" and its raw value; an error an "error" detail holding its cleaned message, raw exactly when that is JSON |
| Details.MapDetails | messenger/messenger_basic.go:591-604 | one detail per map entry, all at the map's position, keyed by the entry's key |
| Details.DetailsOf | messenger/messenger_basic.go:571-621 | every position lies in 1..len(details), and empty input gives an empty list |
| Details.DetailsAtPosition | messenger/messenger_basic.go:576-577 | the details at position i+1 are exactly those of argument i, whatever the other arguments contribute |
| Details.PositionsOrdered | messenger/messenger_basic.go:576-577 | positions never decrease along the list |
| Details.DetailsLength | messenger/messenger_basic.go:571-621 | the list length is the sum of the per-argument counts |
| Details.SkipIrrelevantWithoutFieldOptions | messenger/messenger_basic.go:605-608 | without message-field options the current revision's list equals the earlier one's (messenger/messenger.go:93-155) |
| Details.MessageDetails | messenger/messenger_basic.go:571-621 | the append loop yields DetailsOf the arguments |
| KeyValue.EmittedKeys | messenger/messenger_basic.go:231-251 | a key is emitted exactly when it is requested, in the table and its value is not zero |
| KeyValue.Pairs | messenger/messenger_basic.go:213-254 | the list has two entries per emitted key, so its length is even |
| KeyValue.PairsAlternate | messenger/messenger_basic.go:231-251 | keys sit at even indices and each value after its key is that key's non-zero table entry |
| KeyValue.PairsKeys | messenger/messenger_basic.go:231-251 | the keys of the list are the emitted keys, in key-list order |
| KeyValue.AbsentKeyNeverEmitted | messenger/messenger_basic.go:232-235 | a key the table lacks, such as "text", never appears |
| KeyValue.KeyEmittedOnlyIfRequested | messenger/messenger_basic.go:231-251 | a key in the list was requested, is in the table and has a non-zero value |
| KeyValue.GetKeyValuePairs | messenger/messenger_basic.go:213-254 | the loop over the keys yields Pairs with "", 0 and nil skipped |
| KeyValue.NilSliceEmittedAsWritten | messenger/messenger.go:192-195 | as written, a nil typed slice under a requested key is emitted, where the nil test would skip it |
| KeyValue.NilTestIrrelevant | messenger/messenger_basic.go:246-249 | when no requested slice value is nil, the nil test as written and the intended one give the same pairs |
| Overrides.StrFieldLastWins | messenger/messenger_basic.go:419-451 | each string field ends with the value of the last detail that assigns it, or its starting value |
| Overrides.IntFieldLastWins | messenger/messenger_basic.go:424-446 | the duration ends with the last MessageDuration or time.Duration, and callerSkip with the last OptionCallerSkip |
| Overrides.ListsCollected | messenger/messenger_basic.go:442-448 | the error list grows by the cleaned messages of the errors, and the kept details by everything but overrides and durations, errors included, in order |
| Overrides.ParseAllIsLastWriteWins | messenger/messenger_basic.go:419-451 | the walk equals the field-by-field reference definition: every field is its last assignment and the lists are collected |
| Overrides.PlainDetailsPassThrough | messenger/messenger_basic.go:447-448 | details that are neither overrides, errors nor durations pass through unchanged and in order |
| Overrides.RevisionsAgreeWithoutOptions | messenger/messenger.go:267-302 | on details without options the earlier revision's loop agrees with parseDetails |
| Overrides.KeptFromDetails | messenger/messenger_basic.go:442-448 | every kept detail is one of the details |
| Overrides.ParseDetails | messenger/messenger_basic.go:419-451 | the loop with its type switch computes ParseAll |
| Overrides.ResolveLocation | messenger/messenger_basic.go:337-346 | the location is looked up only when callerSkip > 0 and the frame is known, and is then "In f() at file:line" |
| MessengerBasic.Allowed | messenger/messenger_basic.go:292-297 | the chosen names are all in AllMessageFields, no more than there are tokens |
| MessengerBasic.AllowedKeepsFields | messenger/messenger_basic.go:292-297 | every token that names a field once trimmed is chosen |
| MessengerBasic.AllowedFromTokens | messenger/messenger_basic.go:292-297 | every chosen name is some token, trimmed |
| MessengerBasic.SelectedFields | messenger/messenger_basic.go:289-297 | a comma list selects a subset of AllMessageFields |
| MessengerBasic.NormalizeSetting | messenger/messenger_basic.go:173 | the lower-cased, trimmed setting neither starts nor ends with white space |
| MessengerBasic.DefaultFields | messenger/messenger_basic.go:282-299 | populateMessageFields always chooses a subset of AllMessageFields |
| MessengerBasic.BaseOfDefault | messenger/messenger_basic.go:175-181 | populating on first use does not change the choice |
| MessengerBasic.LastFieldsOptionWins | messenger/messenger_basic.go:196-204 | the last OptionMessageFields replaces the base list wholesale |
| MessengerBasic.NoFieldsOptionKeepsBase | messenger/messenger_basic.go:196-204 | without OptionMessageFields the base list is kept |
| MessengerBasic.AppendixHoldsFieldOptions | messenger/messenger_basic.go:200-206 | the appendix holds exactly the OptionMessageField values |
| MessengerBasic.FieldsWithoutOptions | messenger/messenger_basic.go:196-208 | without message-field options the result is the base list |
| MessengerBasic.FieldsIgnoreOtherDetail | messenger/messenger_basic.go:202-203 | a detail that is not a message-field option leaves the result alone |
| MessengerBasic.FieldsAppendOption | messenger/messenger_basic.go:200-206 | an OptionMessageField given last appends its field at the end |
| MessengerBasic.NameOf | messenger/main.go:226 | every record field's name is in AllMessageFields |
| MessengerBasic.ShownList | messenger/messenger_basic.go:469-473 | the errors are set exactly when selected and non-empty, and are then the list |
| MessengerBasic.ShownDetails | messenger/messenger_basic.go:459-463 | the details are set exactly when selected and there are remaining arguments, and are then messageDetails of them |
| MessengerBasic.FormatOf | messenger/messenger_basic.go:453-504 | errors and details are only set when "errors" and "details" are selected and the lists are non-empty |
| MessengerBasic.OnlySelectedFieldsSet | messenger/messenger_basic.go:453-504 | a field is set exactly when its name is selected and it is set in the full record |
| MessengerBasic.AllFieldsComplete | messenger/messenger_basic.go:453-504 | with every field selected the record carries all the working fields |
| MessengerBasic.SelectionBySet | messenger/messenger_basic.go:453-504 | only the set of selected names matters, and selecting none gives the empty record |
| MessengerBasic.TableOf | messenger/messenger_basic.go:216-227 | the key/value table has no "text" key and only names from AllMessageFields |
| MessengerBasic.Augmented | messenger/messenger_basic.go:319-330 | a {"text": text} map is appended exactly when the message has a template and its text is JSON |
| MessengerBasic.BuildFields | messenger/messenger_basic.go:332-346 | after the walk only the location may change |
| MessengerBasic.NoLevelOverride | messenger/messenger_basic.go:428-429 | without a MessageLevel detail the level keeps its starting value |
| MessengerBasic.SlogRecordHasLevel | messenger/messenger_basic.go:139-142 | the record NewSlogLevel builds always shows the level: the last override, else the range level |
| MessengerBasic.SlogLevelOfRange | messenger/messenger_basic.go:150-153 | without a level override the slog level is that of the message number's range, PANIC for "UNKNOWN" |
| MessengerBasic.TextDetailEntry | messenger/messenger_basic.go:325-328 | the text detail is one "text"-keyed map entry holding the cleaned text, and as raw value that text without the JSON white space around it |
| MessengerBasic.TextDetailKeptLast | messenger/messenger_basic.go:328-332 | the text detail survives parseDetails, after every other kept detail |
| MessengerBasic.JsonTextIsLastDetail | messenger/messenger_basic.go:324-329 | JSON text comes back as the last detail, at position len(kept details)+1 |
| MessengerBasic.SelectFields | messenger/messenger_basic.go:288-297 | the split-trim-filter loop yields SelectedFields |
| MessengerBasic.BasicMessenger.constructor | messenger/main.go:288-294 | the messenger holds its settings and an empty level cache |
| MessengerBasic.BasicMessenger.GetSortedIDLevelRanges | messenger/messenger_basic.go:269-280 | fills the cache only when empty, returns the range bounds in descending order, and leaves a filled cache unchanged |
| MessengerBasic.BasicMessenger.GetLevel | messenger/messenger_basic.go:257-266 | the level of the number's range, "UNKNOWN" below 0 |
| MessengerBasic.BasicMessenger.PopulateMessageFields | messenger/messenger_basic.go:282-299 | "" gives ["id","text"], "all" gives AllMessageFields, anything else the named fields |
| MessengerBasic.BasicMessenger.FindMessageFields | messenger/messenger_basic.go:167-209 | populates the list on first use, then the base list the setting picks, replaced by the last OptionMessageFields, then every OptionMessageField appended |
| MessengerBasic.ApplyFieldOptions | messenger/messenger_basic.go:196-206 | the loop over the details computes FieldsFor: the last OptionMessageFields replaces the base, and the OptionMessageField values follow in order |
| MessengerBasic.BasicMessenger.PopulateStructure | messenger/messenger_basic.go:302-353 | the record is Structure of the settings, number and details; the cache ends filled |
| MessengerBasic.BasicMessenger.NewSlogLevel | messenger/messenger_basic.go:135-161 | returns the record's text, its slog level (PANIC when unknown) and the pairs of the fields the original details select, which are the same under the nil test as written and the intended one; afterwards the level cache holds the range bounds and the field list is cached for later messages |
| MessengerBasic.SlogDetailsSetWhenSelected | messenger/messenger_basic.go:139-142 | the level option NewSlogLevel appends survives the walk, so the record's details are set, never nil, whenever "details" is a key |
| MessengerBasic.BasicNilTestIrrelevant | messenger/messenger_basic.go:157-158 | for NewSlogLevel's record, getKeyValuePairs as written gives the same pairs as the intended nil test |
| MessengerBasic.PopulateMessageFormat | messenger/messenger_basic.go:453-504 | the field-by-field record is FormatOf |
| MessengerBasic.ShowDetails | messenger/messenger_basic.go:459-463 | the details step is ShownDetails |
| MessengerBasic.ShowErrors | messenger/messenger_basic.go:469-473 | the errors step is ShownList |
| MessengerBasic.ShowDuration | messenger/messenger_basic.go:465-467 | the duration shown is the duration when selected, 0 otherwise |
| MessengerBasic.ShowField | messenger/messenger_basic.go:455-457 | a string field shown is its value when selected, "" otherwise |
| MessengerBasic.SlogPairsShape | messenger/messenger_basic.go:157-158 | NewSlogLevel's pairs never carry "text" and alternate keys with their non-zero values in key order |
| MessengerNew.Validate | messenger/main.go:274-284 | ErrBadComponentID exactly when the id is out of 1..9999, then ErrEmptyMessages for a nil message map, then ErrEmptyStatuses for a nil status map; success keeps the maps |
| MessengerNew.OptionsLastWriteWins | messenger/main.go:254-270 | every setting is its last pointer option, or its default; the template follows the later of OptionComponentID and OptionMessageIDTemplate |
| MessengerNew.UnrecognisedOptionIgnored | messenger/main.go:254-270 | options passed by value and values of other types change nothing |
| MessengerNew.ComponentTemplate | messenger/main.go:258-260 | a component id in range gives "SZSDK", its four digits, then "%04d" |
| MessengerNew.NewWithoutOptions | messenger/main.go:243-250 | with no options New succeeds with empty maps, no field list and the template "SZSDK9999%04d" |
| MessengerNew.NewValidationOrder | messenger/main.go:274-284 | the checks run on the final settings in the order component id, messages, statuses |
| MessengerNew.ProcessOptions | messenger/main.go:254-270 | the option loop computes ApplyOptions |
| MessengerNew.New | messenger/main.go:236-296 | an error and no messenger when validation fails, else a fresh messenger with the settings and an empty cache |
| MessengerSimple.SimpleFormat | messenger/messenger.go:320-334 | no code or reason; errors set exactly when there are some; details set exactly when details remain, as messageDetails of them |
| MessengerSimple.SimpleTableOf | messenger/messenger.go:165-174 | the table has no text, code or reason, and holds every key NewSlogLevel asks for |
| MessengerSimple.SimplePairsShape | messenger/messenger.go:419-427 | the pairs never carry "level" or "text", alternate keys with non-zero values, and follow the fixed key order |
| MessengerSimple.NoOptionsAugmented | messenger/messenger.go:250-260 | appending the text detail adds no option |
| MessengerSimple.AllFieldsFormatIsSimple | messenger/messenger.go:320-334 | with every field selected and no code or reason, the current revision's record is this one's |
| MessengerSimple.PlainWalk | messenger/messenger.go:267-302 | on details without options the walk leaves code and reason empty and keeps no option |
| MessengerSimple.RevisionsAgreeOnAllFields | messenger/messenger.go:225-336 | on details without options both revisions build the same record when the current one shows all fields |
| MessengerSimple.NoOverrideKeeps | messenger/messenger.go:267-302 | without options no string field is overridden |
| MessengerSimple.ComposeResult | messenger/messenger.go:320-334 | the record step computes SimpleFormat |
| MessengerSimple.SimpleMessenger.constructor | messenger/messenger.go:23-29 | the messenger holds its settings and an empty level cache |
| MessengerSimple.SimpleMessenger.GetSortedIDLevelRanges | messenger/messenger.go:213-222 | fills the cache only when empty, returns the bounds in descending order, and leaves a filled cache unchanged |
| MessengerSimple.SimpleMessenger.GetLevel | messenger/messenger.go:202-210 | the level of the number's range, "UNKNOWN" below 0 |
| MessengerSimple.SimpleMessenger.PopulateStructure | messenger/messenger.go:225-336 | the record is SimpleStructure of the settings, number and details |
| MessengerSimple.SimpleMessenger.NewSlogLevel | messenger/messenger.go:403-429 | the text, the slog level (PANIC when unknown) and the pairs of id, status, duration, location, errors, details; afterwards the level cache holds the range bounds |
| AppMessage.AppJsonAsInterface | appmessage/appmessage.go:104-112 | the json.RawMessage is an infix of the unquoted text (when the text is a quoted Go string) or of the text itself (otherwise), with only JSON white space dropped around it; it neither starts nor ends with white space, and is the whole, valid, text when there is none around it |
| AppMessage.UnquoteFallback | appmessage/appmessage.go:95-102 | text that does not unquote is judged as it stands, and then, without tabs or newlines, exactly as the later isJSON judges it |
| AppMessage.Stringify | appmessage/appmessage.go:114-138 | nil gives "<nil>", a string itself, an int its "%d" form (strconv.Itoa, no leading zero), a bool "true" or "false", an error its message |
| AppMessage.StringifyAgreesWithInterfaceAsString | appmessage/appmessage.go:114-138 | stringify agrees with the later interfaceAsString except on JSON strings and on errors with tabs or newlines |
| AppMessage.TextValue | appmessage/appmessage.go:154-159 | a string is stored as raw JSON exactly when isJson accepts it, as its unquoted value without surrounding white space, else as itself |
| AppMessage.MergeLastWins | appmessage/appmessage.go:167-175 | a string map's key gets the value of its last entry, overwriting what was stored; other keys keep their values |
| AppMessage.KeysArePositions | appmessage/appmessage.go:146-185 | without string maps every key is exactly Itoa of the 1-based position of a non-error argument (no leading zeros) |
| AppMessage.PositionEntry | appmessage/appmessage.go:146-165 | without string maps, strconv.Itoa(i+1) is a key exactly when argument i is not an error, and holds its value |
| AppMessage.EmptyBecomesNil | appmessage/appmessage.go:187-189 | without string maps the result is nil exactly when every argument is an error |
| AppMessage.MergeMap | appmessage/appmessage.go:168-175 | the inner loop over a string map computes MergeEntries |
| AppMessage.MessageDetails | appmessage/appmessage.go:140-192 | the type-switch loop yields AppMessageDetails of the arguments |
| AppMessage.AppWalkIsLastWriteWins | appmessage/appmessage.go:305-350 | each field is its last override; a time.Duration sets the duration; errors go to the error list and the details; everything else stays a detail, in order |
| AppMessage.AppStructureResolved | appmessage/appmessage.go:258-389 | the record field by field: last overrides or derived values, the caller frame whenever found, errors present exactly when some detail is an error, details present exactly when some detail remains |
| AppMessage.SpreadDetailsPositioned | appmessage/appmessage.go:384-386 | with the kept details spread, the kept argument at index i sits under strconv.Itoa(i+1) with its value |
| AppMessage.UnspreadCallSingleEntry | appmessage/appmessage.go:384-386 | as written, the details map has the one key "1", holding the %#v rendering of the whole slice |
| AppMessage.UnspreadCallLosesPositions | appmessage/appmessage.go:385 | for the details "a", "b" the call as written gives the keys {"1"}, the spread call {"1","2"} |
| AppMessage.AppTextWithoutOverride | appmessage/appmessage.go:285-289 | without a text override the text is nil exactly when the number has no template, else the rendering cut at "%!(" |
| AppMessage.NilStatusMapLeavesStatusEmpty | appmessage/appmessage.go:293-298 | a nil status map, with no status override, leaves the status empty |
| AppMessage.LocationUngated | appmessage/appmessage.go:360-367 | this revision looks the frame up whatever callerSkip is; for a positive callerSkip it agrees with the later revisions |
| AppMessage.DateRendering | appmessage/appmessage.go:354 | the date is ten characters YYYY-MM-DD whose digit groups read back as year, month and day |
| AppMessage.ClockRendering | appmessage/appmessage.go:355 | the time is HH:MM:SS.NNNNNNNNN whose digit groups read back as the clock |
| AppMessage.AppTableOf | appmessage/appmessage.go:200-210 | the table has no "text" key and holds every key NewSlog asks for |
| AppMessage.AppPairsShape | appmessage/appmessage.go:214-233 | the pairs never carry "text", and alternate keys with non-zero values in key order |
| AppMessage.AppSlogOmitsDate | appmessage/appmessage.go:441-450 | NewSlog's pairs never carry the date |
| AppMessage.AppSlogLevelOmitsLevel | appmessage/appmessage.go:468-477 | NewSlogLevel's pairs never carry the level |
| AppMessage.NoTemplatePanics | appmessage/appmessage.go:451 | without a template or text override the text is not a string, so the type assertion fails |
| AppMessage.ApplyArg | appmessage/appmessage.go:307-349 | one pass of the type switch computes AppApply |
| AppMessage.ComposeAppResult | appmessage/appmessage.go:369-388 | the record step, with the details spread, computes AppFormatOf |
| AppMessage.AppMessageImpl.constructor | appmessage/main.go:189-194 | the messenger holds its settings and an empty level cache |
| AppMessage.AppMessageImpl.GetSortedIDLevelRanges | appmessage/appmessage.go:247-256 | fills the cache only when empty, returns the bounds in descending order, and leaves a filled cache unchanged |
| AppMessage.AppMessageImpl.GetLevel | appmessage/appmessage.go:237-245 | the level of the number's range, "UNKNOWN" below 0 |
| AppMessage.AppMessageImpl.PopulateStructure | appmessage/appmessage.go:258-389 | the override loop and record step compute AppStructure |
| AppMessage.AppMessageImpl.NewSlog | appmessage/appmessage.go:439-452 | fails exactly when the text is not a string; otherwise returns the text and the pairs of level, id, status, duration, location, errors, details; afterwards the level cache holds the range bounds |
| AppMessage.AppMessageImpl.NewSlogLevel | appmessage/appmessage.go:466-487 | fails exactly when the text is not a string; otherwise returns the text, the slog level (PANIC when unknown) and the pairs without the level; afterwards the level cache holds the range bounds |
| AppMessageMain.AppNewValidation | appmessage/main.go:167-175 | a product id out of 1..9999 is rejected first, then a nil message map; a nil status map is accepted and kept |
| AppMessageMain.ProductTemplateDigits | appmessage/main.go:192 | the template is "senzing-", the product id as exactly four digits, then "%04d" |
| AppMessageMain.OptionSkipLastWins | appmessage/main.go:179-185 | the last AppMessageOptionCallerSkip decides callerSkip; other options do not count |
| AppMessageMain.NoOptionSkipIsZero | appmessage/main.go:179-185 | without a caller-skip option callerSkip stays 0 |
| AppMessageMain.New | appmessage/main.go:161-197 | an error and no messenger when validation fails, else a fresh messenger with the settings and an empty cache |
| AppMessageMain.HandlerLevel | appmessage/main.go:204-206 | a nil leveler becomes LevelInfoSlog; any other is kept |
| AppMessageMain.DefaultHandlerLevels | appmessage/main.go:204-208 | with a nil leveler INFO and above are logged, TRACE and DEBUG are not |
| AppMessageMain.ReplaceAttrKeys | appmessage/main.go:209-231 | the message key becomes "text"; other keys pass through; a level string other than the three rewritten ones is unchanged |
| AppMessageMain.LevelStrings | appmessage/main.go:218-219 | slog's names of the seven levels: DEBUG-4, DEBUG, INFO, WARN, ERROR, ERROR+4, ERROR+8 |
| AppMessageMain.LevelsPrintedByName | appmessage/main.go:213-229 | every one of the seven levels prints under its own name, TRACE, FATAL and PANIC included |
| Parser.InitError | parser/parser.go:42-48 | "string is not JSON" exactly when the JSON test fails; otherwise no error exactly when decoding succeeds |
| Parser.ParserImpl.constructor | parser/parser.go:17-22 | a new parser holds its message and Go's zero values |
| Parser.ParserImpl.Initialize | parser/parser.go:42-54 | stores the error it returns; becomes JSON when there is none; decodes only text that passes the JSON test; never changes the message |
| Parser.ParserImpl.GetDetails | parser/parser.go:67-78 | never nil: empty unless the details are a JSON object, then one entry per key holding fmt.Sprint of its value |
| Parser.ParserImpl.GetErrors | parser/parser.go:98-109 | never nil: empty unless the errors are a JSON array, then fmt.Sprint of each element in order |
| Parser.ParserImpl.GetText | parser/parser.go:199-205 | "" when the text is nil, the string itself when it is a string |
| Parser.ParserImpl.GetMessageText | parser/parser.go:162-168 | the text when it is non-empty, the raw message otherwise; so a non-empty message never gives "" |
| Parser.ParserImpl.GetTime | parser/parser.go:214-225 | the zero time when the time field is empty or does not parse, the parsed time otherwise |
| Parser.ParseMessage | parser/parser.go:42-54 | a parser built for the message and then initialized keeps its message and is JSON exactly when there was no error; non-JSON text gives "string is not JSON", the raw message as text and the zero time |

## Left out

- JSON output is not modelled: `NewJSON`/`NewJson`, `NewError`, `encoding/json` marshalling, HTML-escape suppression and the trimming of the encoder output. The records are modelled at field level.
- `NewSlog` of the two messenger revisions (messenger/messenger_basic.go:117-121, messenger/messenger.go:386-389) is not modelled separately. It returns `NewSlogLevel`'s text and pairs without the level.
- These Go runtime services are uninterpreted parameters, so properties hold for every behaviour of them:
  - the JSON syntax check (RFC 8259);
  - `strconv.Unquote`;
  - `fmt.Sprintf` template rendering, `%g`, `%#v` and reflect type names;
  - `runtime.Caller` with its regexp rewrite;
  - `strings.ToLower`;
  - RFC 3339 time formatting and parsing.
- `os.Getenv("SENZING_MESSAGE_FIELDS")` and `time.Now` are parameters.
- Go map iteration order is unspecified. A `map[string]string` argument is a sequence of entries in the runtime's order, so every order is covered. The level-range keys are visited in an arbitrary order and proved to sort to the same list.
- Two goroutines filling the level cache at the same time is not modelled; the cache is modelled sequentially.
- Integer widths are unbounded: `int32` positions and `int64` durations do not wrap.
- Go's `float64` is a `real`: there is no NaN, infinity or rounding. The core only stores floats and renders them through `formatFloat`, so no property depends on it.
- Only the slog handler's minimum level and its `ReplaceAttr` closure are modelled. Handler construction and attribute groups are left out. `slog.Level.String` is modelled for integer levels.
- In appmessage, `populateStructure` fills a `Date` field and `getKeyValuePairs` reads a "date" key. AppMessageFormat (appmessage/main.go:41-51) declares no such field. The model follows appmessage/appmessage.go and gives the record a date.
- appmessage/appmessage.go:308 switches on `*AppMessageCallerSkip`, which appmessage/main.go does not declare. appmessage/main.go declares `AppMessageOptionCallerSkip` for `New`. The model keeps the two types distinct, so New's option among the details stays a detail.
- The appmessage clock takes seconds and nanoseconds from the local time and the other fields from UTC. The model gives all of them from one UTC instant.
- parser/parser.go reads `Text`, `Errors` and `Details` as interface values and reads `Id`. messenger.MessageFormat (messenger/main.go:31-43) declares `Text string`, `ID` and `Details []Detail`. The model follows parser.go and decodes into its own record of JSON values. `json.Unmarshal`, `fmt.Sprint` of numbers, arrays and objects, and `time.Parse` are parameters.
- `GetTime` prints a parse error with `fmt.Println` (parser/parser.go:220); that output is I/O and is left out.
- The parser's plain field getters (`GetDuration`, `GetId`, `GetLevel`, `GetLocation`, `GetParseError`, `GetStatus`) are modelled by the class's fields. `GetMessage` and `IsJson` are field reads, and their meaning is stated by `Parser.ParseMessage`.
- parser/main.go (`Parse` into typedef.SenzingMessage), the generated type files under rust/ and csharp/, and the demo programs main.go and main.py are not part of this model.
- AppMessage.AppTableOf: the empty details map that `messageDetails` turns into a nil map (appmessage/appmessage.go:187-189) is boxed into `interface{}` and would be emitted like the nil details slice of the finding below. The model judges it with the intended nil test.

- Time zones are not modelled. An `Instant` carries no location, and `h.formatTime` renders it. So a `MessageTime` option (messenger/messenger_basic.go:439, messenger/messenger.go:283) is formatted in whatever zone `formatTime` chooses, where Go formats the `time.Time` in its own location; only the default clock is converted to UTC first.
- Values.JsonAsInterface: when the cleaned text has JSON white space around the value, the contract says the raw message is that text trimmed, but not that the trimmed text is itself valid JSON. The JSON grammar is a `Host` parameter, so nothing links its verdict on the text to its verdict on the trimmed text.
- AppMessage.AppJsonAsInterface: likewise, valid JSON is stated only for an unquoted text without surrounding white space.
- MessengerBasic.SlogPairsShape: states the shape for an arbitrary record under the intended nil test. For the records `BasicMessenger.NewSlogLevel` builds, the two tests agree (`MessengerBasic.BasicNilTestIrrelevant`).
- MessengerSimple.SimpleMessenger.NewSlogLevel: states the corrected pairs of the first finding below. A nil details slice is skipped; as written (`KeyValue.NilSliceEmittedAsWritten`), "details" followed by nil is emitted for a message without details.
- MessengerSimple.SimplePairsShape: states the corrected pairs of the first finding below.
- AppMessage.ComposeAppResult: states the record with the corrected, spread call of the second finding below. As written, the details map has the single key "1" (`AppMessage.AppStructureAsWritten`, `AppMessage.UnspreadCallSingleEntry`).
- AppMessage.AppMessageImpl.PopulateStructure: computes the record of the corrected, spread call of the second finding below.
- AppMessage.AppMessageImpl.NewSlog: returns the pairs of the corrected, spread call of the second finding below.
- AppMessage.AppMessageImpl.NewSlogLevel: returns the pairs of the corrected, spread call of the second finding below.
- AppMessage.AppPairsShape: states the pairs under the intended nil test, as `AppMessage.AppTableOf` above: an empty details map is skipped, where as written it would be emitted.

## Findings

| source | as written | input that shows it | evidently intended | confidence | as-written member | corrected member |
|---|---|---|---|---|---|---|
| messenger/messenger.go:163-196 | `Details` is a typed slice ([]Detail) left nil when no details remain (messenger.go:332-334); stored in a `map[string]interface{}`, a nil slice is a non-nil interface value, so `typedValue != nil` holds and the key is emitted with a nil value (`Errors` is an `interface{}` set only when non-empty, so it is skipped correctly; in messenger_basic.go the level option NewSlogLevel appends keeps `Details` non-nil) | SimpleMessenger.NewSlogLevel(n) with no details: the pairs contain "details" followed by a nil slice | a nil slice is skipped like "" and 0, as the skip test intends | medium, not executed | KeyValue.NilSliceEmittedAsWritten | KeyValue.GetKeyValuePairs |
| appmessage/appmessage.go:385 | `messageDetails(filteredDetails)` passes the kept details as one slice argument, not spread | details "a", "b": the map has only the key "1", holding the slice's `%#v` rendering | `messageDetails(filteredDetails...)`: one position-keyed entry per kept detail, "1" and "2" | high, not executed | AppMessage.UnspreadCallLosesPositions | AppMessage.SpreadDetailsPositioned |
