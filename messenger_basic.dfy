/**
 * The current messenger revision (messenger_basic.go): BasicMessenger turns a
 * message number and its details into a MessageFormat record and into the
 * key/value list of a structured logger. Which fields the record carries is
 * chosen by the SENZING_MESSAGE_FIELDS setting, by the fields given to New
 * and by message-field options among the details.
 */
module MessengerBasic {

  import opened Wrappers
  import opened StringUtil
  import opened Levels
  import opened Values
  import opened Details
  import opened Overrides
  import opened KeyValue

  /** What a BasicMessenger is created with: all its fields but the level cache. */
  datatype Setup = Setup(
    callerSkip: int,
    idMessages: map<int, string>,
    idStatuses: map<int, string>,
    messageFields: Option<seq<string>>,
    messageIDTemplate: string)

  // ---------------------------------------------------------------------------
  // Choosing the fields
  // ---------------------------------------------------------------------------

  /** The trimmed tokens that name a message field, in input order. */
  function Allowed(tokens: seq<string>): (r: seq<string>)
    ensures forall x :: x in r ==> x in AllMessageFields
    ensures |r| <= |tokens|
  {
    if tokens == [] then []
    else
      var t := TrimSpace(tokens[|tokens| - 1]);
      Allowed(tokens[..|tokens| - 1]) + (if t in AllMessageFields then [t] else [])
  }

  /** Every token that, trimmed, names a field is chosen. */
  lemma {:induction false} AllowedKeepsFields(tokens: seq<string>)
    ensures forall i :: 0 <= i < |tokens| && TrimSpace(tokens[i]) in AllMessageFields ==>
      TrimSpace(tokens[i]) in Allowed(tokens)
  {
    if tokens != [] {
      var init := tokens[..|tokens| - 1];
      AllowedKeepsFields(init);
      forall i | 0 <= i < |tokens| - 1 && TrimSpace(tokens[i]) in AllMessageFields
        ensures TrimSpace(tokens[i]) in Allowed(tokens)
      {
        assert init[i] == tokens[i];
      }
    }
  }

  /** Nothing but trimmed tokens is chosen. */
  lemma {:induction false} AllowedFromTokens(tokens: seq<string>, x: string)
    requires x in Allowed(tokens)
    ensures exists i :: 0 <= i < |tokens| && TrimSpace(tokens[i]) == x
  {
    var init := tokens[..|tokens| - 1];
    if x in Allowed(init) {
      AllowedFromTokens(init, x);
      var i :| 0 <= i < |init| && TrimSpace(init[i]) == x;
      assert init[i] == tokens[i];
    } else {
      assert TrimSpace(tokens[|tokens| - 1]) == x;
    }
  }

  /** A comma-separated setting such as "id, text,level": its known field names. */
  function SelectedFields(setting: string): (r: seq<string>)
    ensures forall x :: x in r ==> x in AllMessageFields
  {
    Allowed(Split(setting, ','))
  }

  /** The setting as read: SENZING_MESSAGE_FIELDS lower-cased and trimmed. */
  function NormalizeSetting(h: Host, env: string): (setting: string)
    ensures setting == [] || (!IsSpace(setting[0]) && !IsSpace(setting[|setting| - 1]))
  {
    TrimSpace(h.toLower(env))
  }

  /**
   * populateMessageFields' choice: "id" and "text" when the setting is empty,
   * every field for "all", and otherwise the named fields.
   */
  function DefaultFields(setting: string): (r: seq<string>)
    ensures forall x :: x in r ==> x in AllMessageFields
  {
    if |setting| == 0 then ["id", "text"]
    else if setting == "all" then AllMessageFields
    else SelectedFields(setting)
  }

  /** The messenger's field list once populated: the configured one, or the default. */
  function ConfiguredFields(configured: Option<seq<string>>, setting: string): seq<string>
  {
    match configured
    case None => DefaultFields(setting)
    case Some(fields) => fields
  }

  /**
   * The list findMessageFields starts from: the messenger's own list for an
   * empty setting, and what the setting names otherwise.
   */
  function BaseFields(setting: string, configured: seq<string>): seq<string>
  {
    if |setting| == 0 then configured
    else if setting == "all" then AllMessageFields
    else SelectedFields(setting)
  }

  /** Populating on first use does not change the choice: the base is then the default. */
  lemma BaseOfDefault(setting: string)
    ensures BaseFields(setting, DefaultFields(setting)) == DefaultFields(setting)
    ensures forall x :: x in BaseFields(setting, DefaultFields(setting)) ==> x in AllMessageFields
  {
  }

  predicate IsFieldsOption(a: Arg)
  {
    a.Opt? && !a.byPointer && a.option.OptionMessageFields?
  }

  predicate IsFieldOptionFor(a: Arg, x: string)
  {
    a == Opt(OptionMessageField(x), false)
  }

  /** The list of the last OptionMessageFields among the details, or the base. */
  function LastFieldsOption(details: seq<Arg>, base: seq<string>): seq<string>
  {
    if details == [] then base
    else
      var a := details[|details| - 1];
      if IsFieldsOption(a) then a.option.fields
      else LastFieldsOption(details[..|details| - 1], base)
  }

  /** The values of the OptionMessageField details, in order. */
  function FieldAppendix(details: seq<Arg>): seq<string>
  {
    if details == [] then []
    else
      var a := details[|details| - 1];
      FieldAppendix(details[..|details| - 1])
      + (if a.Opt? && !a.byPointer && a.option.OptionMessageField? then [a.option.field] else [])
  }

  /** findMessageFields' result. */
  function FieldsFor(base: seq<string>, details: seq<Arg>): seq<string>
  {
    LastFieldsOption(details, base) + FieldAppendix(details)
  }

  /** The last OptionMessageFields replaces the base wholesale. */
  lemma {:induction false} LastFieldsOptionWins(details: seq<Arg>, base: seq<string>, i: int)
    requires 0 <= i < |details| && IsFieldsOption(details[i])
    requires forall j :: i < j < |details| ==> !IsFieldsOption(details[j])
    ensures LastFieldsOption(details, base) == details[i].option.fields
  {
    if i < |details| - 1 {
      var init := details[..|details| - 1];
      assert init[i] == details[i];
      LastFieldsOptionWins(init, base, i);
    }
  }

  /** Without any OptionMessageFields the base is kept. */
  lemma {:induction false} NoFieldsOptionKeepsBase(details: seq<Arg>, base: seq<string>)
    requires forall j :: 0 <= j < |details| ==> !IsFieldsOption(details[j])
    ensures LastFieldsOption(details, base) == base
  {
    if details != [] {
      var init := details[..|details| - 1];
      assert forall j :: 0 <= j < |init| ==> init[j] == details[j];
      NoFieldsOptionKeepsBase(init, base);
    }
  }

  /** Every OptionMessageField value is appended, and nothing else is. */
  lemma {:induction false} AppendixHoldsFieldOptions(details: seq<Arg>)
    ensures forall x :: x in FieldAppendix(details) <==>
      exists j :: 0 <= j < |details| && IsFieldOptionFor(details[j], x)
  {
    if details != [] {
      var init := details[..|details| - 1];
      AppendixHoldsFieldOptions(init);
      assert forall j :: 0 <= j < |init| ==> init[j] == details[j];
      forall x | exists j :: 0 <= j < |details| && IsFieldOptionFor(details[j], x)
        ensures x in FieldAppendix(details)
      {
        var j :| 0 <= j < |details| && IsFieldOptionFor(details[j], x);
        if j < |init| {
          assert IsFieldOptionFor(init[j], x);
        }
      }
    }
  }

  /** Without any message-field option the base list is the result. */
  lemma {:induction false} FieldsWithoutOptions(base: seq<string>, details: seq<Arg>)
    requires forall j :: 0 <= j < |details| ==> !IsFieldOption(details[j])
    ensures FieldsFor(base, details) == base
  {
    if details != [] {
      var init := details[..|details| - 1];
      assert forall j :: 0 <= j < |init| ==> init[j] == details[j];
      FieldsWithoutOptions(base, init);
    }
  }

  /** A detail that is not a message-field option leaves the choice of fields alone. */
  lemma FieldsIgnoreOtherDetail(base: seq<string>, details: seq<Arg>, a: Arg)
    requires !IsFieldOption(a)
    ensures FieldsFor(base, details + [a]) == FieldsFor(base, details)
  {
    assert (details + [a])[..|details|] == details;
  }

  /** An OptionMessageField appended last adds its field at the end. */
  lemma FieldsAppendOption(base: seq<string>, details: seq<Arg>, x: string)
    ensures FieldsFor(base, details + [Opt(OptionMessageField(x), false)]) == FieldsFor(base, details) + [x]
  {
    assert (details + [Opt(OptionMessageField(x), false)])[..|details|] == details;
  }

  // ---------------------------------------------------------------------------
  // The record
  // ---------------------------------------------------------------------------

  /** The fields of a record, by the names AllMessageFields gives them. */
  datatype FieldName =
    | TimeName | LevelName | IdName | TextName | CodeName | ReasonName
    | StatusName | DurationName | LocationName | ErrorsName | DetailsName

  function NameOf(n: FieldName): (name: string)
    ensures name in AllMessageFields
  {
    match n
    case TimeName => "time"
    case LevelName => "level"
    case IdName => "id"
    case TextName => "text"
    case CodeName => "code"
    case ReasonName => "reason"
    case StatusName => "status"
    case DurationName => "duration"
    case LocationName => "location"
    case ErrorsName => "errors"
    case DetailsName => "details"
  }

  /** Whether the named field is set (non-zero, non-nil) in a record. */
  predicate IsSet(m: MessageFormat, n: FieldName)
  {
    match n
    case TimeName => m.time != ""
    case LevelName => m.level != ""
    case IdName => m.id != ""
    case TextName => m.text != ""
    case CodeName => m.code != ""
    case ReasonName => m.reason != ""
    case StatusName => m.status != ""
    case DurationName => m.duration != 0
    case LocationName => m.location != ""
    case ErrorsName => m.errors.Some?
    case DetailsName => m.details.Some?
  }

  /** A string field as shown: its value when selected, "" otherwise. */
  function Shown(selected: bool, value: string): string
  {
    if selected then value else ""
  }

  /** The duration as shown: its value when selected, 0 otherwise. */
  function ShownDuration(selected: bool, value: int): int
  {
    if selected then value else 0
  }

  /** A list field as shown: nil unless selected and non-empty. */
  function ShownList<T>(selected: bool, value: seq<T>): (r: Option<seq<T>>)
    ensures r.Some? <==> selected && value != []
    ensures r.Some? ==> r.value == value
  {
    if selected && |value| > 0 then Some(value) else None
  }

  /** The details field as shown: the details of the remaining arguments, nil unless selected and non-empty. */
  function ShownDetails(h: Host, selected: bool, args: seq<Arg>): (r: Option<seq<Detail>>)
    ensures r.Some? <==> selected && args != []
    ensures r.Some? ==> r.value == DetailsOf(h, args, true)
  {
    match ShownList(selected, args)
    case None => None
    case Some(ds) => Some(DetailsOf(h, ds, true))
  }

  /**
   * populateMessageFormat's record: each field comes from the working fields
   * when its name is selected; errors and details are also left nil when
   * there are none.
   */
  function FormatOf(h: Host, f: Fields, fields: seq<string>): (r: MessageFormat)
    ensures r.errors.Some? ==> "errors" in fields && r.errors.value == f.errorList != []
    ensures r.details.Some? ==>
      ("details" in fields && f.filteredDetails != [] && r.details.value == DetailsOf(h, f.filteredDetails, true))
  {
    MessageFormat(
      Shown("time" in fields, f.timeNow),
      Shown("level" in fields, f.level),
      Shown("id" in fields, f.id),
      Shown("text" in fields, f.text),
      Shown("code" in fields, f.code),
      Shown("reason" in fields, f.reason),
      Shown("status" in fields, f.status),
      ShownDuration("duration" in fields, f.duration),
      Shown("location" in fields, f.location),
      ShownList("errors" in fields, f.errorList),
      ShownDetails(h, "details" in fields, f.filteredDetails))
  }

  /** Selecting fields only blanks: a field is set exactly when it is selected and set in the full record. */
  lemma OnlySelectedFieldsSet(h: Host, f: Fields, fields: seq<string>, n: FieldName)
    ensures IsSet(FormatOf(h, f, fields), n) <==> NameOf(n) in fields && IsSet(FormatOf(h, f, AllMessageFields), n)
  {
  }

  /** With every field selected the record carries all the working fields. */
  lemma AllFieldsComplete(h: Host, f: Fields)
    ensures var r := FormatOf(h, f, AllMessageFields);
      && r.time == f.timeNow && r.level == f.level && r.id == f.id && r.text == f.text
      && r.code == f.code && r.reason == f.reason && r.status == f.status
      && r.duration == f.duration && r.location == f.location
      && (r.errors.Some? <==> f.errorList != []) && (r.details.Some? <==> f.filteredDetails != [])
  {
  }

  /** Nothing selected gives the empty record; only the set of names matters, not order or repeats. */
  lemma SelectionBySet(h: Host, f: Fields, a: seq<string>, b: seq<string>)
    requires forall x :: x in a <==> x in b
    ensures FormatOf(h, f, a) == FormatOf(h, f, b)
    ensures FormatOf(h, f, []) == EmptyMessage
  {
  }

  /** The key/value table of getKeyValuePairs: every field but "text". */
  function TableOf(m: MessageFormat): (t: map<string, KvValue<Payload>>)
    ensures "text" !in t
    ensures forall k :: k in t ==> k in AllMessageFields
  {
    map[
      "code" := KvString(m.code),
      "details" := KvSlice(match m.details case None => None case Some(ds) => Some(DetailList(ds))),
      "duration" := KvInt64(m.duration),
      "errors" := KvInterface(match m.errors case None => None case Some(es) => Some(ErrorList(es))),
      "id" := KvString(m.id),
      "level" := KvString(m.level),
      "location" := KvString(m.location),
      "reason" := KvString(m.reason),
      "status" := KvString(m.status),
      "time" := KvString(m.time)]
  }

  // ---------------------------------------------------------------------------
  // Building a message
  // ---------------------------------------------------------------------------

  /** The rendered template cut before fmt's first error marker, "" for an unknown number. */
  function TextOf(h: Host, s: Setup, n: int, details: seq<Arg>): string
  {
    if n in s.idMessages then TextBeforeMarker(h.sprintf(s.idMessages[n], details)) else ""
  }

  /** The text again as a detail: the map {"text": text} (fmt "%+v" of a string is the string). */
  function TextDetail(text: string): Arg
  {
    StringMap([("text", text)])
  }

  /** The details after text rendering: those given, then the text detail when the text is JSON. */
  function Augmented(h: Host, s: Setup, n: int, details: seq<Arg>): (r: seq<Arg>)
    ensures r == details || r == details + [TextDetail(TextOf(h, s, n, details))]
    ensures r != details <==> n in s.idMessages && IsJSON(h, TextOf(h, s, n, details))
  {
    if n in s.idMessages && IsJSON(h, TextOf(h, s, n, details)) then details + [TextDetail(TextOf(h, s, n, details))]
    else details
  }

  /** The working fields before the details are walked. */
  function StartFields(h: Host, s: Setup, n: int, now: string, details: seq<Arg>): Fields
  {
    Fields("", 0, h.sprintf(s.messageIDTemplate, [Int(n)]), LevelForNumber(n), "", "",
           if n in s.idStatuses then s.idStatuses[n] else "",
           TextOf(h, s, n, details), s.callerSkip, [], now, [])
  }

  /** Walking the details, then the location lookup. */
  function BuildFields(h: Host, rev: Revision, start: Fields, details: seq<Arg>): (f: Fields)
    ensures f == ParseAll(h, rev, start, details).(location := f.location)
  {
    var p := ParseAll(h, rev, start, details);
    p.(location := ResolveLocation(h, p.callerSkip, p.location))
  }

  /** The fields a message with these details shows. */
  function SelectedFor(h: Host, s: Setup, env: string, details: seq<Arg>): seq<string>
  {
    var setting := NormalizeSetting(h, env);
    FieldsFor(BaseFields(setting, ConfiguredFields(s.messageFields, setting)), details)
  }

  /** populateStructure's record. */
  function Structure(h: Host, s: Setup, env: string, now: string, n: int, details: seq<Arg>): MessageFormat
  {
    var all := Augmented(h, s, n, details);
    FormatOf(h, BuildFields(h, Basic, StartFields(h, s, n, now, details), all), SelectedFor(h, s, env, all))
  }

  /** The detail NewSlogLevel adds so that the level is always computed. */
  const LevelFieldOption: Arg := Opt(OptionMessageField("level"), false)

  /** The level field of the record is always shown for NewSlogLevel: the last override, else the range level. */
  lemma SlogRecordHasLevel(h: Host, s: Setup, env: string, now: string, n: int, details: seq<Arg>)
    ensures var d := details + [LevelFieldOption];
      Structure(h, s, env, now, n, d).level
      == LastStr(h, Basic, LevelField, Augmented(h, s, n, d), LevelForNumber(n))
  {
    var d := details + [LevelFieldOption];
    var all := Augmented(h, s, n, d);
    var setting := NormalizeSetting(h, env);
    var base := BaseFields(setting, ConfiguredFields(s.messageFields, setting));
    FieldsAppendOption(base, details, "level");
    if all != d {
      FieldsIgnoreOtherDetail(base, d, TextDetail(TextOf(h, s, n, d)));
    }
    var sel := SelectedFor(h, s, env, all);
    assert "level" in sel;
    var start := StartFields(h, s, n, now, d);
    var f := BuildFields(h, Basic, start, all);
    StrFieldLastWins(h, Basic, start, all, LevelField);
    assert f.level == LastStr(h, Basic, LevelField, all, LevelForNumber(n));
    assert Structure(h, s, env, now, n, d) == FormatOf(h, f, sel);
  }

  /** Without a level override the slog level is that of the message number's range. */
  lemma SlogLevelOfRange(h: Host, s: Setup, env: string, now: string, n: int, details: seq<Arg>)
    requires forall i :: 0 <= i < |details| ==> !(details[i].Opt? && !details[i].byPointer && details[i].option.MessageLevel?)
    ensures SlogLevelOf(Structure(h, s, env, now, n, details + [LevelFieldOption]).level)
      == SlogLevelOf(LevelForNumber(n))
  {
    var d := details + [LevelFieldOption];
    SlogRecordHasLevel(h, s, env, now, n, details);
    NoLevelOverride(h, details, LevelForNumber(n));
    LastStrSkips(h, details, LevelFieldOption, LevelForNumber(n));
    if Augmented(h, s, n, d) != d {
      LastStrSkips(h, d, TextDetail(TextOf(h, s, n, d)), LevelForNumber(n));
    }
  }

  /** A detail that assigns no level leaves the last level as it was. */
  lemma LastStrSkips(h: Host, details: seq<Arg>, a: Arg, start: string)
    requires PickStr(h, Basic, LevelField, a).None?
    ensures LastStr(h, Basic, LevelField, details + [a], start) == LastStr(h, Basic, LevelField, details, start)
  {
    assert (details + [a])[..|details|] == details;
  }

  lemma {:induction false} NoLevelOverride(h: Host, details: seq<Arg>, start: string)
    requires forall i :: 0 <= i < |details| ==> !(details[i].Opt? && !details[i].byPointer && details[i].option.MessageLevel?)
    ensures LastStr(h, Basic, LevelField, details, start) == start
  {
    if details != [] {
      var init := details[..|details| - 1];
      assert forall i :: 0 <= i < |init| ==> init[i] == details[i];
      NoLevelOverride(h, init, start);
    }
  }

  /**
   * The text detail of JSON text is one "text"-keyed entry holding the
   * cleaned text, and as its raw value the JSON value without the white
   * space around it.
   */
  lemma TextDetailEntry(h: Host, text: string, p: int)
    requires IsJSON(h, text)
    ensures ArgDetails(h, TextDetail(text), p, true)
      == [Detail("text", p, "map[string]string", CleanTabsAndNewlines(text), RawJson(Trim(CleanTabsAndNewlines(text), JsonSpace)))]
  {
    var clean := CleanTabsAndNewlines(text);
    assert InterfaceAsString(h, Str(text)) == clean;
    CleanIdempotent(text);
    assert RawOfText(h, clean) == RawJson(Trim(clean, JsonSpace));
    var one := MapDetails(h, [("text", text)], p);
    assert |one| == 1 && one[0] == Detail("text", p, "map[string]string", clean, RawJson(Trim(clean, JsonSpace)));
  }

  /** The text detail survives the walk, after every other surviving detail. */
  lemma TextDetailKeptLast(h: Host, rev: Revision, start: Fields, details: seq<Arg>, text: string)
    requires start.filteredDetails == []
    ensures ParseAll(h, rev, start, details + [TextDetail(text)]).filteredDetails
      == KeptOf(rev, details) + [TextDetail(text)]
  {
    var d := details + [TextDetail(text)];
    ListsCollected(h, rev, start, d);
    assert d[..|details|] == details;
  }

  /**
   * When the rendered text is JSON it comes back as the last detail, a
   * "text"-keyed map entry holding the cleaned text, at the position after
   * all details that survive the walk.
   */
  lemma JsonTextIsLastDetail(h: Host, rev: Revision, start: Fields, details: seq<Arg>, text: string)
    requires start.filteredDetails == []
    requires IsJSON(h, text)
    ensures var kept := ParseAll(h, rev, start, details + [TextDetail(text)]).filteredDetails;
      && kept == KeptOf(rev, details) + [TextDetail(text)]
      && AtPosition(DetailsOf(h, kept, true), |kept|)
         == [Detail("text", |kept|, "map[string]string", CleanTabsAndNewlines(text), RawJson(Trim(CleanTabsAndNewlines(text), JsonSpace)))]
  {
    TextDetailKeptLast(h, rev, start, details, text);
    var kept := KeptOf(rev, details) + [TextDetail(text)];
    DetailsAtPosition(h, kept, true, |kept| - 1);
    TextDetailEntry(h, text, |kept|);
  }

  /**
   * findMessageFields' loop over the details: the last OptionMessageFields
   * replaces the base list, and every OptionMessageField is appended.
   */
  method ApplyFieldOptions(base: seq<string>, details: seq<Arg>) returns (result: seq<string>)
    ensures result == FieldsFor(base, details)
  {
    result := base;
    var appendix := [];
    var i := 0;
    while i < |details|
      invariant 0 <= i <= |details|
      invariant result == LastFieldsOption(details[..i], base)
      invariant appendix == FieldAppendix(details[..i])
    {
      assert details[..i + 1][..i] == details[..i];
      var value := details[i];
      if value.Opt? && !value.byPointer {
        match value.option {
          case OptionMessageFields(fields) => result := fields;
          case OptionMessageField(field) => appendix := appendix + [field];
          case _ =>
        }
      }
      i := i + 1;
    }
    assert details[..|details|] == details;
    result := result + appendix;
  }

  /** One more token extends the choice by that token when it names a field. */
  lemma AllowedStep(tokens: seq<string>, i: nat)
    requires i < |tokens|
    ensures Allowed(tokens[..i + 1])
      == Allowed(tokens[..i]) + (if TrimSpace(tokens[i]) in AllMessageFields then [TrimSpace(tokens[i])] else [])
  {
    assert tokens[..i + 1][..i] == tokens[..i];
  }

  /** The loop shared by populateMessageFields and findMessageFields: split, trim, keep known names. */
  method SelectFields(setting: string) returns (result: seq<string>)
    ensures result == SelectedFields(setting)
  {
    result := [];
    var splits := Split(setting, ',');
    var i := 0;
    while i < |splits|
      invariant 0 <= i <= |splits|
      invariant result == Allowed(splits[..i])
    {
      var trimmed := TrimSpace(splits[i]);
      AllowedStep(splits, i);
      if trimmed in AllMessageFields {
        result := result + [trimmed];
      }
      i := i + 1;
    }
    assert splits[..|splits|] == splits;
  }

  // ---------------------------------------------------------------------------
  // The messenger
  // ---------------------------------------------------------------------------

  class BasicMessenger {
    var callerSkip: int
    var idMessages: map<int, string>
    var idStatuses: map<int, string>
    var messageFields: Option<seq<string>>
    var messageIDTemplate: string
    var sortedIDLevelRanges: Option<seq<int>>

    /** The level cache is empty or holds the range bounds in descending order. */
    ghost predicate Valid()
      reads this
    {
      CacheValid(sortedIDLevelRanges)
    }

    function CurrentSetup(): Setup
      reads this
    {
      Setup(callerSkip, idMessages, idStatuses, messageFields, messageIDTemplate)
    }

    constructor (s: Setup)
      ensures Valid()
      ensures CurrentSetup() == s && sortedIDLevelRanges.None?
    {
      callerSkip := s.callerSkip;
      idMessages := s.idMessages;
      idStatuses := s.idStatuses;
      messageFields := s.messageFields;
      messageIDTemplate := s.messageIDTemplate;
      sortedIDLevelRanges := None;
    }

    /**
     * getSortedIDLevelRanges: fills the cache on first use with the range
     * bounds sorted descending and afterwards returns it unchanged.
     */
    method GetSortedIDLevelRanges() returns (sorted: seq<int>)
      requires Valid()
      modifies this`sortedIDLevelRanges
      ensures Valid()
      ensures sortedIDLevelRanges == Some(sorted)
      ensures old(sortedIDLevelRanges).Some? ==> sortedIDLevelRanges == old(sortedIDLevelRanges)
      ensures sorted == SortedRangeBounds
    {
      if sortedIDLevelRanges.None? {
        var keys := FillLevelCache();
        sortedIDLevelRanges := Some(keys);
      }
      sorted := sortedIDLevelRanges.value;
      CacheIsSortedBounds(sortedIDLevelRanges);
    }

    /** getLevel: the level of the message number's range, "UNKNOWN" below 0. */
    method GetLevel(messageNumber: int) returns (name: string)
      requires Valid()
      modifies this`sortedIDLevelRanges
      ensures Valid() && sortedIDLevelRanges == Some(SortedRangeBounds)
      ensures name == LevelForNumber(messageNumber)
    {
      var sorted := GetSortedIDLevelRanges();
      name := FindLevel(IDLevelRangesAsString, sorted, messageNumber);
      LevelOfNumber(sorted, messageNumber);
    }

    /** populateMessageFields: the field list for a setting. */
    method PopulateMessageFields(setting: string)
      modifies this`messageFields
      ensures messageFields == Some(DefaultFields(setting))
    {
      if |setting| == 0 {
        messageFields := Some(["id", "text"]);
      } else if setting == "all" {
        messageFields := Some(AllMessageFields);
      } else {
        var selected := SelectFields(setting);
        messageFields := Some(selected);
      }
    }

    /**
     * findMessageFields: populates the messenger's list on first use, takes
     * the base list the setting chooses, lets the last OptionMessageFields
     * replace it and appends every OptionMessageField.
     */
    method FindMessageFields(h: Host, env: string, details: seq<Arg>) returns (result: seq<string>)
      modifies this`messageFields
      ensures messageFields == Some(ConfiguredFields(old(messageFields), NormalizeSetting(h, env)))
      ensures result == FieldsFor(BaseFields(NormalizeSetting(h, env), messageFields.value), details)
    {
      var setting := TrimSpace(h.toLower(env));
      if messageFields.None? {
        PopulateMessageFields(setting);
      }
      if |setting| == 0 {
        result := messageFields.value;
      } else if setting == "all" {
        result := AllMessageFields;
      } else {
        result := SelectFields(setting);
      }
      result := ApplyFieldOptions(result, details);
    }

    /** populateStructure: the record for a message number and its details. */
    method PopulateStructure(h: Host, env: string, now: string, messageNumber: int, details: seq<Arg>)
      returns (r: MessageFormat)
      requires Valid()
      modifies this`sortedIDLevelRanges, this`messageFields
      ensures Valid() && sortedIDLevelRanges == Some(SortedRangeBounds)
      ensures messageFields == Some(ConfiguredFields(old(messageFields), NormalizeSetting(h, env)))
      ensures r == Structure(h, old(CurrentSetup()), env, now, messageNumber, details)
    {
      ghost var s := CurrentSetup();
      var fields := Fields("", 0, "", "", "", "", "", "", 0, [], now, []);
      fields := fields.(callerSkip := callerSkip);
      var level := GetLevel(messageNumber);
      fields := fields.(level := level);
      fields := fields.(id := h.sprintf(messageIDTemplate, [Int(messageNumber)]));
      if messageNumber in idStatuses {
        fields := fields.(status := idStatuses[messageNumber]);
      }
      var all := details;
      if messageNumber in idMessages {
        var textRaw := h.sprintf(idMessages[messageNumber], details);
        fields := fields.(text := TextBeforeMarker(textRaw));
        if IsJSON(h, fields.text) {
          all := details + [TextDetail(fields.text)];
        }
      }
      assert fields == StartFields(h, s, messageNumber, now, details);
      assert all == Augmented(h, s, messageNumber, details);
      fields := ParseDetails(h, Basic, fields, all);
      if fields.callerSkip > 0 {
        match h.caller(fields.callerSkip) {
          case Some(frame) =>
            fields := fields.(location := "In " + frame.funcName + "() at " + frame.file + ":" + Itoa(frame.line));
          case None =>
        }
      }
      assert fields == BuildFields(h, Basic, StartFields(h, s, messageNumber, now, details), all);
      var selected := FindMessageFields(h, env, all);
      assert selected == SelectedFor(h, s, env, all);
      r := PopulateMessageFormat(h, fields, selected);
    }

    /**
     * NewSlogLevel: the text, the slog level (PANIC for a level name the
     * table lacks) and the key/value pairs of the fields the original
     * details select. The level field is computed by adding
     * OptionMessageField("level") to the details.
     */
    method NewSlogLevel(h: Host, env: string, now: string, messageNumber: int, details: seq<Arg>)
      returns (message: string, slogLevel: int, keyValuePairs: seq<KvItem<Payload>>)
      requires Valid()
      modifies this`sortedIDLevelRanges, this`messageFields
      ensures Valid() && sortedIDLevelRanges == Some(SortedRangeBounds)
      ensures messageFields == Some(ConfiguredFields(old(messageFields), NormalizeSetting(h, env)))
      ensures var m := Structure(h, old(CurrentSetup()), env, now, messageNumber, details + [LevelFieldOption]);
        && message == m.text
        && slogLevel == SlogLevelOf(m.level)
        && keyValuePairs == Pairs(TableOf(m), SelectedFor(h, old(CurrentSetup()), env, details), false)
        && keyValuePairs == Pairs(TableOf(m), SelectedFor(h, old(CurrentSetup()), env, details), true)
    {
      ghost var s := CurrentSetup();
      BasicNilTestIrrelevant(h, s, env, now, messageNumber, details);
      var populateDetails := details + [LevelFieldOption];
      var messageFormat := PopulateStructure(h, env, now, messageNumber, populateDetails);
      assert messageFormat == Structure(h, s, env, now, messageNumber, populateDetails);
      ghost var cached := messageFields;
      message := messageFormat.text;
      if messageFormat.level in TextToLevelMap {
        slogLevel := TextToLevelMap[messageFormat.level];
      } else {
        slogLevel := LevelPanicInt;
      }
      var fields := FindMessageFields(h, env, details);
      assert messageFields == cached;
      assert fields == SelectedFor(h, s, env, details);
      keyValuePairs := GetKeyValuePairs(TableOf(messageFormat), fields);
    }
  }

  /** populateMessageFormat: the record built field by field. */
  method PopulateMessageFormat(h: Host, f: Fields, fields: seq<string>) returns (r: MessageFormat)
    ensures r == FormatOf(h, f, fields)
  {
    r := EmptyMessage;
    var value := ShowField("code" in fields, f.code);
    r := r.(code := value);
    var details := ShowDetails(h, "details" in fields, f.filteredDetails);
    r := r.(details := details);
    var duration := ShowDuration("duration" in fields, f.duration);
    r := r.(duration := duration);
    var errors := ShowErrors("errors" in fields, f.errorList);
    r := r.(errors := errors);
    value := ShowField("id" in fields, f.id);
    r := r.(id := value);
    value := ShowField("level" in fields, f.level);
    r := r.(level := value);
    value := ShowField("location" in fields, f.location);
    r := r.(location := value);
    value := ShowField("reason" in fields, f.reason);
    r := r.(reason := value);
    value := ShowField("status" in fields, f.status);
    r := r.(status := value);
    value := ShowField("text" in fields, f.text);
    r := r.(text := value);
    value := ShowField("time" in fields, f.timeNow);
    r := r.(time := value);
  }

  /** The details step of populateMessageFormat: messageDetails of the remaining arguments, if any. */
  method ShowDetails(h: Host, selected: bool, args: seq<Arg>) returns (shown: Option<seq<Detail>>)
    ensures shown == ShownDetails(h, selected, args)
  {
    shown := None;
    if selected {
      if |args| > 0 {
        var ds := Details.MessageDetails(h, args, true);
        shown := Some(ds);
      }
    }
  }

  /** The errors step of populateMessageFormat: the list, if not empty. */
  method ShowErrors(selected: bool, errorList: seq<string>) returns (shown: Option<seq<string>>)
    ensures shown == ShownList(selected, errorList)
  {
    shown := None;
    if selected {
      if |errorList| > 0 {
        shown := Some(errorList);
      }
    }
  }

  /** The duration step of populateMessageFormat. */
  method ShowDuration(selected: bool, value: int) returns (shown: int)
    ensures shown == ShownDuration(selected, value)
  {
    shown := 0;
    if selected {
      shown := value;
    }
  }

  /** One `if slices.Contains(messageFields, name)` of populateMessageFormat for a string field. */
  method ShowField(selected: bool, value: string) returns (shown: string)
    ensures shown == Shown(selected, value)
  {
    shown := "";
    if selected {
      shown := value;
    }
  }

  /** The key/value pairs never carry "text" and alternate keys with their kept values. */
  lemma SlogPairsShape(m: MessageFormat, keys: seq<string>)
    ensures Key("text") !in Pairs(TableOf(m), keys, false)
    ensures Alternating(Pairs(TableOf(m), keys, false), TableOf(m), false)
    ensures KeysOf(Pairs(TableOf(m), keys, false)) == EmittedKeys(TableOf(m), keys, false)
  {
    AbsentKeyNeverEmitted(TableOf(m), keys, false, "text");
    PairsKeys(TableOf(m), keys, false);
  }

  /**
   * The level option NewSlogLevel adds is kept by the walk, so whenever
   * "details" is among the keys the record's details are set (to a list that
   * may be empty), never nil.
   */
  lemma SlogDetailsSetWhenSelected(h: Host, s: Setup, env: string, now: string, n: int, details: seq<Arg>)
    ensures "details" in SelectedFor(h, s, env, details) ==>
      Structure(h, s, env, now, n, details + [LevelFieldOption]).details.Some?
  {
    if "details" in SelectedFor(h, s, env, details) {
      var d := details + [LevelFieldOption];
      var all := Augmented(h, s, n, d);
      var setting := NormalizeSetting(h, env);
      var base := BaseFields(setting, ConfiguredFields(s.messageFields, setting));
      FieldsAppendOption(base, details, "level");
      var start := StartFields(h, s, n, now, d);
      LevelOptionKept(h, start, details);
      if all != d {
        FieldsIgnoreOtherDetail(base, d, TextDetail(TextOf(h, s, n, d)));
        KeptStaysKept(h, start, d, TextDetail(TextOf(h, s, n, d)));
      }
      var sel := SelectedFor(h, s, env, all);
      assert "details" in sel;
      var f := BuildFields(h, Basic, start, all);
      assert f.filteredDetails != [];
      assert Structure(h, s, env, now, n, d) == FormatOf(h, f, sel);
    }
  }

  /** The level option is kept by the walk. */
  lemma LevelOptionKept(h: Host, start: Fields, details: seq<Arg>)
    ensures ParseAll(h, Basic, start, details + [LevelFieldOption]).filteredDetails != []
  {
    assert (details + [LevelFieldOption])[..|details|] == details;
  }

  /** Kept details are never dropped by a later detail. */
  lemma KeptStaysKept(h: Host, start: Fields, details: seq<Arg>, a: Arg)
    requires ParseAll(h, Basic, start, details).filteredDetails != []
    ensures ParseAll(h, Basic, start, details + [a]).filteredDetails != []
  {
    assert (details + [a])[..|details|] == details;
  }

  /** A record whose details are set whenever "details" is a key gives the same pairs under both nil tests. */
  lemma NilTestIrrelevantFor(m: MessageFormat, keys: seq<string>)
    requires "details" in keys ==> m.details.Some?
    ensures Pairs(TableOf(m), keys, true) == Pairs(TableOf(m), keys, false)
  {
    var t := TableOf(m);
    assert forall k :: k in t && t[k].KvSlice? ==> k == "details";
    NilTestIrrelevant(t, keys);
  }

  /**
   * For the record NewSlogLevel builds, the nil test as written and the
   * intended one give the same pairs: the nil details slice never reaches
   * getKeyValuePairs in this revision.
   */
  lemma BasicNilTestIrrelevant(h: Host, s: Setup, env: string, now: string, n: int, details: seq<Arg>)
    ensures var m := Structure(h, s, env, now, n, details + [LevelFieldOption]);
      var keys := SelectedFor(h, s, env, details);
      Pairs(TableOf(m), keys, true) == Pairs(TableOf(m), keys, false)
  {
    SlogDetailsSetWhenSelected(h, s, env, now, n, details);
    NilTestIrrelevantFor(Structure(h, s, env, now, n, details + [LevelFieldOption]), SelectedFor(h, s, env, details));
  }
}
