/**
 * The earlier messenger revision (messenger.go): SimpleMessenger builds the
 * same kind of record, but recognises overrides passed by pointer, has no
 * code or reason override and no field selection (every field is filled),
 * lists option values among the details like any other value, and emits a
 * fixed set of keys to the structured logger.
 */
module MessengerSimple {

  import opened Wrappers
  import opened StringUtil
  import opened Levels
  import opened Values
  import opened Details
  import opened Overrides
  import opened KeyValue
  import opened MessengerBasic

  /** The record of populateStructure: every field, errors and details nil when there are none. */
  function SimpleFormat(h: Host, f: Fields): (r: MessageFormat)
    ensures r.code == "" && r.reason == ""
    ensures r.errors.Some? <==> f.errorList != []
    ensures r.details.Some? <==> f.filteredDetails != []
    ensures r.details.Some? ==> r.details.value == DetailsOf(h, f.filteredDetails, false)
  {
    MessageFormat(f.timeNow, f.level, f.id, f.text, "", "", f.status, f.duration, f.location,
      ShownList(true, f.errorList),
      if f.filteredDetails != [] then Some(DetailsOf(h, f.filteredDetails, false)) else None)
  }

  /** populateStructure's record for a setup (its field list plays no part). */
  function SimpleStructure(h: Host, s: Setup, now: string, n: int, details: seq<Arg>): MessageFormat
  {
    SimpleFormat(h, BuildFields(h, Simple, StartFields(h, s, n, now, details), Augmented(h, s, n, details)))
  }

  /** The keys NewSlogLevel emits, in order. */
  const SimpleKeys: seq<string> := ["id", "status", "duration", "location", "errors", "details"]

  /** getKeyValuePairs' table in this revision: no code, reason or text. */
  function SimpleTableOf(m: MessageFormat): (t: map<string, KvValue<Payload>>)
    ensures "text" !in t && "code" !in t && "reason" !in t
    ensures forall k :: k in SimpleKeys ==> k in t
  {
    map[
      "time" := KvString(m.time),
      "level" := KvString(m.level),
      "id" := KvString(m.id),
      "status" := KvString(m.status),
      "duration" := KvInt64(m.duration),
      "location" := KvString(m.location),
      "errors" := KvInterface(match m.errors case None => None case Some(es) => Some(ErrorList(es))),
      "details" := KvSlice(match m.details case None => None case Some(ds) => Some(DetailList(ds)))]
  }

  /** Neither the level nor the text ever reaches the key/value pairs; their keys come in SimpleKeys order. */
  lemma SimplePairsShape(m: MessageFormat)
    ensures Key("level") !in Pairs(SimpleTableOf(m), SimpleKeys, false)
    ensures Key("text") !in Pairs(SimpleTableOf(m), SimpleKeys, false)
    ensures Alternating(Pairs(SimpleTableOf(m), SimpleKeys, false), SimpleTableOf(m), false)
    ensures KeysOf(Pairs(SimpleTableOf(m), SimpleKeys, false)) == EmittedKeys(SimpleTableOf(m), SimpleKeys, false)
  {
    var t := SimpleTableOf(m);
    if Key("level") in Pairs(t, SimpleKeys, false) {
      KeyEmittedOnlyIfRequested(t, SimpleKeys, false, "level");
    }
    AbsentKeyNeverEmitted(t, SimpleKeys, false, "text");
    PairsKeys(t, SimpleKeys, false);
  }

  /** A detail list with no option values at all. */
  predicate NoOptions(details: seq<Arg>)
  {
    forall i :: 0 <= i < |details| ==> !details[i].Opt?
  }

  lemma NoOptionsAugmented(h: Host, s: Setup, n: int, details: seq<Arg>)
    requires NoOptions(details)
    ensures NoOptions(Augmented(h, s, n, details))
  {
  }

  /** With every field selected the later revision's record is this revision's, given no code, reason or field options. */
  lemma AllFieldsFormatIsSimple(h: Host, f: Fields)
    requires f.code == "" && f.reason == ""
    requires forall i :: 0 <= i < |f.filteredDetails| ==> !IsFieldOption(f.filteredDetails[i])
    ensures FormatOf(h, f, AllMessageFields) == SimpleFormat(h, f)
  {
    SkipIrrelevantWithoutFieldOptions(h, f.filteredDetails);
  }

  /** On details without options the walk leaves code and reason empty and keeps no option. */
  lemma PlainWalk(h: Host, start: Fields, all: seq<Arg>)
    requires NoOptions(all)
    requires start.code == "" && start.reason == "" && start.filteredDetails == []
    ensures var f := BuildFields(h, Basic, start, all);
      && f == BuildFields(h, Simple, start, all)
      && f.code == "" && f.reason == ""
      && forall i :: 0 <= i < |f.filteredDetails| ==> !IsFieldOption(f.filteredDetails[i])
  {
    RevisionsAgreeWithoutOptions(h, start, all);
    ListsCollected(h, Basic, start, all);
    KeptFromDetails(Basic, all);
    StrFieldLastWins(h, Basic, start, all, CodeField);
    StrFieldLastWins(h, Basic, start, all, ReasonField);
    NoOverrideKeeps(h, all, CodeField, "");
    NoOverrideKeeps(h, all, ReasonField, "");
    var kept := ParseAll(h, Basic, start, all).filteredDetails;
    forall i | 0 <= i < |kept| ensures !IsFieldOption(kept[i]) {
      assert kept[i] in all;
    }
  }

  /**
   * The two revisions agree on details without any options when the later
   * one is told to show all fields: the same record, except that the later
   * one's code and reason stay empty too.
   */
  lemma RevisionsAgreeOnAllFields(h: Host, s: Setup, env: string, now: string, n: int, details: seq<Arg>)
    requires NoOptions(details)
    requires NormalizeSetting(h, env) == "all"
    ensures SimpleStructure(h, s, now, n, details) == Structure(h, s, env, now, n, details)
  {
    var all := Augmented(h, s, n, details);
    NoOptionsAugmented(h, s, n, details);
    FieldsWithoutOptions(AllMessageFields, all);
    var start := StartFields(h, s, n, now, details);
    PlainWalk(h, start, all);
    AllFieldsFormatIsSimple(h, BuildFields(h, Basic, start, all));
  }

  /** Without options no string field is overridden. */
  lemma {:induction false} NoOverrideKeeps(h: Host, details: seq<Arg>, field: StrField, start: string)
    requires NoOptions(details)
    ensures LastStr(h, Basic, field, details, start) == start
  {
    if details != [] {
      var init := details[..|details| - 1];
      assert forall i :: 0 <= i < |init| ==> init[i] == details[i];
      NoOverrideKeeps(h, init, field, start);
    }
  }

  /** The record step of populateStructure. */
  method ComposeResult(h: Host, f: Fields) returns (r: MessageFormat)
    ensures r == SimpleFormat(h, f)
  {
    r := MessageFormat(f.timeNow, f.level, f.id, f.text, "", "", f.status, f.duration, f.location, None, None);
    if |f.errorList| > 0 {
      r := r.(errors := Some(f.errorList));
    }
    if |f.filteredDetails| > 0 {
      var ds := Details.MessageDetails(h, f.filteredDetails, false);
      r := r.(details := Some(ds));
    }
  }

  class SimpleMessenger {
    var idMessages: map<int, string>
    var idStatuses: map<int, string>
    var messageIDTemplate: string
    var callerSkip: int
    var sortedIDLevelRanges: Option<seq<int>>

    /** The level cache is empty or holds the range bounds in descending order. */
    ghost predicate Valid()
      reads this
    {
      CacheValid(sortedIDLevelRanges)
    }

    /** The messenger's settings, as a setup without a field list. */
    function CurrentSetup(): Setup
      reads this
    {
      Setup(callerSkip, idMessages, idStatuses, None, messageIDTemplate)
    }

    constructor (idMessages: map<int, string>, idStatuses: map<int, string>, messageIDTemplate: string, callerSkip: int)
      ensures Valid() && sortedIDLevelRanges.None?
      ensures CurrentSetup() == Setup(callerSkip, idMessages, idStatuses, None, messageIDTemplate)
    {
      this.idMessages := idMessages;
      this.idStatuses := idStatuses;
      this.messageIDTemplate := messageIDTemplate;
      this.callerSkip := callerSkip;
      sortedIDLevelRanges := None;
    }

    /**
     * getSortedIDLevelRanges: fills the cache on first use with the range
     * bounds sorted descending and afterwards returns it unchanged.
     */
    method GetSortedIDLevelRanges() returns (sorted: seq<int>)
      requires Valid()
      modifies this`sortedIDLevelRanges
      ensures Valid()
      ensures sortedIDLevelRanges == Some(sorted)
      ensures old(sortedIDLevelRanges).Some? ==> sortedIDLevelRanges == old(sortedIDLevelRanges)
      ensures sorted == SortedRangeBounds
    {
      if sortedIDLevelRanges.None? {
        var keys := FillLevelCache();
        sortedIDLevelRanges := Some(keys);
      }
      sorted := sortedIDLevelRanges.value;
      CacheIsSortedBounds(sortedIDLevelRanges);
    }

    /** getLevel: the level of the message number's range, "UNKNOWN" below 0. */
    method GetLevel(messageNumber: int) returns (name: string)
      requires Valid()
      modifies this`sortedIDLevelRanges
      ensures Valid() && sortedIDLevelRanges == Some(SortedRangeBounds)
      ensures name == LevelForNumber(messageNumber)
    {
      var sorted := GetSortedIDLevelRanges();
      name := FindLevel(IDLevelRangesAsString, sorted, messageNumber);
      LevelOfNumber(sorted, messageNumber);
    }

    /** populateStructure: the record for a message number and its details. */
    method PopulateStructure(h: Host, now: string, messageNumber: int, details: seq<Arg>) returns (r: MessageFormat)
      requires Valid()
      modifies this`sortedIDLevelRanges
      ensures Valid() && sortedIDLevelRanges == Some(SortedRangeBounds)
      ensures r == SimpleStructure(h, old(CurrentSetup()), now, messageNumber, details)
    {
      ghost var s := CurrentSetup();
      var fields := Fields("", 0, "", "", "", "", "", "", 0, [], now, []);
      fields := fields.(callerSkip := callerSkip);
      var level := GetLevel(messageNumber);
      fields := fields.(level := level);
      fields := fields.(id := h.sprintf(messageIDTemplate, [Int(messageNumber)]));
      if messageNumber in idStatuses {
        fields := fields.(status := idStatuses[messageNumber]);
      }
      var all := details;
      if messageNumber in idMessages {
        var textRaw := h.sprintf(idMessages[messageNumber], details);
        fields := fields.(text := TextBeforeMarker(textRaw));
        if IsJSON(h, fields.text) {
          all := details + [TextDetail(fields.text)];
        }
      }
      assert fields == StartFields(h, s, messageNumber, now, details);
      assert all == Augmented(h, s, messageNumber, details);
      fields := ParseDetails(h, Simple, fields, all);
      if fields.callerSkip > 0 {
        match h.caller(fields.callerSkip) {
          case Some(frame) =>
            fields := fields.(location := "In " + frame.funcName + "() at " + frame.file + ":" + Itoa(frame.line));
          case None =>
        }
      }
      r := ComposeResult(h, fields);
    }

    /**
     * NewSlogLevel: the text, the slog level (PANIC for a level name the
     * table lacks) and the key/value pairs of the fixed keys.
     */
    method NewSlogLevel(h: Host, now: string, messageNumber: int, details: seq<Arg>)
      returns (message: string, slogLevel: int, keyValuePairs: seq<KvItem<Payload>>)
      requires Valid()
      modifies this`sortedIDLevelRanges
      ensures Valid() && sortedIDLevelRanges == Some(SortedRangeBounds)
      ensures var m := SimpleStructure(h, old(CurrentSetup()), now, messageNumber, details);
        && message == m.text
        && slogLevel == SlogLevelOf(m.level)
        && keyValuePairs == Pairs(SimpleTableOf(m), SimpleKeys, false)
    {
      var messageFormat := PopulateStructure(h, now, messageNumber, details);
      message := messageFormat.text;
      if messageFormat.level in TextToLevelMap {
        slogLevel := TextToLevelMap[messageFormat.level];
      } else {
        slogLevel := LevelPanicInt;
      }
      keyValuePairs := GetKeyValuePairs(SimpleTableOf(messageFormat), SimpleKeys);
    }
  }
}
