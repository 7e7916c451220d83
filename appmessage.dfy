/**
 * The earliest revision (appmessage/appmessage.go): AppMessageImpl builds a
 * record whose text is any value (nil when the message number has no
 * template), whose errors are {text} objects, and whose details are a map
 * from the decimal 1-based argument position to the argument's value, into
 * which a map[string]string argument merges its own entries.
 */
module AppMessage {

  import opened Wrappers
  import opened StringUtil
  import opened Levels
  import opened Values
  import opened KeyValue
  import Overrides

  // ---------------------------------------------------------------------------
  // isJson, jsonAsInterface, stringify
  // ---------------------------------------------------------------------------

  /** strconv.Unquote of the text when it is a quoted Go string, the text itself otherwise. */
  function Unescaped(h: Host, s: string): string
  {
    match h.unquote(s)
    case Some(u) => u
    case None => s
  }

  /** isJson of this revision: the unquoted text (or, failing that, the text) is one JSON value. */
  predicate AppIsJson(h: Host, s: string)
  {
    h.jsonValid(Unescaped(h, s))
  }

  /**
   * jsonAsInterface of this revision: the unquoted text as a
   * json.RawMessage, which keeps only the bytes of the value itself, so the
   * white space around it is dropped. Every caller checks AppIsJson first.
   */
  function AppJsonAsInterface(h: Host, s: string): (raw: string)
    requires AppIsJson(h, s)
    ensures raw == [] || (raw[0] !in JsonSpace && raw[|raw| - 1] !in JsonSpace)
    ensures h.unquote(s).None? ==> TrimmedFrom(s, raw, JsonSpace)
    ensures h.unquote(s).Some? ==> TrimmedFrom(h.unquote(s).value, raw, JsonSpace)
    ensures var u := Unescaped(h, s);
      u != [] && u[0] !in JsonSpace && u[|u| - 1] !in JsonSpace ==> raw == u && h.jsonValid(raw)
  {
    TrimIsInfix(Unescaped(h, s), JsonSpace);
    Trim(Unescaped(h, s), JsonSpace)
  }

  /**
   * The unquote fallback: text that is not a quoted Go string is judged as
   * it stands, and then, having no tab or newline, exactly as the later
   * revisions' isJSON judges it.
   */
  lemma UnquoteFallback(h: Host, s: string)
    requires h.unquote(s).None?
    ensures AppIsJson(h, s) <==> h.jsonValid(s)
    ensures '\n' !in s && '\t' !in s ==> (AppIsJson(h, s) <==> IsJSON(h, s))
  {
    if '\n' !in s && '\t' !in s {
      assert CleanErrorString(s) == s;
    }
  }

  /** stringify: fmt's rendering of a value, by its dynamic type. */
  function Stringify(h: Host, a: Arg): (s: string)
    ensures a.Nil? ==> s == "<nil>"
    ensures a.Str? ==> s == a.str
    ensures a.Int? ==> s == Itoa(a.intValue) && Atoi(s) == Some(a.intValue)
    ensures a.Bool? ==> s == BoolText(a.boolValue)
    ensures a.Error? ==> s == a.message
  {
    match a
    case Nil => "<nil>"
    case Str(v) => v
    case Int(i) => ItoaRoundTrip(i); Itoa(i)
    case Float(x) => h.formatFloat(x)
    case Bool(b) => BoolText(b)
    case Error(m) => m
    case _ => h.goSyntax(a)
  }

  /**
   * stringify and the later revisions' interfaceAsString agree, except on
   * JSON strings (which the later ones clean) and on error messages holding
   * tabs or newlines (which the later ones strip).
   */
  lemma StringifyAgreesWithInterfaceAsString(h: Host, a: Arg)
    requires a.Str? ==> !IsJSON(h, a.str)
    requires a.Error? ==> '\n' !in a.message && '\t' !in a.message
    ensures Stringify(h, a) == InterfaceAsString(h, a)
  {
    if a.Error? {
      assert CleanErrorString(a.message) == a.message;
    }
  }

  // ---------------------------------------------------------------------------
  // messageDetails
  // ---------------------------------------------------------------------------

  /** A value messageDetails stores: a string, JSON kept raw, or an int or float64 as it is. */
  datatype AppValue = AppString(s: string) | AppJson(json: string) | AppInt(n: int) | AppFloat(x: real)

  /** A string stored JSON-aware: its raw JSON when it is JSON, the string otherwise. */
  function TextValue(h: Host, s: string): (v: AppValue)
    ensures v.AppJson? <==> AppIsJson(h, s)
    ensures v.AppJson? ==> TrimmedFrom(Unescaped(h, s), v.json, JsonSpace)
    ensures !v.AppJson? ==> v == AppString(s)
  {
    if AppIsJson(h, s) then AppJson(AppJsonAsInterface(h, s)) else AppString(s)
  }

  /** The value stored under its position for an argument that is neither an error nor a string map. */
  function EntryOf(h: Host, a: Arg): AppValue
  {
    match a
    case Nil => AppString("<nil>")
    case Int(i) => AppInt(i)
    case Float(x) => AppFloat(x)
    case Str(v) => TextValue(h, v)
    case Bool(b) => AppString(BoolText(b))
    case _ => TextValue(h, Stringify(h, a))
  }

  /** A map[string]string's entries stored under their own keys, in iteration order. */
  function MergeEntries(h: Host, m: map<string, AppValue>, entries: seq<(string, string)>): map<string, AppValue>
  {
    if entries == [] then m
    else
      var e := entries[|entries| - 1];
      MergeEntries(h, m, entries[..|entries| - 1])[e.0 := TextValue(h, Stringify(h, Str(e.1)))]
  }

  /** One case of messageDetails' type switch, for the argument at a 1-based position. */
  function AddArg(h: Host, m: map<string, AppValue>, a: Arg, position: int): map<string, AppValue>
  {
    match a
    case Error(_) => m
    case StringMap(entries) => MergeEntries(h, m, entries)
    case _ => m[Itoa(position) := EntryOf(h, a)]
  }

  /** The map messageDetails fills. */
  function DetailsMap(h: Host, args: seq<Arg>): map<string, AppValue>
  {
    if args == [] then map[]
    else AddArg(h, DetailsMap(h, args[..|args| - 1]), args[|args| - 1], |args|)
  }

  /** messageDetails' result: the filled map, or nil when it is empty. */
  function AppMessageDetails(h: Host, args: seq<Arg>): Option<map<string, AppValue>>
  {
    var m := DetailsMap(h, args);
    if m == map[] then None else Some(m)
  }

  /** The value of the last entry with the given key, if any. */
  function LastValueFor(entries: seq<(string, string)>, k: string): Option<string>
  {
    if entries == [] then None
    else if entries[|entries| - 1].0 == k then Some(entries[|entries| - 1].1)
    else LastValueFor(entries[..|entries| - 1], k)
  }

  /**
   * Merging a string map: a key the map holds gets the (JSON-aware) value
   * of its last entry, overwriting whatever was stored under it; every other
   * key keeps its earlier value.
   */
  lemma {:induction false} MergeLastWins(h: Host, m: map<string, AppValue>, entries: seq<(string, string)>, k: string)
    ensures LastValueFor(entries, k).Some? ==>
      k in MergeEntries(h, m, entries)
      && MergeEntries(h, m, entries)[k] == TextValue(h, LastValueFor(entries, k).value)
    ensures LastValueFor(entries, k).None? ==>
      (k in MergeEntries(h, m, entries) <==> k in m)
      && (k in m ==> MergeEntries(h, m, entries)[k] == m[k])
  {
    if entries != [] {
      MergeLastWins(h, m, entries[..|entries| - 1], k);
    }
  }

  /** No argument is a map[string]string, so every entry sits under a position. */
  predicate NoStringMaps(args: seq<Arg>)
  {
    forall i :: 0 <= i < |args| ==> !args[i].StringMap?
  }

  /** Without string maps, every key is the position of a non-error argument. */
  lemma {:induction false} KeysArePositions(h: Host, args: seq<Arg>)
    requires NoStringMaps(args)
    ensures forall k :: k in DetailsMap(h, args) ==>
      Atoi(k).Some? && 1 <= Atoi(k).value <= |args| && !args[Atoi(k).value - 1].Error? && k == Itoa(Atoi(k).value)
  {
    if args != [] {
      var init := args[..|args| - 1];
      assert NoStringMaps(init) by {
        forall i | 0 <= i < |init| ensures !init[i].StringMap? {
          assert init[i] == args[i];
        }
      }
      KeysArePositions(h, init);
      ItoaRoundTrip(|args|);
      forall k | k in DetailsMap(h, args)
        ensures Atoi(k).Some? && 1 <= Atoi(k).value <= |args| && !args[Atoi(k).value - 1].Error? && k == Itoa(Atoi(k).value)
      {
        if k in DetailsMap(h, init) {
          assert init[Atoi(k).value - 1] == args[Atoi(k).value - 1];
        }
      }
    }
  }

  /** One step of the fill for an argument that is not a string map: only its own position changes. */
  lemma AddArgAt(h: Host, m: map<string, AppValue>, a: Arg, position: int, k: string)
    requires !a.StringMap?
    ensures k != Itoa(position) ==> (k in AddArg(h, m, a, position) <==> k in m)
    ensures k != Itoa(position) && k in m ==> AddArg(h, m, a, position)[k] == m[k]
    ensures k == Itoa(position) ==> (k in AddArg(h, m, a, position) <==> !a.Error? || k in m)
    ensures k == Itoa(position) && !a.Error? ==> AddArg(h, m, a, position)[k] == EntryOf(h, a)
  {
  }

  /**
   * Without string maps, the argument at index i has an entry exactly when it
   * is not an error, under the key strconv.Itoa(i+1), holding its value.
   */
  lemma {:induction false} PositionEntry(h: Host, args: seq<Arg>, i: int)
    requires NoStringMaps(args)
    requires 0 <= i < |args|
    ensures Itoa(i + 1) in DetailsMap(h, args) <==> !args[i].Error?
    ensures !args[i].Error? ==> DetailsMap(h, args)[Itoa(i + 1)] == EntryOf(h, args[i])
  {
    var init := args[..|args| - 1];
    var last := args[|args| - 1];
    assert NoStringMaps(init) by {
      forall j | 0 <= j < |init| ensures !init[j].StringMap? {
        assert init[j] == args[j];
      }
    }
    assert DetailsMap(h, args) == AddArg(h, DetailsMap(h, init), last, |args|);
    AddArgAt(h, DetailsMap(h, init), last, |args|, Itoa(i + 1));
    if i < |args| - 1 {
      ItoaRoundTrip(i + 1);
      ItoaRoundTrip(|args|);
      PositionEntry(h, init, i);
      assert init[i] == args[i];
    } else {
      KeysArePositions(h, init);
      ItoaRoundTrip(|args|);
    }
  }

  /** Without string maps, the result is nil exactly when every argument is an error (or there are none). */
  lemma EmptyBecomesNil(h: Host, args: seq<Arg>)
    requires NoStringMaps(args)
    ensures AppMessageDetails(h, args).None? <==> forall i :: 0 <= i < |args| ==> args[i].Error?
  {
    if exists i :: 0 <= i < |args| && !args[i].Error? {
      var i :| 0 <= i < |args| && !args[i].Error?;
      PositionEntry(h, args, i);
    } else {
      KeysArePositions(h, args);
      if DetailsMap(h, args) != map[] {
        var k :| k in DetailsMap(h, args);
      }
    }
  }

  /** The inner loop over a map[string]string argument. */
  method MergeMap(h: Host, m0: map<string, AppValue>, entries: seq<(string, string)>) returns (m: map<string, AppValue>)
    ensures m == MergeEntries(h, m0, entries)
  {
    m := m0;
    for j := 0 to |entries|
      invariant m == MergeEntries(h, m0, entries[..j])
    {
      assert entries[..j + 1][..j] == entries[..j];
      var (mapIndex, mapValue) := entries[j];
      var mapValueAsString := Stringify(h, Str(mapValue));
      assert MergeEntries(h, m0, entries[..j + 1])
        == MergeEntries(h, m0, entries[..j])[mapIndex := TextValue(h, mapValueAsString)];
      if AppIsJson(h, mapValueAsString) {
        m := m[mapIndex := AppJson(AppJsonAsInterface(h, mapValueAsString))];
      } else {
        m := m[mapIndex := AppString(mapValueAsString)];
      }
    }
    assert entries[..|entries|] == entries;
  }

  /** messageDetails: the type switch over the arguments, filling the result map. */
  method MessageDetails(h: Host, details: seq<Arg>) returns (result: Option<map<string, AppValue>>)
    ensures result == AppMessageDetails(h, details)
  {
    var m: map<string, AppValue> := map[];
    for index := 0 to |details|
      invariant m == DetailsMap(h, details[..index])
    {
      assert details[..index + 1][..index] == details[..index];
      var key := Itoa(index + 1);
      var value := details[index];
      assert DetailsMap(h, details[..index + 1]) == AddArg(h, m, value, index + 1);
      match value {
        case Nil =>
          m := m[key := AppString("<nil>")];
        case Int(i) =>
          m := m[key := AppInt(i)];
        case Float(x) =>
          m := m[key := AppFloat(x)];
        case Str(v) =>
          if AppIsJson(h, v) {
            m := m[key := AppJson(AppJsonAsInterface(h, v))];
          } else {
            m := m[key := AppString(v)];
          }
        case Bool(b) =>
          m := m[key := AppString(BoolText(b))];
        case Error(_) =>
        case StringMap(entries) =>
          m := MergeMap(h, m, entries);
        case _ =>
          var valueAsString := Stringify(h, value);
          if AppIsJson(h, valueAsString) {
            m := m[key := AppJson(AppJsonAsInterface(h, valueAsString))];
          } else {
            m := m[key := AppString(valueAsString)];
          }
      }
    }
    assert details[..|details|] == details;
    if |m| == 0 {
      assert m == map[];
      result := None;
    } else {
      result := Some(m);
    }
  }

  // ---------------------------------------------------------------------------
  // populateStructure: the override loop
  // ---------------------------------------------------------------------------

  /** An entry of the errors list (messageErrorsSenzing): the message, as raw JSON when it is JSON. */
  datatype AppError = AppError(text: AppValue)

  function ErrorEntry(h: Host, message: string): AppError
  {
    AppError(TextValue(h, message))
  }

  /** The local variables populateStructure's loop updates; `text` is an interface{}, Nil when nil. */
  datatype AppLocals = AppLocals(
    callerSkip: int,
    duration: int,
    errorList: seq<AppError>,
    level: string,
    location: string,
    status: string,
    text: Arg,
    id: string,
    now: Instant,
    filteredDetails: seq<Arg>)

  /** One case of the loop's type switch. */
  function AppApply(h: Host, l: AppLocals, a: Arg): AppLocals
  {
    match a
    case AppOpt(o) =>
      (match o
       case AppMessageCallerSkip(v) => l.(callerSkip := v)
       case AppMessageDuration(v) => l.(duration := v)
       case AppMessageId(v) => l.(id := v)
       case AppMessageLevel(v) => l.(level := v)
       case AppMessageLocation(v) => l.(location := v)
       case AppMessageStatus(v) => l.(status := v)
       case AppMessageText(v) => l.(text := v)
       case AppMessageTimestamp(v) => l.(now := v)
       case AppMessageOptionCallerSkip(_) => l.(filteredDetails := l.filteredDetails + [a]))
    case Error(m) => l.(errorList := l.errorList + [ErrorEntry(h, m)], filteredDetails := l.filteredDetails + [a])
    case Duration(ns) => l.(duration := ns)
    case _ => l.(filteredDetails := l.filteredDetails + [a])
  }

  /** The loop over all details. */
  function AppWalk(h: Host, l: AppLocals, details: seq<Arg>): AppLocals
  {
    if details == [] then l
    else AppApply(h, AppWalk(h, l, details[..|details| - 1]), details[|details| - 1])
  }

  // The value each override type assigns, None for any other argument.

  function PickCallerSkip(a: Arg): Option<int>
  {
    if a.AppOpt? && a.appOption.AppMessageCallerSkip? then Some(a.appOption.appSkip) else None
  }

  /** Both an AppMessageDuration and a time.Duration set the duration. */
  function PickDuration(a: Arg): Option<int>
  {
    if a.AppOpt? && a.appOption.AppMessageDuration? then Some(a.appOption.appDuration)
    else if a.Duration? then Some(a.nanoseconds)
    else None
  }

  function PickId(a: Arg): Option<string>
  {
    if a.AppOpt? && a.appOption.AppMessageId? then Some(a.appOption.appId) else None
  }

  function PickLevel(a: Arg): Option<string>
  {
    if a.AppOpt? && a.appOption.AppMessageLevel? then Some(a.appOption.appLevel) else None
  }

  function PickLocation(a: Arg): Option<string>
  {
    if a.AppOpt? && a.appOption.AppMessageLocation? then Some(a.appOption.appLocation) else None
  }

  function PickStatus(a: Arg): Option<string>
  {
    if a.AppOpt? && a.appOption.AppMessageStatus? then Some(a.appOption.appStatus) else None
  }

  function PickText(a: Arg): Option<Arg>
  {
    if a.AppOpt? && a.appOption.AppMessageText? then Some(a.appOption.appText) else None
  }

  function PickTimestamp(a: Arg): Option<Instant>
  {
    if a.AppOpt? && a.appOption.AppMessageTimestamp? then Some(a.appOption.appTime) else None
  }

  /** The value of the last argument the pick recognises, or the starting value. */
  function LastPick<T>(details: seq<Arg>, pick: Arg -> Option<T>, start: T): T
  {
    if details == [] then start
    else
      match pick(details[|details| - 1])
      case Some(v) => v
      case None => LastPick(details[..|details| - 1], pick, start)
  }

  /** An argument the pick does not recognise anywhere leaves the starting value. */
  lemma {:induction false} LastPickWithout<T>(details: seq<Arg>, pick: Arg -> Option<T>, start: T)
    requires forall i :: 0 <= i < |details| ==> pick(details[i]).None?
    ensures LastPick(details, pick, start) == start
  {
    if details != [] {
      var init := details[..|details| - 1];
      assert forall i :: 0 <= i < |init| ==> init[i] == details[i];
      LastPickWithout(init, pick, start);
    }
  }

  /** An override of this revision; New's caller-skip option is not one and is kept as a detail. */
  predicate IsAppOverride(a: Arg)
  {
    a.AppOpt? && !a.appOption.AppMessageOptionCallerSkip?
  }

  /** The error entries, one per error argument, in order. */
  function AppErrorsOf(h: Host, details: seq<Arg>): seq<AppError>
  {
    if details == [] then []
    else
      var a := details[|details| - 1];
      AppErrorsOf(h, details[..|details| - 1]) + (if a.Error? then [ErrorEntry(h, a.message)] else [])
  }

  /** The arguments kept as details: all but overrides and durations (errors included), in order. */
  function AppKeptOf(details: seq<Arg>): seq<Arg>
  {
    if details == [] then []
    else
      var a := details[|details| - 1];
      AppKeptOf(details[..|details| - 1]) + (if IsAppOverride(a) || a.Duration? then [] else [a])
  }

  /** The reference definition of the loop: each field its last override, the lists collected. */
  function AppExpected(h: Host, l: AppLocals, details: seq<Arg>): AppLocals
  {
    AppLocals(
      LastPick(details, PickCallerSkip, l.callerSkip),
      LastPick(details, PickDuration, l.duration),
      l.errorList + AppErrorsOf(h, details),
      LastPick(details, PickLevel, l.level),
      LastPick(details, PickLocation, l.location),
      LastPick(details, PickStatus, l.status),
      LastPick(details, PickText, l.text),
      LastPick(details, PickId, l.id),
      LastPick(details, PickTimestamp, l.now),
      l.filteredDetails + AppKeptOf(details))
  }

  lemma AppApplyStep(h: Host, l: AppLocals, details: seq<Arg>)
    requires details != []
    ensures AppApply(h, AppExpected(h, l, details[..|details| - 1]), details[|details| - 1]) == AppExpected(h, l, details)
  {
  }

  /**
   * The loop sorts every argument into exactly one group: an override sets
   * its own field and the last one wins, a time.Duration sets the duration,
   * an error goes both to the error list and to the details, and everything
   * else stays a detail in its order.
   */
  lemma {:induction false} AppWalkIsLastWriteWins(h: Host, l: AppLocals, details: seq<Arg>)
    ensures AppWalk(h, l, details) == AppExpected(h, l, details)
  {
    if details != [] {
      AppWalkIsLastWriteWins(h, l, details[..|details| - 1]);
      AppApplyStep(h, l, details);
    } else {
      assert l.errorList + [] == l.errorList && l.filteredDetails + [] == l.filteredDetails;
    }
  }

  // ---------------------------------------------------------------------------
  // populateStructure: the record
  // ---------------------------------------------------------------------------

  /** An AppMessageImpl's settings; a nil status map is None. */
  datatype AppSetup = AppSetup(
    idMessages: map<int, string>,
    idStatuses: Option<map<int, string>>,
    messageIDTemplate: string,
    callerSkip: int)

  /** The text before overrides: nil without a template, else the rendering cut at the first "%!(". */
  function AppTextOf(h: Host, s: AppSetup, n: int, details: seq<Arg>): Arg
  {
    if n in s.idMessages then Str(TextBeforeMarker(h.sprintf(s.idMessages[n], details))) else Nil
  }

  /** The status before overrides: the status map's entry, "" when the map is nil or lacks n. */
  function AppStatusOf(s: AppSetup, n: int): string
  {
    match s.idStatuses
    case Some(st) => if n in st then st[n] else ""
    case None => ""
  }

  /** The locals when the override loop starts. */
  function AppStart(h: Host, s: AppSetup, n: int, now: Instant, details: seq<Arg>): AppLocals
  {
    AppLocals(s.callerSkip, 0, [], LevelForNumber(n), "", AppStatusOf(s, n), AppTextOf(h, s, n, details),
      h.sprintf(s.messageIDTemplate, [Int(n)]), now, [])
  }

  /** fmt.Sprintf("%04d-%02d-%02d", year, month, day). */
  function DateText(t: Instant): string
  {
    FormatPadded(t.year, 4) + "-" + FormatPadded(t.month, 2) + "-" + FormatPadded(t.day, 2)
  }

  /** fmt.Sprintf("%02d:%02d:%02d.%09d", hour, minute, second, nanosecond). */
  function ClockText(t: Instant): string
  {
    FormatPadded(t.hour, 2) + ":" + FormatPadded(t.minute, 2) + ":" + FormatPadded(t.second, 2)
    + "." + FormatPadded(t.nanosecond, 9)
  }

  /**
   * The location: whenever the runtime knows the frame callerSkip levels up,
   * "In <function>() at <file>:<line>", with no test on callerSkip;
   * otherwise the location the loop left.
   */
  function CallerLocation(h: Host, callerSkip: int, current: string): string
  {
    match h.caller(callerSkip)
    case Some(fr) => "In " + fr.funcName + "() at " + fr.file + ":" + Itoa(fr.line)
    case None => current
  }

  /**
   * The Details field: left nil, or set to messageDetails' result, itself a
   * map that is nil when empty.
   */
  datatype AppDetails = NoDetails | DetailsValue(entries: Option<map<string, AppValue>>)

  /** AppMessageFormat as populateStructure fills it; `text` is an interface{} (Nil when nil). */
  datatype AppFormat = AppFormat(
    date: string,
    time: string,
    level: string,
    id: string,
    text: Arg,
    status: string,
    duration: int,
    location: string,
    errors: Option<seq<AppError>>,
    details: AppDetails)

  /**
   * The record built from the loop's locals. With `spread` the kept details
   * are passed to messageDetails one by one; without it they are passed as
   * the single slice argument the unspread call gives it.
   */
  function AppFormatOf(h: Host, l: AppLocals, spread: bool): AppFormat
  {
    AppFormat(DateText(l.now), ClockText(l.now), l.level, l.id, l.text, l.status, l.duration,
      CallerLocation(h, l.callerSkip, l.location),
      if l.errorList != [] then Some(l.errorList) else None,
      if l.filteredDetails == [] then NoDetails
      else if spread then DetailsValue(AppMessageDetails(h, l.filteredDetails))
      else DetailsValue(AppMessageDetails(h, [Slice(l.filteredDetails)])))
  }

  /** populateStructure with messageDetails(filteredDetails...): the record the model uses. */
  function AppStructure(h: Host, s: AppSetup, n: int, now: Instant, details: seq<Arg>): AppFormat
  {
    AppFormatOf(h, AppWalk(h, AppStart(h, s, n, now, details), details), true)
  }

  /** populateStructure as written, with messageDetails(filteredDetails). */
  function AppStructureAsWritten(h: Host, s: AppSetup, n: int, now: Instant, details: seq<Arg>): AppFormat
  {
    AppFormatOf(h, AppWalk(h, AppStart(h, s, n, now, details), details), false)
  }

  /**
   * populateStructure's record field by field: level, id, text, status,
   * duration and timestamp are the last override of each, or the values
   * derived from the message number; the location is the caller's frame
   * whenever the runtime finds one; errors are present exactly when some
   * detail is an error; details are present exactly when some detail is
   * neither an override nor a duration.
   */
  lemma AppStructureResolved(h: Host, s: AppSetup, n: int, now: Instant, details: seq<Arg>)
    ensures var m := AppStructure(h, s, n, now, details);
      var kept := AppKeptOf(details);
      && m.level == LastPick(details, PickLevel, LevelForNumber(n))
      && m.id == LastPick(details, PickId, h.sprintf(s.messageIDTemplate, [Int(n)]))
      && m.text == LastPick(details, PickText, AppTextOf(h, s, n, details))
      && m.status == LastPick(details, PickStatus, AppStatusOf(s, n))
      && m.duration == LastPick(details, PickDuration, 0)
      && m.date == DateText(LastPick(details, PickTimestamp, now))
      && m.time == ClockText(LastPick(details, PickTimestamp, now))
      && m.location == CallerLocation(h, LastPick(details, PickCallerSkip, s.callerSkip), LastPick(details, PickLocation, ""))
      && (m.errors.Some? <==> AppErrorsOf(h, details) != [])
      && (m.errors.Some? ==> m.errors.value == AppErrorsOf(h, details))
      && (m.details.NoDetails? <==> kept == [])
      && (kept != [] ==> m.details == DetailsValue(AppMessageDetails(h, kept)))
  {
    var start := AppStart(h, s, n, now, details);
    AppWalkIsLastWriteWins(h, start, details);
    assert [] + AppErrorsOf(h, details) == AppErrorsOf(h, details);
    assert [] + AppKeptOf(details) == AppKeptOf(details);
  }

  /**
   * The details of the corrected call: the kept argument at index i (when
   * no kept argument is a string map and it is not an error) sits under the
   * key strconv.Itoa(i+1) with its value.
   */
  lemma SpreadDetailsPositioned(h: Host, s: AppSetup, n: int, now: Instant, details: seq<Arg>, i: int)
    requires NoStringMaps(AppKeptOf(details))
    requires 0 <= i < |AppKeptOf(details)| && !AppKeptOf(details)[i].Error?
    ensures var m := AppStructure(h, s, n, now, details);
      && m.details.DetailsValue? && m.details.entries.Some?
      && Itoa(i + 1) in m.details.entries.value
      && m.details.entries.value[Itoa(i + 1)] == EntryOf(h, AppKeptOf(details)[i])
  {
    AppStructureResolved(h, s, n, now, details);
    PositionEntry(h, AppKeptOf(details), i);
  }

  lemma SmallDecimals()
    ensures Itoa(1) == "1" && Itoa(2) == "2"
  {
    assert NatToDecimal(1) == [DigitChar(1)];
    assert NatToDecimal(2) == [DigitChar(2)];
  }

  /** A lone argument that is neither an error nor a string map is stored under "1". */
  lemma SingleArgDetails(h: Host, a: Arg)
    requires !a.Error? && !a.StringMap?
    ensures AppMessageDetails(h, [a]) == Some(map["1" := EntryOf(h, a)])
  {
    SmallDecimals();
    assert [a][..0] == [];
    assert DetailsMap(h, [a]) == AddArg(h, map[], a, 1);
    assert AddArg(h, map[], a, 1) == map["1" := EntryOf(h, a)];
    assert "1" in DetailsMap(h, [a]);
  }

  /** The unspread call on a non-empty kept list stores the slice's %#v rendering under "1". */
  lemma UnspreadDetailsOf(h: Host, l: AppLocals)
    requires l.filteredDetails != []
    ensures AppFormatOf(h, l, false).details
      == DetailsValue(Some(map["1" := TextValue(h, h.goSyntax(Slice(l.filteredDetails)))]))
  {
    var kept := l.filteredDetails;
    SingleArgDetails(h, Slice(kept));
    assert EntryOf(h, Slice(kept)) == TextValue(h, h.goSyntax(Slice(kept)));
  }

  /**
   * As written, whatever the kept details are, the details map has the one
   * key "1", holding the %#v rendering of the whole slice.
   */
  lemma UnspreadCallSingleEntry(h: Host, s: AppSetup, n: int, now: Instant, details: seq<Arg>)
    requires AppKeptOf(details) != []
    ensures AppStructureAsWritten(h, s, n, now, details).details
      == DetailsValue(Some(map["1" := TextValue(h, h.goSyntax(Slice(AppKeptOf(details))))]))
  {
    var start := AppStart(h, s, n, now, details);
    AppWalkIsLastWriteWins(h, start, details);
    var l := AppWalk(h, start, details);
    assert l.filteredDetails == AppKeptOf(details) by {
      assert [] + AppKeptOf(details) == AppKeptOf(details);
    }
    UnspreadDetailsOf(h, l);
  }

  /** The kept details of two plain strings are the two strings. */
  lemma TwoStringsKept(a: string, b: string)
    ensures AppKeptOf([Str(a), Str(b)]) == [Str(a), Str(b)]
  {
    var details := [Str(a), Str(b)];
    assert details[..1] == [Str(a)] && details[..1][..0] == [];
    assert AppKeptOf(details[..1][..0]) == [];
    assert AppKeptOf(details[..1]) == [Str(a)];
  }

  /** Spread, two plain strings are stored under "1" and "2". */
  lemma TwoStringsDetails(h: Host, a: string, b: string)
    ensures AppMessageDetails(h, [Str(a), Str(b)]).Some?
    ensures AppMessageDetails(h, [Str(a), Str(b)]).value.Keys == {"1", "2"}
  {
    var details := [Str(a), Str(b)];
    assert details[..1] == [Str(a)] && details[..1][..0] == [];
    SmallDecimals();
    assert DetailsMap(h, details[..1][..0]) == map[];
    assert DetailsMap(h, details[..1]) == map["1" := TextValue(h, a)];
    assert DetailsMap(h, details) == map["1" := TextValue(h, a), "2" := TextValue(h, b)];
    assert "1" in DetailsMap(h, details);
  }

  /** The two plain strings "a", "b": as written one entry, with the spread call one entry each. */
  lemma UnspreadCallLosesPositions(h: Host, s: AppSetup, n: int, now: Instant)
    ensures var d := AppStructureAsWritten(h, s, n, now, [Str("a"), Str("b")]).details;
      d.DetailsValue? && d.entries.Some? && d.entries.value.Keys == {"1"}
    ensures var d := AppStructure(h, s, n, now, [Str("a"), Str("b")]).details;
      d.DetailsValue? && d.entries.Some? && d.entries.value.Keys == {"1", "2"}
  {
    var details := [Str("a"), Str("b")];
    TwoStringsKept("a", "b");
    UnspreadCallSingleEntry(h, s, n, now, details);
    AppStructureResolved(h, s, n, now, details);
    TwoStringsDetails(h, "a", "b");
  }

  /** Without an override, the text is nil exactly when the message number has no template. */
  lemma AppTextWithoutOverride(h: Host, s: AppSetup, n: int, now: Instant, details: seq<Arg>)
    requires forall i :: 0 <= i < |details| ==> PickText(details[i]).None?
    ensures var m := AppStructure(h, s, n, now, details);
      && (m.text.Nil? <==> n !in s.idMessages)
      && (n in s.idMessages ==> m.text == Str(TextBeforeMarker(h.sprintf(s.idMessages[n], details))))
  {
    AppStructureResolved(h, s, n, now, details);
    LastPickWithout(details, PickText, AppTextOf(h, s, n, details));
  }

  /** A nil status map, with no status override, leaves the status empty. */
  lemma NilStatusMapLeavesStatusEmpty(h: Host, s: AppSetup, n: int, now: Instant, details: seq<Arg>)
    requires s.idStatuses.None?
    requires forall i :: 0 <= i < |details| ==> PickStatus(details[i]).None?
    ensures AppStructure(h, s, n, now, details).status == ""
  {
    AppStructureResolved(h, s, n, now, details);
    LastPickWithout(details, PickStatus, AppStatusOf(s, n));
  }

  /**
   * This revision looks the frame up whatever callerSkip is: for a positive
   * callerSkip it agrees with the later revisions, otherwise they keep the
   * current location where this one reports the frame it finds.
   */
  lemma LocationUngated(h: Host, callerSkip: int, current: string)
    ensures callerSkip > 0 ==> CallerLocation(h, callerSkip, current) == Overrides.ResolveLocation(h, callerSkip, current)
    ensures callerSkip <= 0 ==> Overrides.ResolveLocation(h, callerSkip, current) == current
    ensures h.caller(callerSkip).Some? ==>
      var fr := h.caller(callerSkip).value;
      CallerLocation(h, callerSkip, current) == "In " + fr.funcName + "() at " + fr.file + ":" + Itoa(fr.line)
  {
  }

  lemma SmallPowers()
    ensures Power10(2) == 100 && Power10(4) == 10000 && Power10(9) == 1000000000
  {
    assert Power10(1) == 10;
    assert Power10(3) == 1000;
    assert Power10(5) == 100000;
    assert Power10(7) == 10000000;
  }

  /** The date is zero-padded YYYY-MM-DD: ten characters whose three digit groups read back as the date. */
  lemma DateRendering(t: Instant)
    requires 0 <= t.year < 10000 && 1 <= t.month <= 12 && 1 <= t.day <= 31
    ensures var d := DateText(t);
      && |d| == 10 && d[4] == '-' && d[7] == '-'
      && AllDigits(d[..4]) && AllDigits(d[5..7]) && AllDigits(d[8..])
      && DecimalValue(d[..4]) == t.year && DecimalValue(d[5..7]) == t.month && DecimalValue(d[8..]) == t.day
  {
    SmallPowers();
    FixedWidth(t.year, 4);
    FixedWidth(t.month, 2);
    FixedWidth(t.day, 2);
    var d := DateText(t);
    assert d[..4] == FormatPadded(t.year, 4);
    assert d[5..7] == FormatPadded(t.month, 2);
    assert d[8..] == FormatPadded(t.day, 2);
  }

  /** The time is HH:MM:SS.NNNNNNNNN: eighteen characters whose digit groups read back as the clock. */
  lemma ClockRendering(t: Instant)
    requires 0 <= t.hour < 24 && 0 <= t.minute < 60 && 0 <= t.second < 60 && 0 <= t.nanosecond < 1000000000
    ensures var c := ClockText(t);
      && |c| == 18 && c[2] == ':' && c[5] == ':' && c[8] == '.'
      && AllDigits(c[..2]) && AllDigits(c[3..5]) && AllDigits(c[6..8]) && AllDigits(c[9..])
      && DecimalValue(c[..2]) == t.hour && DecimalValue(c[3..5]) == t.minute
      && DecimalValue(c[6..8]) == t.second && DecimalValue(c[9..]) == t.nanosecond
  {
    SmallPowers();
    FixedWidth(t.hour, 2);
    FixedWidth(t.minute, 2);
    FixedWidth(t.second, 2);
    FixedWidth(t.nanosecond, 9);
    var c := ClockText(t);
    assert c[..2] == FormatPadded(t.hour, 2);
    assert c[3..5] == FormatPadded(t.minute, 2);
    assert c[6..8] == FormatPadded(t.second, 2);
    assert c[9..] == FormatPadded(t.nanosecond, 9);
  }

  // ---------------------------------------------------------------------------
  // getKeyValuePairs, NewSlog, NewSlogLevel
  // ---------------------------------------------------------------------------

  /** The list values of an AppFormat as the key/value table holds them. */
  datatype AppPayload = AppErrorList(errs: seq<AppError>) | AppDetailMap(entries: map<string, AppValue>)

  /** getKeyValuePairs' table in this revision: date but no text. */
  function AppTableOf(m: AppFormat): (t: map<string, KvValue<AppPayload>>)
    ensures "text" !in t
    ensures forall k :: k in AppSlogKeys ==> k in t
  {
    map[
      "date" := KvString(m.date),
      "time" := KvString(m.time),
      "level" := KvString(m.level),
      "id" := KvString(m.id),
      "status" := KvString(m.status),
      "duration" := KvInt64(m.duration),
      "location" := KvString(m.location),
      "errors" := KvInterface(match m.errors case None => None case Some(es) => Some(AppErrorList(es))),
      "details" := match m.details
        case NoDetails => KvInterface(None)
        case DetailsValue(o) => KvSlice(match o case None => None case Some(dm) => Some(AppDetailMap(dm)))]
  }

  /** The keys NewSlog emits, in order; NewSlogLevel's are the same without "level". */
  const AppSlogKeys: seq<string> := ["level", "id", "status", "duration", "location", "errors", "details"]

  const AppSlogLevelKeys: seq<string> := ["id", "status", "duration", "location", "errors", "details"]

  /** The pairs alternate key and value in key-list order, and the text never reaches them. */
  lemma AppPairsShape(m: AppFormat, keys: seq<string>)
    ensures Key("text") !in Pairs(AppTableOf(m), keys, false)
    ensures Alternating(Pairs(AppTableOf(m), keys, false), AppTableOf(m), false)
    ensures KeysOf(Pairs(AppTableOf(m), keys, false)) == EmittedKeys(AppTableOf(m), keys, false)
  {
    var t := AppTableOf(m);
    AbsentKeyNeverEmitted(t, keys, false, "text");
    PairsKeys(t, keys, false);
  }

  /** NewSlog's pairs never carry the date. */
  lemma AppSlogOmitsDate(m: AppFormat)
    ensures Key("date") !in Pairs(AppTableOf(m), AppSlogKeys, false)
  {
    if Key("date") in Pairs(AppTableOf(m), AppSlogKeys, false) {
      KeyEmittedOnlyIfRequested(AppTableOf(m), AppSlogKeys, false, "date");
    }
  }

  /** NewSlogLevel's pairs never carry the level (nor the date). */
  lemma AppSlogLevelOmitsLevel(m: AppFormat)
    ensures Key("level") !in Pairs(AppTableOf(m), AppSlogLevelKeys, false)
  {
    if Key("level") in Pairs(AppTableOf(m), AppSlogLevelKeys, false) {
      KeyEmittedOnlyIfRequested(AppTableOf(m), AppSlogLevelKeys, false, "level");
    }
  }

  /** The Text.(string) type assertion of NewSlog and NewSlogLevel fails: Go panics. */
  datatype SlogFailure = TextNotString

  /** Without a template and without a text override, NewSlog and NewSlogLevel panic. */
  lemma NoTemplatePanics(h: Host, s: AppSetup, n: int, now: Instant, details: seq<Arg>)
    requires n !in s.idMessages
    requires forall i :: 0 <= i < |details| ==> PickText(details[i]).None?
    ensures !AppStructure(h, s, n, now, details).text.Str?
  {
    AppTextWithoutOverride(h, s, n, now, details);
  }

  /** One pass of populateStructure's loop: the type switch on one detail. */
  method ApplyArg(h: Host, l0: AppLocals, value: Arg) returns (l: AppLocals)
    ensures l == AppApply(h, l0, value)
  {
    l := l0;
    match value {
      case AppOpt(o) =>
        match o {
          case AppMessageCallerSkip(v) => l := l.(callerSkip := v);
          case AppMessageDuration(v) => l := l.(duration := v);
          case AppMessageId(v) => l := l.(id := v);
          case AppMessageLevel(v) => l := l.(level := v);
          case AppMessageLocation(v) => l := l.(location := v);
          case AppMessageStatus(v) => l := l.(status := v);
          case AppMessageText(v) => l := l.(text := v);
          case AppMessageTimestamp(v) => l := l.(now := v);
          case AppMessageOptionCallerSkip(_) => l := l.(filteredDetails := l.filteredDetails + [value]);
        }
      case Error(errorMessage) =>
        var priorError: AppError;
        if AppIsJson(h, errorMessage) {
          priorError := AppError(AppJson(AppJsonAsInterface(h, errorMessage)));
        } else {
          priorError := AppError(AppString(errorMessage));
        }
        l := l.(errorList := l.errorList + [priorError], filteredDetails := l.filteredDetails + [value]);
      case Duration(ns) =>
        l := l.(duration := ns);
      case _ =>
        l := l.(filteredDetails := l.filteredDetails + [value]);
    }
  }

  /** The record step of populateStructure, after the loop. */
  method ComposeAppResult(h: Host, l: AppLocals) returns (r: AppFormat)
    ensures r == AppFormatOf(h, l, true)
  {
    var date := FormatPadded(l.now.year, 4) + "-" + FormatPadded(l.now.month, 2) + "-" + FormatPadded(l.now.day, 2);
    var time := FormatPadded(l.now.hour, 2) + ":" + FormatPadded(l.now.minute, 2) + ":"
      + FormatPadded(l.now.second, 2) + "." + FormatPadded(l.now.nanosecond, 9);
    var location := l.location;
    match h.caller(l.callerSkip) {
      case Some(fr) =>
        location := "In " + fr.funcName + "() at " + fr.file + ":" + Itoa(fr.line);
      case None =>
    }
    r := AppFormat(date, time, l.level, l.id, l.text, l.status, l.duration, location, None, NoDetails);
    if |l.errorList| > 0 {
      r := r.(errors := Some(l.errorList));
    }
    if |l.filteredDetails| > 0 {
      var md := MessageDetails(h, l.filteredDetails);
      r := r.(details := DetailsValue(md));
    }
  }

  class AppMessageImpl {
    var idMessages: map<int, string>
    var idStatuses: Option<map<int, string>>
    var messageIDTemplate: string
    var callerSkip: int
    var sortedIDLevelRanges: Option<seq<int>>

    /** The level cache is empty or holds the range bounds in descending order. */
    ghost predicate Valid()
      reads this
    {
      CacheValid(sortedIDLevelRanges)
    }

    function CurrentSetup(): AppSetup
      reads this
    {
      AppSetup(idMessages, idStatuses, messageIDTemplate, callerSkip)
    }

    constructor (s: AppSetup)
      ensures Valid() && sortedIDLevelRanges.None?
      ensures CurrentSetup() == s
    {
      idMessages := s.idMessages;
      idStatuses := s.idStatuses;
      messageIDTemplate := s.messageIDTemplate;
      callerSkip := s.callerSkip;
      sortedIDLevelRanges := None;
    }

    /**
     * getSortedIdLevelRanges: fills the cache on first use with the range
     * bounds sorted descending and afterwards returns it unchanged.
     */
    method GetSortedIDLevelRanges() returns (sorted: seq<int>)
      requires Valid()
      modifies this`sortedIDLevelRanges
      ensures Valid()
      ensures sortedIDLevelRanges == Some(sorted)
      ensures old(sortedIDLevelRanges).Some? ==> sortedIDLevelRanges == old(sortedIDLevelRanges)
      ensures sorted == SortedRangeBounds
    {
      if sortedIDLevelRanges.None? {
        var keys := FillLevelCache();
        sortedIDLevelRanges := Some(keys);
      }
      sorted := sortedIDLevelRanges.value;
      CacheIsSortedBounds(sortedIDLevelRanges);
    }

    /** getLevel: the level of the message number's range, "UNKNOWN" below 0. */
    method GetLevel(messageNumber: int) returns (name: string)
      requires Valid()
      modifies this`sortedIDLevelRanges
      ensures Valid() && sortedIDLevelRanges == Some(SortedRangeBounds)
      ensures name == LevelForNumber(messageNumber)
    {
      var sorted := GetSortedIDLevelRanges();
      name := FindLevel(IDLevelRangesAsString, sorted, messageNumber);
      LevelOfNumber(sorted, messageNumber);
    }

    /** populateStructure, with the kept details spread into messageDetails. */
    method PopulateStructure(h: Host, now: Instant, messageNumber: int, details: seq<Arg>) returns (r: AppFormat)
      requires Valid()
      modifies this`sortedIDLevelRanges
      ensures Valid() && sortedIDLevelRanges == Some(SortedRangeBounds)
      ensures r == AppStructure(h, old(CurrentSetup()), messageNumber, now, details)
    {
      ghost var s := CurrentSetup();
      var level := GetLevel(messageNumber);
      var id := h.sprintf(messageIDTemplate, [Int(messageNumber)]);
      var text: Arg := Nil;
      if messageNumber in idMessages {
        var textRaw := h.sprintf(idMessages[messageNumber], details);
        text := Str(TextBeforeMarker(textRaw));
      }
      var status := "";
      if idStatuses.Some? && messageNumber in idStatuses.value {
        status := idStatuses.value[messageNumber];
      }
      var l := AppLocals(callerSkip, 0, [], level, "", status, text, id, now, []);
      ghost var start := AppStart(h, s, messageNumber, now, details);
      assert l == start;
      for i := 0 to |details|
        invariant l == AppWalk(h, start, details[..i])
        invariant sortedIDLevelRanges == Some(SortedRangeBounds)
      {
        assert details[..i + 1][..i] == details[..i];
        assert AppWalk(h, start, details[..i + 1]) == AppApply(h, AppWalk(h, start, details[..i]), details[i]);
        l := ApplyArg(h, l, details[i]);
      }
      assert details[..|details|] == details;
      r := ComposeAppResult(h, l);
    }

    /**
     * NewSlog: the text, which must be a string, and the pairs of the level,
     * id, status, duration, location, errors and details keys.
     */
    method NewSlog(h: Host, now: Instant, messageNumber: int, details: seq<Arg>)
      returns (r: Result<(string, seq<KvItem<AppPayload>>), SlogFailure>)
      requires Valid()
      modifies this`sortedIDLevelRanges
      ensures Valid() && sortedIDLevelRanges == Some(SortedRangeBounds)
      ensures var m := AppStructure(h, old(CurrentSetup()), messageNumber, now, details);
        && (r.Failure? <==> !m.text.Str?)
        && (r.Ok? ==> r.value == (m.text.str, Pairs(AppTableOf(m), AppSlogKeys, false)))
    {
      var appMessageFormat := PopulateStructure(h, now, messageNumber, details);
      var keyValuePairs := GetKeyValuePairs(AppTableOf(appMessageFormat), AppSlogKeys);
      if appMessageFormat.text.Str? {
        r := Ok((appMessageFormat.text.str, keyValuePairs));
      } else {
        r := Failure(TextNotString);
      }
    }

    /**
     * NewSlogLevel: the text, which must be a string, the slog level (PANIC
     * for a level name the table lacks) and the pairs of the fixed keys.
     */
    method NewSlogLevel(h: Host, now: Instant, messageNumber: int, details: seq<Arg>)
      returns (r: Result<(string, int, seq<KvItem<AppPayload>>), SlogFailure>)
      requires Valid()
      modifies this`sortedIDLevelRanges
      ensures Valid() && sortedIDLevelRanges == Some(SortedRangeBounds)
      ensures var m := AppStructure(h, old(CurrentSetup()), messageNumber, now, details);
        && (r.Failure? <==> !m.text.Str?)
        && (r.Ok? ==> r.value == (m.text.str, SlogLevelOf(m.level), Pairs(AppTableOf(m), AppSlogLevelKeys, false)))
    {
      var appMessageFormat := PopulateStructure(h, now, messageNumber, details);
      var keyValuePairs := GetKeyValuePairs(AppTableOf(appMessageFormat), AppSlogLevelKeys);
      var slogLevel: int;
      if appMessageFormat.level in TextToLevelMap {
        slogLevel := TextToLevelMap[appMessageFormat.level];
      } else {
        slogLevel := LevelPanicInt;
      }
      if appMessageFormat.text.Str? {
        r := Ok((appMessageFormat.text.str, slogLevel, keyValuePairs));
      } else {
        r := Failure(TextNotString);
      }
    }
  }
}
