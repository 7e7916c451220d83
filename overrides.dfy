/**
 * Override resolution of the two messenger revisions. The details of a
 * message are walked in order and each one falls into exactly one group: a
 * field override sets its own field (a later one overwriting an earlier one),
 * an error is recorded both in the error list and among the remaining details,
 * a time.Duration sets the duration and is dropped, and anything else is kept
 * as a detail. The later revision (messenger_basic.go, parseDetails)
 * recognises overrides passed by value, the earlier one (messenger.go,
 * populateStructure) overrides passed by pointer, and it has no code or
 * reason override.
 */
module Overrides {

  import opened Wrappers
  import opened StringUtil
  import opened Values

  datatype Revision = Basic | Simple

  /** The working fields of one message (theFields in messenger_basic.go). */
  datatype Fields = Fields(
    code: string,
    duration: int,
    id: string,
    level: string,
    location: string,
    reason: string,
    status: string,
    text: string,
    callerSkip: int,
    errorList: seq<string>,
    timeNow: string,
    filteredDetails: seq<Arg>)

  /** Whether the revision's type switch takes `a` as a field override. */
  predicate IsFieldOverride(rev: Revision, a: Arg)
  {
    && a.Opt?
    && match rev
       case Basic =>
         !a.byPointer
         && (a.option.MessageCode? || a.option.MessageDuration? || a.option.MessageID?
             || a.option.MessageLevel? || a.option.MessageLocation? || a.option.MessageReason?
             || a.option.MessageStatus? || a.option.MessageText? || a.option.MessageTime?
             || a.option.OptionCallerSkip?)
       case Simple =>
         a.byPointer
         && (a.option.MessageDuration? || a.option.MessageID? || a.option.MessageLevel?
             || a.option.MessageLocation? || a.option.MessageStatus? || a.option.MessageText?
             || a.option.MessageTime? || a.option.OptionCallerSkip?)
  }

  /** The effect of one detail on the fields: one case of the type switch. */
  function ApplyDetail(h: Host, rev: Revision, f: Fields, a: Arg): Fields
  {
    if IsFieldOverride(rev, a) then
      match a.option
      case MessageCode(v) => f.(code := v)
      case MessageDuration(v) => f.(duration := v)
      case MessageID(v) => f.(id := v)
      case MessageLevel(v) => f.(level := v)
      case MessageLocation(v) => f.(location := v)
      case MessageReason(v) => f.(reason := v)
      case MessageStatus(v) => f.(status := v)
      case MessageText(v) => f.(text := v)
      case MessageTime(t) => f.(timeNow := h.formatTime(t))
      case OptionCallerSkip(v) => f.(callerSkip := v)
      case _ => f
    else if a.Error? then
      f.(errorList := f.errorList + [CleanErrorString(a.message)], filteredDetails := f.filteredDetails + [a])
    else if a.Duration? then
      f.(duration := a.nanoseconds)
    else
      f.(filteredDetails := f.filteredDetails + [a])
  }

  /** The fields after walking all details in order. */
  function ParseAll(h: Host, rev: Revision, f: Fields, details: seq<Arg>): Fields
  {
    if details == [] then f
    else ApplyDetail(h, rev, ParseAll(h, rev, f, details[..|details| - 1]), details[|details| - 1])
  }

  // ---------------------------------------------------------------------------
  // A reference definition, field by field
  // ---------------------------------------------------------------------------

  datatype StrField = CodeField | IdField | LevelField | LocationField | ReasonField | StatusField | TextField | TimeField

  datatype IntField = DurationField | CallerSkipField

  /** The value `a` assigns to a string field, if any. */
  function PickStr(h: Host, rev: Revision, field: StrField, a: Arg): Option<string>
  {
    if !IsFieldOverride(rev, a) then None
    else
      match (field, a.option)
      case (CodeField, MessageCode(v)) => Some(v)
      case (IdField, MessageID(v)) => Some(v)
      case (LevelField, MessageLevel(v)) => Some(v)
      case (LocationField, MessageLocation(v)) => Some(v)
      case (ReasonField, MessageReason(v)) => Some(v)
      case (StatusField, MessageStatus(v)) => Some(v)
      case (TextField, MessageText(v)) => Some(v)
      case (TimeField, MessageTime(t)) => Some(h.formatTime(t))
      case _ => None
  }

  /** The value `a` assigns to an integer field, if any; a time.Duration sets the duration. */
  function PickInt(rev: Revision, field: IntField, a: Arg): Option<int>
  {
    match field
    case DurationField =>
      if IsFieldOverride(rev, a) && a.option.MessageDuration? then Some(a.option.durationValue)
      else if !IsFieldOverride(rev, a) && a.Duration? then Some(a.nanoseconds)
      else None
    case CallerSkipField =>
      if IsFieldOverride(rev, a) && a.option.OptionCallerSkip? then Some(a.option.skip) else None
  }

  /** The last value assigned to a string field, or its starting value. */
  function LastStr(h: Host, rev: Revision, field: StrField, details: seq<Arg>, start: string): string
  {
    if details == [] then start
    else
      match PickStr(h, rev, field, details[|details| - 1])
      case Some(v) => v
      case None => LastStr(h, rev, field, details[..|details| - 1], start)
  }

  function LastInt(rev: Revision, field: IntField, details: seq<Arg>, start: int): int
  {
    if details == [] then start
    else
      match PickInt(rev, field, details[|details| - 1])
      case Some(v) => v
      case None => LastInt(rev, field, details[..|details| - 1], start)
  }

  /** The cleaned messages of the error details, in order. */
  function ErrorsOf(details: seq<Arg>): seq<string>
  {
    if details == [] then []
    else
      var a := details[|details| - 1];
      ErrorsOf(details[..|details| - 1]) + (if a.Error? then [CleanErrorString(a.message)] else [])
  }

  /** The details that remain: everything but field overrides and durations, in order. */
  function KeptOf(rev: Revision, details: seq<Arg>): seq<Arg>
  {
    if details == [] then []
    else
      var a := details[|details| - 1];
      KeptOf(rev, details[..|details| - 1])
      + (if IsFieldOverride(rev, a) || a.Duration? then [] else [a])
  }

  /** The fields the reference definition assigns. */
  function Expected(h: Host, rev: Revision, f: Fields, details: seq<Arg>): Fields
  {
    Fields(
      LastStr(h, rev, CodeField, details, f.code),
      LastInt(rev, DurationField, details, f.duration),
      LastStr(h, rev, IdField, details, f.id),
      LastStr(h, rev, LevelField, details, f.level),
      LastStr(h, rev, LocationField, details, f.location),
      LastStr(h, rev, ReasonField, details, f.reason),
      LastStr(h, rev, StatusField, details, f.status),
      LastStr(h, rev, TextField, details, f.text),
      LastInt(rev, CallerSkipField, details, f.callerSkip),
      f.errorList + ErrorsOf(details),
      LastStr(h, rev, TimeField, details, f.timeNow),
      f.filteredDetails + KeptOf(rev, details))
  }

  function GetStr(f: Fields, field: StrField): string
  {
    match field
    case CodeField => f.code
    case IdField => f.id
    case LevelField => f.level
    case LocationField => f.location
    case ReasonField => f.reason
    case StatusField => f.status
    case TextField => f.text
    case TimeField => f.timeNow
  }

  function GetInt(f: Fields, field: IntField): int
  {
    match field
    case DurationField => f.duration
    case CallerSkipField => f.callerSkip
  }

  lemma ApplyStr(h: Host, rev: Revision, f: Fields, a: Arg, field: StrField)
    ensures GetStr(ApplyDetail(h, rev, f, a), field)
      == match PickStr(h, rev, field, a) case Some(v) => v case None => GetStr(f, field)
  {
  }

  lemma ApplyInt(h: Host, rev: Revision, f: Fields, a: Arg, field: IntField)
    ensures GetInt(ApplyDetail(h, rev, f, a), field)
      == match PickInt(rev, field, a) case Some(v) => v case None => GetInt(f, field)
  {
  }

  /** A string field ends with the value of the last detail that assigns it. */
  lemma {:induction false} StrFieldLastWins(h: Host, rev: Revision, f: Fields, details: seq<Arg>, field: StrField)
    ensures GetStr(ParseAll(h, rev, f, details), field) == LastStr(h, rev, field, details, GetStr(f, field))
  {
    if details != [] {
      StrFieldLastWins(h, rev, f, details[..|details| - 1], field);
      ApplyStr(h, rev, ParseAll(h, rev, f, details[..|details| - 1]), details[|details| - 1], field);
    }
  }

  /** An integer field ends with the value of the last detail that assigns it. */
  lemma {:induction false} IntFieldLastWins(h: Host, rev: Revision, f: Fields, details: seq<Arg>, field: IntField)
    ensures GetInt(ParseAll(h, rev, f, details), field) == LastInt(rev, field, details, GetInt(f, field))
  {
    if details != [] {
      IntFieldLastWins(h, rev, f, details[..|details| - 1], field);
      ApplyInt(h, rev, ParseAll(h, rev, f, details[..|details| - 1]), details[|details| - 1], field);
    }
  }

  /** The error list grows by the cleaned messages of the errors, and the kept details by the rest. */
  lemma {:induction false} ListsCollected(h: Host, rev: Revision, f: Fields, details: seq<Arg>)
    ensures ParseAll(h, rev, f, details).errorList == f.errorList + ErrorsOf(details)
    ensures ParseAll(h, rev, f, details).filteredDetails == f.filteredDetails + KeptOf(rev, details)
  {
    if details != [] {
      var init := details[..|details| - 1];
      ListsCollected(h, rev, f, init);
      var a := details[|details| - 1];
      if IsFieldOverride(rev, a) || a.Duration? {
        assert ErrorsOf(details) == ErrorsOf(init) + [];
        assert KeptOf(rev, details) == KeptOf(rev, init) + [];
      } else if a.Error? {
        assert ErrorsOf(details) == ErrorsOf(init) + [CleanErrorString(a.message)];
        assert KeptOf(rev, details) == KeptOf(rev, init) + [a];
      } else {
        assert ErrorsOf(details) == ErrorsOf(init) + [];
        assert KeptOf(rev, details) == KeptOf(rev, init) + [a];
      }
    } else {
      assert f.errorList + [] == f.errorList;
      assert f.filteredDetails + [] == f.filteredDetails;
    }
  }

  /**
   * Walking the details sets every field to the value of the last detail that
   * assigns it (its starting value when none does), appends the cleaned error
   * messages to the error list, and keeps every detail other than the
   * overrides and durations, errors included, in order.
   */
  lemma ParseAllIsLastWriteWins(h: Host, rev: Revision, f: Fields, details: seq<Arg>)
    ensures ParseAll(h, rev, f, details) == Expected(h, rev, f, details)
  {
    StrFieldLastWins(h, rev, f, details, CodeField);
    StrFieldLastWins(h, rev, f, details, IdField);
    StrFieldLastWins(h, rev, f, details, LevelField);
    StrFieldLastWins(h, rev, f, details, LocationField);
    StrFieldLastWins(h, rev, f, details, ReasonField);
    StrFieldLastWins(h, rev, f, details, StatusField);
    StrFieldLastWins(h, rev, f, details, TextField);
    StrFieldLastWins(h, rev, f, details, TimeField);
    IntFieldLastWins(h, rev, f, details, DurationField);
    IntFieldLastWins(h, rev, f, details, CallerSkipField);
    ListsCollected(h, rev, f, details);
  }

  /** Details without overrides, errors or durations pass through untouched. */
  lemma {:induction false} PlainDetailsPassThrough(h: Host, rev: Revision, f: Fields, details: seq<Arg>)
    requires forall i :: 0 <= i < |details| ==>
      !IsFieldOverride(rev, details[i]) && !details[i].Error? && !details[i].Duration?
    ensures ParseAll(h, rev, f, details) == f.(filteredDetails := f.filteredDetails + details)
  {
    if details != [] {
      var init := details[..|details| - 1];
      PlainDetailsPassThrough(h, rev, f, init);
      assert init + [details[|details| - 1]] == details;
    } else {
      assert f.filteredDetails + details == f.filteredDetails;
    }
  }

  /** Only the overrides tell the revisions apart: on details without options both walks agree. */
  lemma {:induction false} RevisionsAgreeWithoutOptions(h: Host, f: Fields, details: seq<Arg>)
    requires forall i :: 0 <= i < |details| ==> !details[i].Opt?
    ensures ParseAll(h, Basic, f, details) == ParseAll(h, Simple, f, details)
  {
    if details != [] {
      var init := details[..|details| - 1];
      assert forall i :: 0 <= i < |init| ==> init[i] == details[i];
      RevisionsAgreeWithoutOptions(h, f, init);
    }
  }

  /** Every kept detail is one of the details. */
  lemma {:induction false} KeptFromDetails(rev: Revision, details: seq<Arg>)
    ensures forall x :: x in KeptOf(rev, details) ==> x in details
  {
    if details != [] {
      var init := details[..|details| - 1];
      KeptFromDetails(rev, init);
      assert forall x :: x in init ==> x in details;
    }
  }

  /** parseDetails: the loop with its type switch. */
  method ParseDetails(h: Host, rev: Revision, start: Fields, details: seq<Arg>) returns (f: Fields)
    ensures f == ParseAll(h, rev, start, details)
  {
    f := start;
    var i := 0;
    while i < |details|
      invariant 0 <= i <= |details|
      invariant f == ParseAll(h, rev, start, details[..i])
    {
      var value := details[i];
      assert details[..i + 1][..i] == details[..i];
      if IsFieldOverride(rev, value) {
        match value.option {
          case MessageCode(v) => f := f.(code := v);
          case MessageDuration(v) => f := f.(duration := v);
          case MessageID(v) => f := f.(id := v);
          case MessageLevel(v) => f := f.(level := v);
          case MessageLocation(v) => f := f.(location := v);
          case MessageReason(v) => f := f.(reason := v);
          case MessageStatus(v) => f := f.(status := v);
          case MessageText(v) => f := f.(text := v);
          case MessageTime(t) => f := f.(timeNow := h.formatTime(t));
          case OptionCallerSkip(v) => f := f.(callerSkip := v);
          case _ =>
        }
      } else if value.Error? {
        f := f.(errorList := f.errorList + [CleanErrorString(value.message)],
                filteredDetails := f.filteredDetails + [value]);
      } else if value.Duration? {
        f := f.(duration := value.nanoseconds);
      } else {
        f := f.(filteredDetails := f.filteredDetails + [value]);
      }
      i := i + 1;
    }
    assert details[..|details|] == details;
  }

  /**
   * The location field: when callerSkip is positive and the runtime knows the
   * frame, "In <function>() at <file>:<line>"; otherwise it is left as it is.
   */
  function ResolveLocation(h: Host, callerSkip: int, current: string): (location: string)
    ensures callerSkip <= 0 ==> location == current
    ensures callerSkip > 0 && h.caller(callerSkip).None? ==> location == current
    ensures callerSkip > 0 && h.caller(callerSkip).Some? ==>
      var fr := h.caller(callerSkip).value;
      location == "In " + fr.funcName + "() at " + fr.file + ":" + Itoa(fr.line)
  {
    if callerSkip > 0 then
      match h.caller(callerSkip)
      case Some(fr) => "In " + fr.funcName + "() at " + fr.file + ":" + Itoa(fr.line)
      case None => current
    else current
  }
}
