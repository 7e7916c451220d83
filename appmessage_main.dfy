/**
 * appmessage.New and HandlerOptions (appmessage/main.go). New rejects a
 * product identifier outside 1..9999 and a nil message map (a nil status map
 * is accepted), takes the last caller-skip option, and builds the message id
 * template "senzing-<4-digit product id>%04d". HandlerOptions configures a
 * structured-logging handler whose attribute rewrite names the custom levels.
 */
module AppMessageMain {

  import opened Wrappers
  import opened StringUtil
  import opened Levels
  import opened Values
  import opened AppMessage

  datatype AppNewError = ErrProductIdentifier | ErrNilMessages

  /** fmt.Sprintf("senzing-%04d", productIdentifier) + "%04d". */
  function ProductTemplate(productIdentifier: int): string
  {
    "senzing-" + FormatPadded(productIdentifier, 4) + "%04d"
  }

  /** The value of a caller-skip option, None for any other argument. */
  function PickOptionSkip(a: Arg): Option<int>
  {
    if a.AppOpt? && a.appOption.AppMessageOptionCallerSkip? then Some(a.appOption.optionSkip) else None
  }

  /** What New returns: an error, or the settings of the new AppMessageImpl. */
  function AppNewOutcome(productIdentifier: int, idMessages: Option<map<int, string>>,
                         idStatuses: Option<map<int, string>>, options: seq<Arg>): Result<AppSetup, AppNewError>
  {
    if productIdentifier <= 0 || productIdentifier >= 10000 then Failure(ErrProductIdentifier)
    else if idMessages.None? then Failure(ErrNilMessages)
    else Ok(AppSetup(idMessages.value, idStatuses, ProductTemplate(productIdentifier), LastPick(options, PickOptionSkip, 0)))
  }

  /**
   * New's checks: a product identifier outside 1..9999 is rejected first,
   * then a nil message map; a nil status map is kept as it is.
   */
  lemma AppNewValidation(productIdentifier: int, idMessages: Option<map<int, string>>,
                         idStatuses: Option<map<int, string>>, options: seq<Arg>)
    ensures var r := AppNewOutcome(productIdentifier, idMessages, idStatuses, options);
      && (r == Failure(ErrProductIdentifier) <==> productIdentifier <= 0 || productIdentifier >= 10000)
      && (r == Failure(ErrNilMessages) <==> 0 < productIdentifier < 10000 && idMessages.None?)
      && (r.Ok? <==> 0 < productIdentifier < 10000 && idMessages.Some?)
      && (r.Ok? ==> r.value.idMessages == idMessages.value && r.value.idStatuses == idStatuses)
  {
  }

  /** The template is "senzing-", the product id as exactly four digits, then "%04d". */
  lemma ProductTemplateDigits(productIdentifier: int)
    requires 0 < productIdentifier < 10000
    ensures var t := ProductTemplate(productIdentifier);
      var digits := t[8..12];
      && t == "senzing-" + digits + "%04d"
      && |digits| == 4 && AllDigits(digits) && DecimalValue(digits) == productIdentifier
  {
    SmallPowers();
    FixedWidth(productIdentifier, 4);
    assert ProductTemplate(productIdentifier)[8..12] == FormatPadded(productIdentifier, 4);
  }

  /** The last caller-skip option among the options decides; other options do not count. */
  lemma {:induction false} OptionSkipLastWins(options: seq<Arg>, i: int)
    requires 0 <= i < |options| && PickOptionSkip(options[i]).Some?
    requires forall j :: i < j < |options| ==> PickOptionSkip(options[j]).None?
    ensures LastPick(options, PickOptionSkip, 0) == options[i].appOption.optionSkip
  {
    if i < |options| - 1 {
      var init := options[..|options| - 1];
      assert forall j :: 0 <= j < |init| ==> init[j] == options[j];
      OptionSkipLastWins(init, i);
    }
  }

  /** Without a caller-skip option, callerSkip stays 0. */
  lemma NoOptionSkipIsZero(productIdentifier: int, idMessages: Option<map<int, string>>,
                           idStatuses: Option<map<int, string>>, options: seq<Arg>)
    requires forall j :: 0 <= j < |options| ==> PickOptionSkip(options[j]).None?
    requires AppNewOutcome(productIdentifier, idMessages, idStatuses, options).Ok?
    ensures AppNewOutcome(productIdentifier, idMessages, idStatuses, options).value.callerSkip == 0
  {
    LastPickWithout(options, PickOptionSkip, 0);
  }

  /** New: the checks, the option loop, then the new AppMessageImpl with an empty level cache. */
  method New(productIdentifier: int, idMessages: Option<map<int, string>>,
             idStatuses: Option<map<int, string>>, options: seq<Arg>)
    returns (m: AppMessageImpl?, err: Option<AppNewError>)
    ensures AppNewOutcome(productIdentifier, idMessages, idStatuses, options).Failure? ==>
      m == null && err == Some(AppNewOutcome(productIdentifier, idMessages, idStatuses, options).error)
    ensures AppNewOutcome(productIdentifier, idMessages, idStatuses, options).Ok? ==>
      && err.None? && m != null && fresh(m) && m.Valid() && m.sortedIDLevelRanges.None?
      && m.CurrentSetup() == AppNewOutcome(productIdentifier, idMessages, idStatuses, options).value
  {
    m := null;
    if productIdentifier <= 0 || productIdentifier >= 10000 {
      err := Some(ErrProductIdentifier);
      return;
    }
    if idMessages.None? {
      err := Some(ErrNilMessages);
      return;
    }
    var callerSkip := 0;
    for i := 0 to |options|
      invariant callerSkip == LastPick(options[..i], PickOptionSkip, 0)
    {
      assert options[..i + 1][..i] == options[..i];
      match options[i] {
        case AppOpt(AppMessageOptionCallerSkip(v)) =>
          callerSkip := v;
        case _ =>
      }
    }
    assert options[..|options|] == options;
    err := None;
    m := new AppMessageImpl(AppSetup(idMessages.value, idStatuses, ProductTemplate(productIdentifier), callerSkip));
  }

  // ---------------------------------------------------------------------------
  // HandlerOptions
  // ---------------------------------------------------------------------------

  /** The handler's minimum level: the given leveler's, LevelInfoSlog when it is nil. */
  function HandlerLevel(leveler: Option<int>): (level: int)
    ensures leveler.None? ==> level == LevelInfoInt
    ensures leveler.Some? ==> level == leveler.value
  {
    match leveler
    case None => LevelInfoInt
    case Some(l) => l
  }

  /** A handler logs a record whose level is at least its minimum level. */
  predicate Enabled(minimum: int, level: int)
  {
    level >= minimum
  }

  /** With a nil leveler, INFO through PANIC are logged and TRACE and DEBUG are dropped. */
  lemma DefaultHandlerLevels()
    ensures forall i :: 0 <= i < 7 ==> (Enabled(HandlerLevel(None), LevelInts[i]) <==> i >= 2)
  {
    forall i | 0 <= i < 7 ensures Enabled(HandlerLevel(None), LevelInts[i]) <==> i >= 2 {
      assert i == 0 || i == 1 || i == 2 || i == 3 || i == 4 || i == 5 || i == 6;
    }
  }

  /** The value of a log attribute: a string, a level, or anything else. */
  datatype AttrValue = StringValue(s: string) | LevelValue(level: int) | OtherValue(token: string)

  datatype Attr = Attr(key: string, value: AttrValue)

  /** The keys the handler gives the message and the level. */
  const MessageKey: string := "msg"
  const LevelKey: string := "level"

  /** slog's "%s%+d" of a level relative to a named base, the base alone at offset 0. */
  function Offset(base: string, delta: int): string
  {
    if delta == 0 then base else if delta > 0 then base + "+" + Itoa(delta) else base + Itoa(delta)
  }

  /** slog.Level.String: relative to the nearest named level at or below, DEBUG for those below INFO. */
  function LevelString(l: int): string
  {
    if l < LevelInfoInt then Offset("DEBUG", l - LevelDebugInt)
    else if l < LevelWarnInt then Offset("INFO", l - LevelInfoInt)
    else if l < LevelErrorInt then Offset("WARN", l - LevelWarnInt)
    else Offset("ERROR", l - LevelErrorInt)
  }

  /** The ReplaceAttr closure: renames the message key to "text" and names the custom levels. */
  function ReplaceAttr(groups: seq<string>, a: Attr): Attr
  {
    var renamed := if a.key == MessageKey then a.(key := "text") else a;
    if renamed.key == LevelKey then
      var level := match renamed.value
        case StringValue(s) => s
        case LevelValue(l) => LevelString(l)
        case OtherValue(_) => "";
      if level == "DEBUG-4" then renamed.(value := StringValue("TRACE"))
      else if level == "ERROR+4" then renamed.(value := StringValue("FATAL"))
      else if level == "ERROR+8" then renamed.(value := StringValue("PANIC"))
      else renamed
    else renamed
  }

  /** What the handler prints for a value. */
  function Rendered(v: AttrValue): string
  {
    match v
    case StringValue(s) => s
    case LevelValue(l) => LevelString(l)
    case OtherValue(t) => t
  }

  /**
   * The message key becomes "text"; a level attribute keeps its key; every
   * other attribute, and a level string other than the three rewritten
   * ones, passes through unchanged.
   */
  lemma ReplaceAttrKeys(groups: seq<string>, a: Attr)
    ensures a.key == MessageKey ==> ReplaceAttr(groups, a) == a.(key := "text")
    ensures a.key != MessageKey && a.key != LevelKey ==> ReplaceAttr(groups, a) == a
    ensures a.key == LevelKey ==> ReplaceAttr(groups, a).key == LevelKey
    ensures a.key == LevelKey && a.value.StringValue?
      && a.value.s != "DEBUG-4" && a.value.s != "ERROR+4" && a.value.s != "ERROR+8"
      ==> ReplaceAttr(groups, a) == a
  {
  }

  lemma LevelStrings()
    ensures LevelString(LevelTraceInt) == "DEBUG-4"
    ensures LevelString(LevelDebugInt) == "DEBUG"
    ensures LevelString(LevelInfoInt) == "INFO"
    ensures LevelString(LevelWarnInt) == "WARN"
    ensures LevelString(LevelErrorInt) == "ERROR"
    ensures LevelString(LevelFatalInt) == "ERROR+4"
    ensures LevelString(LevelPanicInt) == "ERROR+8"
  {
    assert NatToDecimal(4) == "4";
    assert NatToDecimal(8) == "8";
  }

  /** Every one of the seven levels is printed under its own name, TRACE, FATAL and PANIC included. */
  lemma LevelsPrintedByName(groups: seq<string>)
    ensures forall i :: 0 <= i < 7 ==>
      Rendered(ReplaceAttr(groups, Attr(LevelKey, LevelValue(LevelInts[i]))).value) == LevelNames[i]
  {
    LevelStrings();
    forall i | 0 <= i < 7
      ensures Rendered(ReplaceAttr(groups, Attr(LevelKey, LevelValue(LevelInts[i]))).value) == LevelNames[i]
    {
      assert i == 0 || i == 1 || i == 2 || i == 3 || i == 4 || i == 5 || i == 6;
    }
  }
}
