/**
 * messenger.New (messenger/main.go): walks its options in order, each
 * recognised option overwriting one setting, then rejects a component
 * identifier outside 1..9999, a nil message map and a nil status map, in
 * that order, and otherwise creates a BasicMessenger.
 */
module MessengerNew {

  import opened Wrappers
  import opened StringUtil
  import opened MessengerBasic

  /** The values of the option types New recognises; a nil map or slice is None. */
  datatype OptionValue =
    | CallerSkipOption(skip: int)
    | ComponentIDOption(componentID: int)
    | IDMessagesOption(messages: Option<map<int, string>>)
    | IDStatusesOption(statuses: Option<map<int, string>>)
    | MessageFieldsOption(fields: Option<seq<string>>)
    | MessageIDTemplateOption(template: string)

  /**
   * One argument of New: an option passed by pointer (the only form the type
   * switch matches), the same option passed by value, or a value of any other
   * type.
   */
  datatype NewOption =
    | Pointer(value: OptionValue)
    | ByValue(value: OptionValue)
    | OtherOption(token: string)

  datatype NewError = ErrBadComponentID | ErrEmptyMessages | ErrEmptyStatuses

  /** The local variables of New. */
  datatype Settings = Settings(
    callerSkip: int,
    idMessages: Option<map<int, string>>,
    idStatuses: Option<map<int, string>>,
    componentIdentifier: int,
    messageIDTemplate: string,
    messageFields: Option<seq<string>>)

  /** fmt.Sprintf("SZSDK%04d", componentIdentifier) + "%04d". */
  function IDTemplate(componentIdentifier: int): string
  {
    "SZSDK" + FormatPadded(componentIdentifier, 4) + "%04d"
  }

  const DefaultComponentID: int := 9999

  /** The defaults: empty maps, component 9999 and its template, no field list. */
  const Defaults: Settings :=
    Settings(0, Some(map[]), Some(map[]), DefaultComponentID, IDTemplate(DefaultComponentID), None)

  /** One case of New's type switch. */
  function ApplyOption(s: Settings, o: NewOption): Settings
  {
    match o
    case Pointer(v) =>
      (match v
       case CallerSkipOption(k) => s.(callerSkip := k)
       case ComponentIDOption(c) => s.(componentIdentifier := c, messageIDTemplate := IDTemplate(c))
       case IDMessagesOption(m) => s.(idMessages := m)
       case IDStatusesOption(m) => s.(idStatuses := m)
       case MessageFieldsOption(f) => s.(messageFields := f)
       case MessageIDTemplateOption(t) => s.(messageIDTemplate := t))
    case _ => s
  }

  /** The settings after the options, applied in order. */
  function ApplyOptions(s: Settings, options: seq<NewOption>): Settings
  {
    if options == [] then s
    else ApplyOption(ApplyOptions(s, options[..|options| - 1]), options[|options| - 1])
  }

  /** The checks after the option loop, and the messenger's setup when they pass. */
  function Validate(s: Settings): (r: Result<Setup, NewError>)
    ensures r == Failure(ErrBadComponentID) <==> s.componentIdentifier <= 0 || s.componentIdentifier >= 10000
    ensures r == Failure(ErrEmptyMessages) <==>
      0 < s.componentIdentifier < 10000 && s.idMessages.None?
    ensures r == Failure(ErrEmptyStatuses) <==>
      0 < s.componentIdentifier < 10000 && s.idMessages.Some? && s.idStatuses.None?
    ensures r.Ok? ==> r.value.idMessages == s.idMessages.value && r.value.idStatuses == s.idStatuses.value
  {
    if s.componentIdentifier <= 0 || s.componentIdentifier >= 10000 then Failure(ErrBadComponentID)
    else if s.idMessages.None? then Failure(ErrEmptyMessages)
    else if s.idStatuses.None? then Failure(ErrEmptyStatuses)
    else Ok(Setup(s.callerSkip, s.idMessages.value, s.idStatuses.value, s.messageFields, s.messageIDTemplate))
  }

  /** What New yields for a list of options. */
  function NewOutcome(options: seq<NewOption>): Result<Setup, NewError>
  {
    Validate(ApplyOptions(Defaults, options))
  }

  // ---------------------------------------------------------------------------
  // A reference definition: each setting is its last assignment
  // ---------------------------------------------------------------------------

  /** The value the last option that `pick` recognises gives, or start. */
  function LastOf<T>(options: seq<NewOption>, pick: OptionValue -> Option<T>, start: T): T
  {
    if options == [] then start
    else
      var o := options[|options| - 1];
      if o.Pointer? && pick(o.value).Some? then pick(o.value).value
      else LastOf(options[..|options| - 1], pick, start)
  }

  function PickCallerSkip(v: OptionValue): Option<int>
  {
    if v.CallerSkipOption? then Some(v.skip) else None
  }

  function PickComponent(v: OptionValue): Option<int>
  {
    if v.ComponentIDOption? then Some(v.componentID) else None
  }

  function PickMessages(v: OptionValue): Option<Option<map<int, string>>>
  {
    if v.IDMessagesOption? then Some(v.messages) else None
  }

  function PickStatuses(v: OptionValue): Option<Option<map<int, string>>>
  {
    if v.IDStatusesOption? then Some(v.statuses) else None
  }

  function PickFields(v: OptionValue): Option<Option<seq<string>>>
  {
    if v.MessageFieldsOption? then Some(v.fields) else None
  }

  /** Both a component identifier and an explicit template set the template. */
  function PickTemplate(v: OptionValue): Option<string>
  {
    match v
    case ComponentIDOption(c) => Some(IDTemplate(c))
    case MessageIDTemplateOption(t) => Some(t)
    case _ => None
  }

  /** The settings the reference definition assigns. */
  function LastSettings(s: Settings, options: seq<NewOption>): Settings
  {
    Settings(
      LastOf(options, PickCallerSkip, s.callerSkip),
      LastOf(options, PickMessages, s.idMessages),
      LastOf(options, PickStatuses, s.idStatuses),
      LastOf(options, PickComponent, s.componentIdentifier),
      LastOf(options, PickTemplate, s.messageIDTemplate),
      LastOf(options, PickFields, s.messageFields))
  }

  /**
   * Last write wins: after the loop every setting holds the value of the last
   * pointer option that assigns it, its default when none does; the template
   * follows whichever of OptionComponentID and OptionMessageIDTemplate came
   * last.
   */
  lemma {:induction false} OptionsLastWriteWins(s: Settings, options: seq<NewOption>)
    ensures ApplyOptions(s, options) == LastSettings(s, options)
  {
    if options != [] {
      OptionsLastWriteWins(s, options[..|options| - 1]);
    }
  }

  /** Options passed by value and values of other types change nothing. */
  lemma UnrecognisedOptionIgnored(s: Settings, options: seq<NewOption>, o: NewOption)
    requires !o.Pointer?
    ensures ApplyOptions(s, options + [o]) == ApplyOptions(s, options)
  {
    assert (options + [o])[..|options|] == options;
  }

  /** A component identifier in range gives "SZSDK", its four digits, then "%04d". */
  lemma ComponentTemplate(c: int)
    requires 0 < c < 10000
    ensures var digits := IDTemplate(c)[5..9];
      && IDTemplate(c) == "SZSDK" + digits + "%04d"
      && |digits| == 4 && AllDigits(digits) && DecimalValue(digits) == c
  {
    assert Power10(4) == 10000 by {
      assert Power10(1) == 10;
      assert Power10(2) == 100;
      assert Power10(3) == 1000;
    }
    FixedWidth(c, 4);
    var digits := FormatPadded(c, 4);
    assert IDTemplate(c)[5..9] == digits;
  }

  /** Without options New succeeds with empty maps, no field list and the template of component 9999. */
  lemma NewWithoutOptions()
    ensures NewOutcome([]).Ok?
    ensures var s := NewOutcome([]).value;
      && s.callerSkip == 0 && s.idMessages == map[] && s.idStatuses == map[]
      && s.messageFields.None? && s.messageIDTemplate == IDTemplate(9999)
    ensures IDTemplate(9999)[5..9] == "9999"
  {
    ComponentTemplate(9999);
    var digits := IDTemplate(9999)[5..9];
    assert DecimalValue(digits) == 9999;
    assert digits == "9999" by {
      DigitsOf9999(digits);
    }
  }

  /** The only four-digit decimal with value 9999. */
  lemma DigitsOf9999(d: string)
    requires |d| == 4 && AllDigits(d) && DecimalValue(d) == 9999
    ensures d == "9999"
  {
    var d3, d2, d1 := d[..3], d[..2], d[..1];
    assert d3[..2] == d2 && d2[..1] == d1 && d1[..0] == [];
    assert DecimalValue(d) == DecimalValue(d3) * 10 + ((d[3] as int) - ('0' as int));
    assert DecimalValue(d3) == DecimalValue(d2) * 10 + ((d[2] as int) - ('0' as int));
    assert DecimalValue(d2) == DecimalValue(d1) * 10 + ((d[1] as int) - ('0' as int));
    assert DecimalValue(d1) == (d[0] as int) - ('0' as int);
    assert d[3] == '9' && d[2] == '9' && d[1] == '9' && d[0] == '9';
  }

  /**
   * The checks run in a fixed order on the final settings: a component
   * identifier out of range is reported whatever the maps, a nil message map
   * next, a nil status map last.
   */
  lemma NewValidationOrder(options: seq<NewOption>)
    ensures var c := LastOf(options, PickComponent, DefaultComponentID);
      var messages := LastOf(options, PickMessages, Some(map[]));
      var statuses := LastOf(options, PickStatuses, Some(map[]));
      && (NewOutcome(options) == Failure(ErrBadComponentID) <==> c <= 0 || c >= 10000)
      && (NewOutcome(options) == Failure(ErrEmptyMessages) <==> 0 < c < 10000 && messages.None?)
      && (NewOutcome(options) == Failure(ErrEmptyStatuses) <==>
            0 < c < 10000 && messages.Some? && statuses.None?)
      && (NewOutcome(options).Ok? <==> 0 < c < 10000 && messages.Some? && statuses.Some?)
  {
    OptionsLastWriteWins(Defaults, options);
  }

  /** The option loop of New. */
  method ProcessOptions(options: seq<NewOption>) returns (s: Settings)
    ensures s == ApplyOptions(Defaults, options)
  {
    s := Defaults;
    var i := 0;
    while i < |options|
      invariant 0 <= i <= |options|
      invariant s == ApplyOptions(Defaults, options[..i])
    {
      assert options[..i + 1][..i] == options[..i];
      match options[i] {
        case Pointer(v) =>
          match v {
            case CallerSkipOption(k) => s := s.(callerSkip := k);
            case ComponentIDOption(c) =>
              s := s.(componentIdentifier := c);
              s := s.(messageIDTemplate := "SZSDK" + FormatPadded(c, 4) + "%04d");
            case IDMessagesOption(m) => s := s.(idMessages := m);
            case IDStatusesOption(m) => s := s.(idStatuses := m);
            case MessageFieldsOption(f) => s := s.(messageFields := f);
            case MessageIDTemplateOption(t) => s := s.(messageIDTemplate := t);
          }
        case _ =>
      }
      i := i + 1;
    }
    assert options[..|options|] == options;
  }

  /**
   * New: the outcome of the options; on success a fresh BasicMessenger with
   * those settings and an empty level cache.
   */
  method New(options: seq<NewOption>) returns (m: BasicMessenger?, err: Option<NewError>)
    ensures NewOutcome(options).Failure? ==> m == null && err == Some(NewOutcome(options).error)
    ensures NewOutcome(options).Ok? ==>
      && err.None? && m != null && fresh(m) && m.Valid()
      && m.CurrentSetup() == NewOutcome(options).value && m.sortedIDLevelRanges.None?
  {
    var s := ProcessOptions(options);
    m := null;
    if s.componentIdentifier <= 0 || s.componentIdentifier >= 10000 {
      err := Some(ErrBadComponentID);
      return;
    }
    if s.idMessages.None? {
      err := Some(ErrEmptyMessages);
      return;
    }
    if s.idStatuses.None? {
      err := Some(ErrEmptyStatuses);
      return;
    }
    err := None;
    m := new BasicMessenger(Setup(s.callerSkip, s.idMessages.value, s.idStatuses.value, s.messageFields, s.messageIDTemplate));
  }
}
