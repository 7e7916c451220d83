/**
 * The values that flow through the message builders. Go passes details as
 * `...interface{}`; here every kind of value the builders distinguish is a
 * constructor of Arg. The Go runtime services the builders call (JSON syntax
 * check, printf rendering, caller lookup, time formatting) are the fields of
 * a Host record, so every property proved holds for any behaviour of them.
 */
module Values {

  import opened Wrappers
  import opened StringUtil

  /** A point in time, by the calendar fields Go's time.Time exposes; its location is not modelled. */
  datatype Instant = Instant(year: int, month: int, day: int, hour: int, minute: int, second: int, nanosecond: int)

  /** A caller frame as the builders report it: function name after the last '.', file base name, line. */
  datatype Frame = Frame(funcName: string, file: string, line: int)

  /** The override and option types of the messenger package (messenger/main.go). */
  datatype Override =
    | MessageCode(code: string)
    | MessageDetails(detailsValue: Arg)
    | MessageDuration(durationValue: int)
    | MessageID(idValue: string)
    | MessageLevel(levelValue: string)
    | MessageLocation(locationValue: string)
    | MessageReason(reasonValue: string)
    | MessageStatus(statusValue: string)
    | MessageText(textValue: string)
    | MessageTime(timeValue: Instant)
    | OptionCallerSkip(skip: int)
    | OptionMessageField(field: string)
    | OptionMessageFields(fields: seq<string>)

  /**
   * The override types of the appmessage package, always passed by pointer,
   * and New's caller-skip option (appmessage/main.go).
   */
  datatype AppOverride =
    | AppMessageCallerSkip(appSkip: int)
    | AppMessageDuration(appDuration: int)
    | AppMessageId(appId: string)
    | AppMessageLevel(appLevel: string)
    | AppMessageLocation(appLocation: string)
    | AppMessageStatus(appStatus: string)
    | AppMessageText(appText: Arg)
    | AppMessageTimestamp(appTime: Instant)
    | AppMessageOptionCallerSkip(optionSkip: int)

  /**
   * One detail argument, by its dynamic Go type. `StringMap` is a
   * map[string]string with its entries in the runtime's iteration order;
   * `Opt` is a messenger override passed by value or by pointer; `Slice` is a
   * []interface{}; `Other` stands for any value of a type no builder
   * recognises, identified by a token.
   */
  datatype Arg =
    | Nil
    | Str(str: string)
    | Int(intValue: int)
    | Float(floatValue: real)
    | Bool(boolValue: bool)
    | Error(message: string)
    | Duration(nanoseconds: int)
    | StringMap(entries: seq<(string, string)>)
    | Opt(option: Override, byPointer: bool)
    | AppOpt(appOption: AppOverride)
    | Slice(items: seq<Arg>)
    | Other(token: string)

  /**
   * The runtime services, as total functions:
   * jsonValid   - encoding/json accepts the bytes as one JSON value (RFC 8259)
   * unquote     - strconv.Unquote, None on error
   * sprintf     - fmt.Sprintf(template, args...)
   * formatFloat - fmt "%g"
   * goSyntax    - fmt "%#v"
   * typeName    - fmt "%+v" of reflect.TypeOf
   * caller      - runtime.Caller(skip) with FuncForPC, the `^.*\.(.*)$` rewrite and filepath.Base
   * toLower     - strings.ToLower
   * formatTime  - time.Time.Format(time.RFC3339Nano) of the instant
   */
  datatype Host = Host(
    jsonValid: string -> bool,
    unquote: string -> Option<string>,
    sprintf: (string, seq<Arg>) -> string,
    formatFloat: real -> string,
    goSyntax: Arg -> string,
    typeName: Arg -> string,
    caller: int -> Option<Frame>,
    toLower: string -> string,
    formatTime: Instant -> string)

  /** The ValueRaw of a Detail: nothing, JSON text kept raw, or the Go value itself. */
  datatype Raw =
    | NoRaw
    | RawJson(json: string)
    | RawInt(rawInt: int)
    | RawFloat(rawFloat: real)
    | RawBool(rawBool: bool)
    | RawArg(rawArg: Arg)

  /** One entry of a message's "details" list. */
  datatype Detail = Detail(key: string, position: int, typ: string, value: string, valueRaw: Raw)

  /** The record the messenger revisions build; errors and details are nil (None) when absent. */
  datatype MessageFormat = MessageFormat(
    time: string,
    level: string,
    id: string,
    text: string,
    code: string,
    reason: string,
    status: string,
    duration: int,
    location: string,
    errors: Option<seq<string>>,
    details: Option<seq<Detail>>)

  /** The list values of a MessageFormat as a key/value table holds them. */
  datatype Payload = ErrorList(errs: seq<string>) | DetailList(ds: seq<Detail>)

  const EmptyMessage: MessageFormat := MessageFormat("", "", "", "", "", "", "", 0, "", None, None)

  /** isJSON: the text, with tabs and newlines removed, is one JSON value. */
  predicate IsJSON(h: Host, s: string)
  {
    h.jsonValid(CleanTabsAndNewlines(s))
  }

  /** JSON white space (RFC 8259 section 2): space, horizontal tab, line feed, carriage return. */
  const JsonSpace: set<char> := {' ', '\t', '\n', '\r'}

  /**
   * jsonAsInterface: the cleaned text as a json.RawMessage. Unmarshal
   * keeps only the bytes of the value itself, so the white space around it
   * is dropped. Go panics when the text is not JSON; every caller checks
   * IsJSON first.
   */
  function JsonAsInterface(h: Host, s: string): (raw: string)
    requires IsJSON(h, s)
    ensures '\n' !in raw && '\t' !in raw
    ensures raw == [] || (raw[0] !in JsonSpace && raw[|raw| - 1] !in JsonSpace)
    ensures TrimmedFrom(CleanTabsAndNewlines(s), raw, JsonSpace)
    ensures var clean := CleanTabsAndNewlines(s);
      clean != [] && clean[0] !in JsonSpace && clean[|clean| - 1] !in JsonSpace ==> raw == clean && h.jsonValid(raw)
  {
    var clean := CleanTabsAndNewlines(s);
    var raw := Trim(clean, JsonSpace);
    TrimIsInfix(clean, JsonSpace);
    TrimmedKeepsOnlyItsCharacters(clean, raw, JsonSpace);
    raw
  }

  /** The ValueRaw of a string that may hold JSON: the JSON value without surrounding white space. */
  function RawOfText(h: Host, s: string): (r: Raw)
    ensures r.RawJson? <==> IsJSON(h, s)
    ensures r.RawJson? ==> r.json == Trim(CleanTabsAndNewlines(s), JsonSpace)
    ensures !r.RawJson? ==> r == NoRaw
  {
    if IsJSON(h, s) then RawJson(JsonAsInterface(h, s)) else NoRaw
  }

  function BoolText(b: bool): (s: string)
    ensures s == "true" || s == "false"
    ensures (s == "true") == b
  {
    if b then "true" else "false"
  }

  /** interfaceAsString of the messenger revisions. */
  function InterfaceAsString(h: Host, a: Arg): (s: string)
    ensures a.Nil? ==> s == "<nil>"
    ensures a.Bool? ==> s == BoolText(a.boolValue)
    ensures a.Int? ==> s == Itoa(a.intValue) && Atoi(s) == Some(a.intValue)
    ensures a.Float? ==> s == h.formatFloat(a.floatValue)
    ensures a.Error? ==> s == CleanErrorString(a.message) && '\n' !in s && '\t' !in s
    ensures a.Str? && !IsJSON(h, a.str) ==> s == a.str
    ensures a.Str? && IsJSON(h, a.str) ==> s == CleanTabsAndNewlines(a.str) && h.jsonValid(s)
    ensures !(a.Nil? || a.Str? || a.Int? || a.Float? || a.Bool? || a.Error?) ==> s == h.goSyntax(a)
  {
    match a
    case Nil => "<nil>"
    case Str(v) => if IsJSON(h, v) then CleanTabsAndNewlines(v) else v
    case Int(i) => ItoaRoundTrip(i); Itoa(i)
    case Float(f) => h.formatFloat(f)
    case Bool(b) => BoolText(b)
    case Error(m) => CleanTabsAndNewlines(m)
    case _ => h.goSyntax(a)
  }

  /** cleanErrorString: an error's message without tabs or newlines. */
  function CleanErrorString(message: string): (s: string)
    ensures '\n' !in s && '\t' !in s
    ensures '\n' !in message && '\t' !in message ==> s == message
  {
    CleanTabsAndNewlines(message)
  }
}
