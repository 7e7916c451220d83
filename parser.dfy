/**
 * The message parser (parser/parser.go): ParserImpl decodes a JSON message
 * into its fields once, records whether that worked, and its getters fall
 * back to defaults (the raw message, empty collections, the zero time) where
 * the decoded message lacks something.
 */
module Parser {

  import opened Wrappers
  import opened Values
  import opened AppMessage

  /** A value decoded from JSON into an interface{}; JNull is Go's nil. */
  datatype JsonValue =
    | JNull
    | JBool(b: bool)
    | JNumber(x: real)
    | JString(s: string)
    | JArray(items: seq<JsonValue>)
    | JObject(fields: map<string, JsonValue>)

  /** The decoded message; a field that is absent or null is "" or 0 or JNull. */
  datatype ParsedMessage = ParsedMessage(
    time: string,
    level: string,
    id: string,
    text: JsonValue,
    status: string,
    duration: int,
    location: string,
    errors: JsonValue,
    details: JsonValue)

  const ZeroParsed: ParsedMessage := ParsedMessage("", "", "", JNull, "", 0, "", JNull, JNull)

  /** Go's zero time.Time, 0001-01-01 00:00:00 UTC. */
  const ZeroTime: Instant := Instant(1, 1, 1, 0, 0, 0, 0)

  /** The result of json.Unmarshal into a struct: the struct afterwards and the error, if any. */
  datatype Decoded = Decoded(parsed: ParsedMessage, err: Option<string>)

  /**
   * The runtime services the parser calls, as total functions:
   * unmarshal - json.Unmarshal of the text into the given struct
   * sprint    - fmt.Sprint of a decoded number, array or object
   * parseTime - time.Parse(time.RFC3339Nano, ...), None on error
   */
  datatype Decoder = Decoder(
    unmarshal: (string, ParsedMessage) -> Decoded,
    sprint: JsonValue -> string,
    parseTime: string -> Option<Instant>)

  /** The error initialize stores. */
  datatype ParseError = NotJSON | DecodeError(message: string)

  /** The text of an error. */
  function ErrorText(e: ParseError): string
  {
    match e
    case NotJSON => "string is not JSON"
    case DecodeError(m) => m
  }

  /** fmt.Sprint of a decoded value: a string as it is, nil as "<nil>", a bool as true or false. */
  function Sprint(d: Decoder, v: JsonValue): string
  {
    match v
    case JNull => "<nil>"
    case JBool(b) => BoolText(b)
    case JString(s) => s
    case _ => d.sprint(v)
  }

  /** What initialize returns (and stores) for a message and the struct it decodes into. */
  function InitError(h: Host, d: Decoder, message: string, parsed: ParsedMessage): (err: Option<ParseError>)
    ensures !AppIsJson(h, message) ==> err == Some(NotJSON)
    ensures AppIsJson(h, message) ==> (err.None? <==> d.unmarshal(message, parsed).err.None?)
    ensures err.Some? && err.value.NotJSON? ==> ErrorText(err.value) == "string is not JSON"
  {
    if AppIsJson(h, message) then
      match d.unmarshal(message, parsed).err
      case None => None
      case Some(m) => Some(DecodeError(m))
    else Some(NotJSON)
  }

  class ParserImpl {
    var isJson: bool
    var message: string
    var parseError: Option<ParseError>
    var parsedMessage: ParsedMessage

    /** A parser for a message, not yet initialized: Go's zero values. */
    constructor (message: string)
      ensures this.message == message && !isJson && parseError.None? && parsedMessage == ZeroParsed
    {
      this.message := message;
      isJson := false;
      parseError := None;
      parsedMessage := ZeroParsed;
    }

    /**
     * initialize: decodes the message when it passes the JSON test (the
     * unquote-tolerant one), fails with "string is not JSON" otherwise,
     * stores the error, and marks the parser as JSON exactly when there was
     * none. The message itself is never changed.
     */
    method Initialize(h: Host, d: Decoder) returns (err: Option<ParseError>)
      modifies this
      ensures err == InitError(h, d, message, old(parsedMessage))
      ensures parseError == err
      ensures isJson == (old(isJson) || err.None?)
      ensures message == old(message)
      ensures AppIsJson(h, message) ==> parsedMessage == d.unmarshal(message, old(parsedMessage)).parsed
      ensures !AppIsJson(h, message) ==> parsedMessage == old(parsedMessage)
    {
      if AppIsJson(h, message) {
        var decoded := d.unmarshal(message, parsedMessage);
        parsedMessage := decoded.parsed;
        match decoded.err {
          case None => err := None;
          case Some(m) => err := Some(DecodeError(m));
        }
      } else {
        err := Some(NotJSON);
      }
      if err.None? {
        isJson := true;
      }
      parseError := err;
    }

    /**
     * GetDetails: never nil; empty unless the decoded details are a JSON
     * object, and then one entry per key holding fmt.Sprint of its value.
     */
    method GetDetails(d: Decoder) returns (result: map<string, string>)
      ensures !parsedMessage.details.JObject? ==> result == map[]
      ensures parsedMessage.details.JObject? ==>
        && result.Keys == parsedMessage.details.fields.Keys
        && forall k :: k in result ==> result[k] == Sprint(d, parsedMessage.details.fields[k])
    {
      result := map[];
      if parsedMessage.details.JObject? {
        var parsedDetails := parsedMessage.details.fields;
        var remaining := parsedDetails.Keys;
        while remaining != {}
          invariant remaining <= parsedDetails.Keys
          invariant result.Keys == parsedDetails.Keys - remaining
          invariant forall k :: k in result ==> result[k] == Sprint(d, parsedDetails[k])
          decreases remaining
        {
          var key := NextKeyOf(remaining);
          result := result[key := Sprint(d, parsedDetails[key])];
          remaining := remaining - {key};
        }
      }
    }

    /**
     * GetErrors: never nil; empty unless the decoded errors are a JSON array,
     * and then fmt.Sprint of each element, in order.
     */
    method GetErrors(d: Decoder) returns (result: seq<string>)
      ensures !parsedMessage.errors.JArray? ==> result == []
      ensures parsedMessage.errors.JArray? ==>
        && |result| == |parsedMessage.errors.items|
        && forall i :: 0 <= i < |result| ==> result[i] == Sprint(d, parsedMessage.errors.items[i])
    {
      result := [];
      if parsedMessage.errors.JArray? {
        var parsedErrors := parsedMessage.errors.items;
        for i := 0 to |parsedErrors|
          invariant |result| == i
          invariant forall j :: 0 <= j < i ==> result[j] == Sprint(d, parsedErrors[j])
        {
          result := result + [Sprint(d, parsedErrors[i])];
        }
      }
    }

    /** GetMessage: the message as given. */
    function GetMessage(): string
      reads this
    {
      message
    }

    /** GetText: fmt.Sprint of the decoded text, "" when it is nil. */
    function GetText(d: Decoder): (text: string)
      reads this
      ensures parsedMessage.text.JNull? ==> text == ""
      ensures parsedMessage.text.JString? ==> text == parsedMessage.text.s
    {
      if parsedMessage.text.JNull? then "" else Sprint(d, parsedMessage.text)
    }

    /** GetMessageText: the decoded text when there is one, the raw message otherwise. */
    function GetMessageText(d: Decoder): (text: string)
      reads this
      ensures text != "" ==> text == GetText(d) || text == message
      ensures GetText(d) != "" ==> text == GetText(d)
      ensures GetText(d) == "" ==> text == message
      ensures message != "" ==> text != ""
    {
      var t := GetText(d);
      if t != "" then t else message
    }

    /**
     * GetTime: the decoded time parsed as an RFC 3339 (section 5.6)
     * date-time, and the zero time when it is empty or does not parse.
     */
    function GetTime(d: Decoder): (t: Instant)
      reads this
      ensures parsedMessage.time == "" ==> t == ZeroTime
      ensures parsedMessage.time != "" && d.parseTime(parsedMessage.time).None? ==> t == ZeroTime
      ensures parsedMessage.time != "" && d.parseTime(parsedMessage.time).Some? ==>
        t == d.parseTime(parsedMessage.time).value
    {
      if parsedMessage.time == "" then ZeroTime
      else
        match d.parseTime(parsedMessage.time)
        case Some(parsed) => parsed
        case None => ZeroTime
    }

    /** IsJson: whether initialize decoded the message without error. */
    function IsJson(): bool
      reads this
    {
      isJson
    }
  }

  /** The next key a map iteration yields: any one of those not yet visited. */
  method NextKeyOf(remaining: set<string>) returns (k: string)
    requires remaining != {}
    ensures k in remaining
  {
    k :| k in remaining;
  }

  /**
   * A parser built for a message and then initialized: the ParserImpl value
   * holding the message (the repository's tests obtain it through Parse),
   * followed by initialize (parser/parser.go:42-54). The message is kept as given,
   * the parser is JSON exactly when initialize reported no error, and text
   * that fails the JSON test ends with "string is not JSON" and the getters'
   * defaults (no text, so the raw message as message text, and the zero time).
   */
  method ParseMessage(h: Host, d: Decoder, message: string) returns (p: ParserImpl, err: Option<ParseError>)
    ensures fresh(p)
    ensures err == InitError(h, d, message, ZeroParsed) && p.parseError == err
    ensures p.GetMessage() == message
    ensures p.IsJson() <==> err.None?
    ensures !AppIsJson(h, message) ==>
      && err == Some(NotJSON) && ErrorText(err.value) == "string is not JSON"
      && p.parsedMessage == ZeroParsed
      && p.GetMessageText(d) == message && p.GetTime(d) == ZeroTime
  {
    p := new ParserImpl(message);
    err := p.Initialize(h, d);
  }
}
