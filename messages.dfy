/**
 * The wire envelope of Message.kt: the Message record, its type constants, and
 * MessageMapper.mapMessage, which builds a Message from a parsed JSON object.
 * The text parser (org.json) is a parameter: it either yields an object or fails.
 */
module Messages {
  import opened Wrappers

  const MessageAck := "ack"
  const MessageError := "error"
  const MessageGeneral := "message"
  const MessageConnect := "connect"
  const MessageSubscribe := "subscribe"

  /** A JSON value as the parser hands it over. Numbers are kept as their literal text. */
  datatype JsonValue =
    | JString(str: string)
    | JNumber(literal: string)
    | JBool(b: bool)
    | JNull
    | JArray(items: seq<JsonValue>)
    | JObject(fields: map<string, JsonValue>)

  type JsonObject = map<string, JsonValue>

  /** The envelope. `messageType` is the Kotlin field `type`; absent optional fields are None. */
  datatype Message = Message(
    messageType: string,
    roomID: Option<string>,
    connectionID: Option<string>,
    messageID: string,
    payload: Option<JsonObject>)

  /** Why mapMessage throws: the empty string, text that is not an object, a missing or ill-typed key. */
  datatype MapError =
    | EmptyInput
    | NotAnObject
    | MissingKey(key: string)
    | WrongType(key: string)

  const EnvelopeKeys: set<string> := {"type", "roomID", "connectionID", "messageID", "payload"}

  /** JSONObject.getString without the library's coercion of non-string values. */
  function GetString(obj: JsonObject, key: string): Result<string, MapError>
  {
    if key !in obj then Failure(MissingKey(key))
    else if obj[key].JString? then Success(obj[key].str)
    else Failure(WrongType(key))
  }

  /** An optional string field: absent gives None, a string gives its value, anything else fails. */
  function OptString(obj: JsonObject, key: string): Result<Option<string>, MapError>
  {
    if key !in obj then Success(None)
    else if obj[key].JString? then Success(Some(obj[key].str))
    else Failure(WrongType(key))
  }

  /** An optional object field: absent gives None, an object gives its fields, anything else fails. */
  function OptObject(obj: JsonObject, key: string): Result<Option<JsonObject>, MapError>
  {
    if key !in obj then Success(None)
    else if obj[key].JObject? then Success(Some(obj[key].fields))
    else Failure(WrongType(key))
  }

  /** MessageMapper.mapMessage: the fields are read in the order type, roomID, connectionID, messageID, payload. */
  function MapMessage(text: string, parse: string -> Option<JsonObject>): (r: Result<Message, MapError>)
    ensures text == [] ==> r == Failure(EmptyInput)
    ensures text != [] && parse(text).None? ==> r == Failure(NotAnObject)
    ensures r.Success? ==> parse(text).Some? && "type" in parse(text).value && "messageID" in parse(text).value
  {
    if |text| == 0 then Failure(EmptyInput)
    else match parse(text)
      case None => Failure(NotAnObject)
      case Some(obj) =>
        var messageType :- GetString(obj, "type");
        var roomID :- OptString(obj, "roomID");
        var connectionID :- OptString(obj, "connectionID");
        var messageID :- GetString(obj, "messageID");
        var payload :- OptObject(obj, "payload");
        Success(Message(messageType, roomID, connectionID, messageID, payload))
  }

  /** The shape an object must have for mapMessage to accept it, stated key by key. */
  predicate IsEnvelope(obj: JsonObject)
  {
    && "type" in obj && obj["type"].JString?
    && "messageID" in obj && obj["messageID"].JString?
    && ("roomID" in obj ==> obj["roomID"].JString?)
    && ("connectionID" in obj ==> obj["connectionID"].JString?)
    && ("payload" in obj ==> obj["payload"].JObject?)
  }

  /** The JSON object that carries exactly the non-null fields of an envelope. */
  function EnvelopeObject(m: Message): JsonObject
  {
    var required := map["type" := JString(m.messageType), "messageID" := JString(m.messageID)];
    var withRoom := if m.roomID.Some? then required["roomID" := JString(m.roomID.value)] else required;
    var withConn := if m.connectionID.Some? then withRoom["connectionID" := JString(m.connectionID.value)] else withRoom;
    if m.payload.Some? then withConn["payload" := JObject(m.payload.value)] else withConn
  }

  function Restrict(obj: JsonObject, keys: set<string>): JsonObject
  {
    map k | k in obj && k in keys :: obj[k]
  }

  /** mapMessage succeeds exactly on non-empty text that parses to an envelope-shaped object. */
  lemma MapMessageSucceedsIff(text: string, parse: string -> Option<JsonObject>)
    ensures MapMessage(text, parse).Success? <==> text != [] && parse(text).Some? && IsEnvelope(parse(text).value)
  {
  }

  /** The required keys: a missing `type` is reported first; a missing `messageID` fails even when all else is well. */
  lemma RequiredKeys(text: string, parse: string -> Option<JsonObject>)
    requires text != [] && parse(text).Some?
    ensures "type" !in parse(text).value ==> MapMessage(text, parse) == Failure(MissingKey("type"))
    ensures var obj := parse(text).value;
      "messageID" !in obj && IsEnvelope(obj["messageID" := JString("")]) ==>
        MapMessage(text, parse) == Failure(MissingKey("messageID"))
  {
  }

  /** A successful mapping copies each field from its key; an optional field is null exactly when its key is absent. */
  lemma MappedFields(text: string, parse: string -> Option<JsonObject>)
    requires MapMessage(text, parse).Success?
    ensures var obj, m := parse(text).value, MapMessage(text, parse).value;
      && obj["type"] == JString(m.messageType)
      && obj["messageID"] == JString(m.messageID)
      && (m.roomID.None? <==> "roomID" !in obj)
      && (m.roomID.Some? ==> obj["roomID"] == JString(m.roomID.value))
      && (m.connectionID.None? <==> "connectionID" !in obj)
      && (m.connectionID.Some? ==> obj["connectionID"] == JString(m.connectionID.value))
      && (m.payload.None? <==> "payload" !in obj)
      && (m.payload.Some? ==> obj["payload"] == JObject(m.payload.value))
  {
  }

  /** Mapping the object of an envelope gives that envelope back. */
  lemma MapEnvelopeObject(text: string, parse: string -> Option<JsonObject>, m: Message)
    requires text != [] && parse(text) == Some(EnvelopeObject(m))
    ensures MapMessage(text, parse) == Success(m)
  {
  }

  /** A mapped message, turned back into an object, is the input object with its non-envelope keys dropped. */
  lemma EnvelopeObjectOfMapped(text: string, parse: string -> Option<JsonObject>)
    requires MapMessage(text, parse).Success?
    ensures EnvelopeObject(MapMessage(text, parse).value) == Restrict(parse(text).value, EnvelopeKeys)
  {
    var obj, m := parse(text).value, MapMessage(text, parse).value;
    MappedFields(text, parse);
    var lhs, rhs := EnvelopeObject(m), Restrict(obj, EnvelopeKeys);
    forall k | k in EnvelopeKeys
      ensures (k in lhs <==> k in rhs) && (k in lhs ==> lhs[k] == rhs[k])
    {
    }
    assert lhs.Keys == rhs.Keys;
  }
}
