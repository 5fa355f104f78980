/** The MCP message envelope (mcp/protocol.py): its fields, its dict form, the response builders
    and the boolean validator the server and client use. */
module Protocol {
  import opened Wrappers
  import opened PyStr
  import opened Dicts
  import opened Json

  const REGISTER := "register"
  const HEARTBEAT := "heartbeat"
  const ERROR := "error"
  const QUERY := "query"

  /** The values of the `MessageType` enumeration. */
  const MessageTypes: set<string> := {
    "register", "heartbeat", "error",
    "proposal.create", "proposal.list", "proposal.get", "proposal.update", "proposal.close",
    "vote.cast", "vote.list", "comment.add", "comment.list",
    "analyze.proposal", "analyze.vote", "query", "notification"
  }

  /** A parsed `datetime`: the instant in whole seconds, and whether the text carried a UTC offset.
      An offset makes the datetime aware, and Python refuses (TypeError) to subtract an aware
      datetime from the naive `datetime.now()`. */
  datatype Instant = Instant(seconds: int, aware: bool)

  /** `datetime.fromisoformat` as the model uses it: the instant an ISO-8601 text names, or None
      where Python raises ValueError. */
  type TimeParser = string -> Option<Instant>

  /** What a newly built MCPMessage draws from its default factories: a fresh `uuid4()` text and
      the `isoformat()` of the current time. */
  datatype Stamp = Stamp(id: string, time: string)

  /** The eleven fields of an MCPMessage. `ttl` is kept as a JSON value because the validators
      test its Python type. */
  datatype Message = Message(
    messageId: string,
    messageType: string,
    timestamp: string,
    sourceAgent: string,
    targetAgent: Option<string>,
    payload: Object,
    correlationId: Option<string>,
    replyTo: Option<string>,
    ttl: Value,
    authToken: Option<string>,
    signature: Option<string>)

  /** `MCPMessage()` with every field at its default; keyword arguments are written as datatype
      updates of this value. */
  function NewMessage(stamp: Stamp): Message {
    Message(stamp.id, QUERY, stamp.time, "unknown", None, [], None, None, Int(60), None, None)
  }

  /** The keys of `to_dict()`, in order. */
  const FieldNames: seq<string> := [
    "message_id", "message_type", "timestamp", "source_agent", "target_agent", "payload",
    "correlation_id", "reply_to", "ttl", "auth_token", "signature"]

  /** No field name occurs twice. */
  lemma FieldNamesDistinct()
    ensures forall i, j :: 0 <= i < j < |FieldNames| ==> FieldNames[i] != FieldNames[j]
  {
  }

  /** `to_dict()`: every field under its snake_case name, `None` as null. */
  function ToDict(m: Message): (d: Object)
    ensures Keys(d) == FieldNames && DistinctKeys(d)
  {
    var d := [("message_id", Str(m.messageId)),
              ("message_type", Str(m.messageType)),
              ("timestamp", Str(m.timestamp)),
              ("source_agent", Str(m.sourceAgent)),
              ("target_agent", OptStr(m.targetAgent)),
              ("payload", Obj(m.payload)),
              ("correlation_id", OptStr(m.correlationId)),
              ("reply_to", OptStr(m.replyTo)),
              ("ttl", m.ttl),
              ("auth_token", OptStr(m.authToken)),
              ("signature", OptStr(m.signature))];
    FieldNamesDistinct();
    DistinctKeysOfKeySeq(d, FieldNames);
    d
  }

  /** The key is absent or holds text. */
  predicate StrTyped(d: Object, key: string) {
    !HasKey(d, key) || Get(d, key).value.Str?
  }

  /** The key is absent or holds text or null. */
  predicate OptStrTyped(d: Object, key: string) {
    !HasKey(d, key) || Get(d, key).value.Str? || Get(d, key).value.Null?
  }

  /** The key is absent or holds a dict. */
  predicate ObjTyped(d: Object, key: string) {
    !HasKey(d, key) || Get(d, key).value.Obj?
  }

  /** `data.get(key, default)` for a field typed `str`; a value of another JSON type is refused. */
  function StrField(d: Object, key: string, default: string): (r: Option<string>)
    ensures !HasKey(d, key) ==> r == Some(default)
    ensures r.Some? <==> StrTyped(d, key)
    ensures r.Some? && HasKey(d, key) ==> Get(d, key) == Some(Str(r.value))
  {
    match Get<Value>(d, key)
    case None => Some(default)
    case Some(Str(s)) => Some(s)
    case Some(_) => None
  }

  /** `data.get(key)` for a field typed `Optional[str]`: absent and null both give None. */
  function OptStrField(d: Object, key: string): (r: Option<Option<string>>)
    ensures !HasKey(d, key) ==> r == Some(None)
    ensures r.Some? <==> OptStrTyped(d, key)
    ensures r.Some? && HasKey(d, key) ==> Get(d, key) == Some(OptStr(r.value))
  {
    match Get<Value>(d, key)
    case None => Some(None)
    case Some(Null) => Some(None)
    case Some(Str(s)) => Some(Some(s))
    case Some(_) => None
  }

  /** `data.get("payload", {})`. */
  function ObjField(d: Object, key: string): (r: Option<Object>)
    ensures !HasKey(d, key) ==> r == Some([])
    ensures r.Some? <==> ObjTyped(d, key)
    ensures r.Some? && HasKey(d, key) ==> Get(d, key) == Some(Obj(r.value))
  {
    match Get<Value>(d, key)
    case None => Some([])
    case Some(Obj(fs)) => Some(fs)
    case Some(_) => None
  }

  /** `MCPMessage.from_dict(data)`: a missing key takes the constructor's default (a fresh id and
      the current time for `message_id` and `timestamp`). None where a value has the wrong JSON
      type for its field. */
  function FromDict(d: Object, stamp: Stamp): (r: Option<Message>)
    ensures r.Some? ==>
      && (!HasKey(d, "message_id") ==> r.value.messageId == stamp.id)
      && (!HasKey(d, "message_type") ==> r.value.messageType == QUERY)
      && (!HasKey(d, "timestamp") ==> r.value.timestamp == stamp.time)
      && (!HasKey(d, "source_agent") ==> r.value.sourceAgent == "unknown")
      && (!HasKey(d, "target_agent") ==> r.value.targetAgent == None)
      && (!HasKey(d, "payload") ==> r.value.payload == [])
      && (!HasKey(d, "correlation_id") ==> r.value.correlationId == None)
      && (!HasKey(d, "reply_to") ==> r.value.replyTo == None)
      && (!HasKey(d, "ttl") ==> r.value.ttl == Int(60))
      && (!HasKey(d, "auth_token") ==> r.value.authToken == None)
      && (!HasKey(d, "signature") ==> r.value.signature == None)
  {
    var id :- StrField(d, "message_id", stamp.id);
    var messageType :- StrField(d, "message_type", QUERY);
    var timestamp :- StrField(d, "timestamp", stamp.time);
    var source :- StrField(d, "source_agent", "unknown");
    var target :- OptStrField(d, "target_agent");
    var payload :- ObjField(d, "payload");
    var correlation :- OptStrField(d, "correlation_id");
    var replyTo :- OptStrField(d, "reply_to");
    var auth :- OptStrField(d, "auth_token");
    var signature :- OptStrField(d, "signature");
    Some(Message(id, messageType, timestamp, source, target, payload, correlation, replyTo,
                 GetOr(d, "ttl", Int(60)), auth, signature))
  }

  /** `from_dict` succeeds exactly when every typed field present holds a value of its type. */
  lemma FromDictTyped(d: Object, stamp: Stamp)
    ensures var r := FromDict(d, stamp);
      r.Some? <==>
      && StrTyped(d, "message_id") && StrTyped(d, "message_type") && StrTyped(d, "timestamp")
      && StrTyped(d, "source_agent") && OptStrTyped(d, "target_agent") && ObjTyped(d, "payload")
      && OptStrTyped(d, "correlation_id") && OptStrTyped(d, "reply_to") && OptStrTyped(d, "auth_token")
      && OptStrTyped(d, "signature")
  {
  }

  /** A key present in the dict gives its field the value it holds. */
  lemma FromDictPresent(d: Object, stamp: Stamp)
    ensures var r := FromDict(d, stamp);
      r.Some? ==>
      && (HasKey(d, "message_id") ==> Get(d, "message_id") == Some(Str(r.value.messageId)))
      && (HasKey(d, "message_type") ==> Get(d, "message_type") == Some(Str(r.value.messageType)))
      && (HasKey(d, "timestamp") ==> Get(d, "timestamp") == Some(Str(r.value.timestamp)))
      && (HasKey(d, "source_agent") ==> Get(d, "source_agent") == Some(Str(r.value.sourceAgent)))
      && (HasKey(d, "target_agent") ==> Get(d, "target_agent") == Some(OptStr(r.value.targetAgent)))
      && (HasKey(d, "payload") ==> Get(d, "payload") == Some(Obj(r.value.payload)))
      && (HasKey(d, "correlation_id") ==> Get(d, "correlation_id") == Some(OptStr(r.value.correlationId)))
      && (HasKey(d, "reply_to") ==> Get(d, "reply_to") == Some(OptStr(r.value.replyTo)))
      && (HasKey(d, "ttl") ==> Get(d, "ttl") == Some(r.value.ttl))
      && (HasKey(d, "auth_token") ==> Get(d, "auth_token") == Some(OptStr(r.value.authToken)))
      && (HasKey(d, "signature") ==> Get(d, "signature") == Some(OptStr(r.value.signature)))
  {
    FromDictTyped(d, stamp);
    if FromDict(d, stamp).Some? {
      var m := Message(StrField(d, "message_id", stamp.id).value, StrField(d, "message_type", QUERY).value,
                       StrField(d, "timestamp", stamp.time).value, StrField(d, "source_agent", "unknown").value,
                       OptStrField(d, "target_agent").value, ObjField(d, "payload").value,
                       OptStrField(d, "correlation_id").value, OptStrField(d, "reply_to").value,
                       GetOr(d, "ttl", Int(60)), OptStrField(d, "auth_token").value,
                       OptStrField(d, "signature").value);
      assert FromDict(d, stamp) == Some(m);
    }
  }

  /** A dict without any of the envelope's keys yields the all-defaults message. */
  lemma FromEmptyDict(stamp: Stamp)
    ensures FromDict([], stamp) == Some(NewMessage(stamp))
  {
  }

  /** Looking up each field name in `to_dict(m)` finds that field. */
  lemma {:induction false} ToDictLookups(m: Message)
    ensures Get(ToDict(m), "message_id") == Some(Str(m.messageId))
    ensures Get(ToDict(m), "message_type") == Some(Str(m.messageType))
    ensures Get(ToDict(m), "timestamp") == Some(Str(m.timestamp))
    ensures Get(ToDict(m), "source_agent") == Some(Str(m.sourceAgent))
    ensures Get(ToDict(m), "target_agent") == Some(OptStr(m.targetAgent))
    ensures Get(ToDict(m), "payload") == Some(Obj(m.payload))
    ensures Get(ToDict(m), "correlation_id") == Some(OptStr(m.correlationId))
    ensures Get(ToDict(m), "reply_to") == Some(OptStr(m.replyTo))
    ensures Get(ToDict(m), "ttl") == Some(m.ttl)
    ensures Get(ToDict(m), "auth_token") == Some(OptStr(m.authToken))
    ensures Get(ToDict(m), "signature") == Some(OptStr(m.signature))
  {
    var d := ToDict(m);
    GetAt(d, 0); GetAt(d, 1); GetAt(d, 2); GetAt(d, 3); GetAt(d, 4); GetAt(d, 5);
    GetAt(d, 6); GetAt(d, 7); GetAt(d, 8); GetAt(d, 9); GetAt(d, 10);
  }

  lemma StrFieldOf(d: Object, key: string, default: string, s: string)
    requires Get(d, key) == Some(Str(s))
    ensures StrField(d, key, default) == Some(s)
  {
  }

  lemma OptStrFieldOf(d: Object, key: string, o: Option<string>)
    requires Get(d, key) == Some(OptStr(o))
    ensures OptStrField(d, key) == Some(o)
  {
  }

  /** `from_dict(to_dict(m))` reproduces all eleven fields. */
  lemma ToDictFromDict(m: Message, stamp: Stamp)
    ensures FromDict(ToDict(m), stamp) == Some(m)
  {
    var d := ToDict(m);
    ToDictLookups(m);
    StrFieldOf(d, "message_id", stamp.id, m.messageId);
    StrFieldOf(d, "message_type", QUERY, m.messageType);
    StrFieldOf(d, "timestamp", stamp.time, m.timestamp);
    StrFieldOf(d, "source_agent", "unknown", m.sourceAgent);
    OptStrFieldOf(d, "target_agent", m.targetAgent);
    OptStrFieldOf(d, "correlation_id", m.correlationId);
    OptStrFieldOf(d, "reply_to", m.replyTo);
    OptStrFieldOf(d, "auth_token", m.authToken);
    OptStrFieldOf(d, "signature", m.signature);
  }

  /** `self.target_agent or "system"`: who answers a message. */
  function Responder(m: Message): string {
    match m.targetAgent
    case Some(t) => if t != "" then t else "system"
    case None => "system"
  }

  /** `create_response(payload)`. */
  function CreateResponse(m: Message, payload: Object, stamp: Stamp): (r: Message)
    ensures r.messageType == m.messageType + ".response" && EndsWith(r.messageType, ".response")
    ensures r.targetAgent == Some(m.sourceAgent) && r.correlationId == Some(m.messageId)
    ensures r.sourceAgent == (if m.targetAgent.Some? && m.targetAgent.value != "" then m.targetAgent.value else "system")
    ensures r.payload == payload && r.replyTo == m.replyTo
    ensures r.authToken == None && r.signature == None && r.ttl == Int(60)
  {
    NewMessage(stamp).(messageType := m.messageType + ".response", sourceAgent := Responder(m),
                       targetAgent := Some(m.sourceAgent), payload := payload,
                       correlationId := Some(m.messageId), replyTo := m.replyTo)
  }

  /** The payload of an error reply. */
  function ErrorPayload(code: string, text: string, originalType: string): (p: Object)
    ensures Keys(p) == ["error_code", "error_message", "original_message_type"]
    ensures Get(p, "error_code") == Some(Str(code)) && Get(p, "error_message") == Some(Str(text))
    ensures Get(p, "original_message_type") == Some(Str(originalType))
  {
    var p := [("error_code", Str(code)), ("error_message", Str(text)), ("original_message_type", Str(originalType))];
    GetAt(p, 1); GetAt(p, 2);
    p
  }

  /** `create_error_response(error_code, error_message)`. */
  function CreateErrorResponse(m: Message, code: string, text: string, stamp: Stamp): (r: Message)
    ensures r.messageType == ERROR
    ensures r.targetAgent == Some(m.sourceAgent) && r.correlationId == Some(m.messageId)
    ensures r.sourceAgent == (if m.targetAgent.Some? && m.targetAgent.value != "" then m.targetAgent.value else "system")
    ensures Keys(r.payload) == ["error_code", "error_message", "original_message_type"]
    ensures Get(r.payload, "error_code") == Some(Str(code)) && Get(r.payload, "error_message") == Some(Str(text))
    ensures Get(r.payload, "original_message_type") == Some(Str(m.messageType))
    ensures r.replyTo == m.replyTo
  {
    NewMessage(stamp).(messageType := ERROR, sourceAgent := Responder(m),
                       targetAgent := Some(m.sourceAgent),
                       payload := ErrorPayload(code, text, m.messageType),
                       correlationId := Some(m.messageId), replyTo := m.replyTo)
  }

  /** The error code an error reply carries, if it is one. */
  function ErrorCode(r: Message): Option<string> {
    if r.messageType == ERROR then
      match Get<Value>(r.payload, "error_code")
      case Some(Str(c)) => Some(c)
      case _ => None
    else None
  }

  lemma ErrorCodeOfErrorResponse(m: Message, code: string, text: string, stamp: Stamp)
    ensures ErrorCode(CreateErrorResponse(m, code, text, stamp)) == Some(code)
  {
  }

  /** The type test of `validate_message` as written: an enum value, or a text that contains a
      dot or ends with ".response". */
  predicate TypeAccepted(t: string) {
    t in MessageTypes || !('.' !in t && !EndsWith(t, ".response"))
  }

  /** The `endswith(".response")` clause never changes the outcome: a text ending with ".response"
      contains a dot. */
  lemma TypeAcceptedIffDot(t: string)
    ensures TypeAccepted(t) <==> t in MessageTypes || '.' in t
  {
    if EndsWith(t, ".response") {
      assert t[|t| - 9] == '.';
    }
  }

  /** `not isinstance(ttl, int) or ttl <= 0` is false. */
  predicate TtlValid(ttl: Value) {
    AsPyInt(ttl).Some? && AsPyInt(ttl).value > 0
  }

  /** `validate_message(message)` of mcp/protocol.py. */
  predicate ValidateMessage(m: Message, parse: TimeParser) {
    if m.messageId == "" || m.messageType == "" then false
    else if !TypeAccepted(m.messageType) then false
    else if parse(m.timestamp).None? then false
    else TtlValid(m.ttl)
  }

  /** What the validator decides, stated without the dead `endswith` clause: `source_agent` and
      the other addressing fields play no part. */
  lemma ValidateMessageMeaning(m: Message, parse: TimeParser)
    ensures ValidateMessage(m, parse) <==>
      && m.messageId != "" && m.messageType != ""
      && (m.messageType in MessageTypes || '.' in m.messageType)
      && parse(m.timestamp).Some?
      && ((m.ttl.Int? && m.ttl.i > 0) || m.ttl == Bool(true))
  {
    TypeAcceptedIffDot(m.messageType);
  }

  /** A reply built by `create_response` passes validation whenever the request did and its own
      stamp is sound: the ".response" type always holds a dot and the ttl is 60. */
  lemma ResponseOfValidIsValid(m: Message, payload: Object, stamp: Stamp, parse: TimeParser)
    requires ValidateMessage(m, parse)
    requires stamp.id != "" && parse(stamp.time).Some?
    ensures ValidateMessage(CreateResponse(m, payload, stamp), parse)
  {
    var r := CreateResponse(m, payload, stamp);
    ValidateMessageMeaning(r, parse);
    assert r.messageType[|m.messageType|] == '.';
  }

  /** Every error reply with a sound stamp passes validation ("error" is an enum value). */
  lemma ErrorResponseIsValid(m: Message, code: string, text: string, stamp: Stamp, parse: TimeParser)
    requires stamp.id != "" && parse(stamp.time).Some?
    ensures ValidateMessage(CreateErrorResponse(m, code, text, stamp), parse)
  {
  }
}
