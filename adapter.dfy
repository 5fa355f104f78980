/** The JSON adapter: maps a plain JSON request (`type`, `target`, `data`) onto an MCP message and
    back, dispatches incoming messages to its own handler table, and turns every failure of a
    request round into an error object instead of an exception. */
module Adapter {
  import opened Wrappers
  import opened Dicts
  import opened Json
  import opened Protocol
  import Client

  /** What awaiting a request handler gives: the JSON response it returned, or the text of the
      exception it raised. */
  datatype Reply = Answered(response: Object) | Failed(text: string)

  type RequestHandler = Object -> Reply

  /** `convert_to_mcp(request)`: type from `"type"` (default `"query"`), target from `"target"`,
      payload from `"data"` (default `{}`), source the adapter's own id, everything else the
      envelope's defaults. None where one of the three has the wrong JSON type. */
  function ConvertToMcp(agentId: string, request: Object, stamp: Stamp): (r: Option<Message>)
    ensures r.Some? <==> StrField(request, "type", QUERY).Some? && OptStrField(request, "target").Some? &&
                         ObjField(request, "data").Some?
    ensures r.Some? ==>
      && r.value.sourceAgent == agentId
      && r.value.messageType == StrField(request, "type", QUERY).value
      && r.value.targetAgent == OptStrField(request, "target").value
      && r.value.payload == ObjField(request, "data").value
      && r.value.messageId == stamp.id && r.value.timestamp == stamp.time
      && r.value.correlationId == None && r.value.authToken == None && r.value.ttl == Int(60)
  {
    var messageType :- StrField(request, "type", QUERY);
    var target :- OptStrField(request, "target");
    var payload :- ObjField(request, "data");
    Some(NewMessage(stamp).(messageType := messageType, sourceAgent := agentId, targetAgent := target,
                            payload := payload))
  }

  /** The keys of `convert_from_mcp`'s result, in order. */
  const ResponseKeys: seq<string> := ["type", "source", "data", "message_id", "timestamp"]

  /** `convert_from_mcp(message)`: exactly type, source, data, message id and timestamp. */
  function ConvertFromMcp(m: Message): (r: Object)
    ensures Keys(r) == ResponseKeys
    ensures Get(r, "type") == Some(Str(m.messageType)) && Get(r, "source") == Some(Str(m.sourceAgent))
    ensures Get(r, "data") == Some(Obj(m.payload)) && Get(r, "message_id") == Some(Str(m.messageId))
    ensures Get(r, "timestamp") == Some(Str(m.timestamp))
  {
    Response(m.messageType, m.sourceAgent, m.payload, m.messageId, m.timestamp)
  }

  /** The JSON form of a message, from its five fields. */
  function Response(messageType: string, source: string, data: Object, messageId: string, timestamp: string): (r: Object)
    ensures Keys(r) == ResponseKeys
    ensures Get(r, "type") == Some(Str(messageType)) && Get(r, "source") == Some(Str(source))
    ensures Get(r, "data") == Some(Obj(data)) && Get(r, "message_id") == Some(Str(messageId))
    ensures Get(r, "timestamp") == Some(Str(timestamp))
  {
    var r := [("type", Str(messageType)), ("source", Str(source)), ("data", Obj(data)),
              ("message_id", Str(messageId)), ("timestamp", Str(timestamp))];
    ResponseKeysDistinct();
    DistinctKeysOfKeySeq(r, ResponseKeys);
    GetAt(r, 2);
    GetAt(r, 3);
    GetAt(r, 4);
    r
  }

  /** No key of the JSON form occurs twice. */
  lemma ResponseKeysDistinct()
    ensures forall i, j :: 0 <= i < j < |ResponseKeys| ==> ResponseKeys[i] != ResponseKeys[j]
  {
  }

  /** `create_error_response(text)`: an `"error"` object from the adapter carrying the text under
      `data.error`, stamped with the current time `now`. */
  function ErrorObject(agentId: string, text: string, now: string): (r: Object)
    ensures Get(r, "type") == Some(Str("error")) && Get(r, "source") == Some(Str(agentId))
    ensures Get(r, "data") == Some(Obj([("error", Str(text))]))
    ensures !HasKey(r, "message_id")
  {
    var r := [("type", Str("error")), ("source", Str(agentId)), ("data", Obj([("error", Str(text))])),
              ("timestamp", Str(now))];
    assert Get(r[2..], "data") == Some(Obj([("error", Str(text))]));
    r
  }

  /** A message converted to JSON and back keeps its type and payload; the source becomes the
      converting adapter and the target is dropped, since the JSON form has no `target`. */
  lemma ConvertRoundTrip(agentId: string, m: Message, stamp: Stamp)
    ensures ConvertToMcp(agentId, ConvertFromMcp(m), stamp).Some?
    ensures var back := ConvertToMcp(agentId, ConvertFromMcp(m), stamp).value;
      back.messageType == m.messageType && back.payload == m.payload &&
      back.sourceAgent == agentId && back.targetAgent == None
  {
    var r := ConvertFromMcp(m);
    assert !HasKey(r, "target");
  }

  /** The text `handle_message` reports for a handler response that cannot become a message. */
  const IllTypedResponse: string := "ill-typed response field"

  /** The text `process_request` reports for a request that cannot become a message. */
  const IllTypedRequest: string := "ill-typed request field"

  /** The text of Python's error when `process_request` converts the None that `send_message`
      gives with no attempts allowed. */
  const NoResponse: string := "'NoneType' object has no attribute 'message_type'"

  /** The `handler_error` reply `handle_message` gives when conversion or the handler fails. */
  function HandlerError(m: Message, text: string, stamp: Stamp): (r: Message)
    ensures ErrorCode(r) == Some("handler_error") && r.correlationId == Some(m.messageId)
    ensures r.targetAgent == Some(m.sourceAgent)
  {
    ErrorCodeOfErrorResponse(m, "handler_error", text, stamp);
    CreateErrorResponse(m, "handler_error", text, stamp)
  }

  class JSONAdapter {
    const agentId: string
    const client: Client.MCPClient
    var handlers: map<string, RequestHandler>

    /** `JSONAdapter(agent_id, config)`: a client for the same agent and an empty handler table. */
    constructor (agentId: string, authToken: Option<string>, maxRetries: Option<int>, retryDelay: Option<real>)
      ensures this.agentId == agentId && handlers == map[]
      ensures client.agentId == agentId && client.authToken == authToken
      ensures client.maxRetries == maxRetries.GetOr(3) && client.retryDelay == retryDelay.GetOr(1.0)
    {
      this.agentId := agentId;
      client := new Client.MCPClient(agentId, authToken, maxRetries, retryDelay);
      handlers := map[];
    }

    /** `register_handler(message_type, handler)`: replaces the entry for that type only. */
    method RegisterHandler(messageType: string, handler: RequestHandler)
      modifies this
      ensures handlers == old(handlers)[messageType := handler]
      ensures forall t :: t in old(handlers) && t != messageType ==> t in handlers && handlers[t] == old(handlers)[t]
    {
      handlers := handlers[messageType := handler];
    }

    /** `handle_message(message)`: the handler for the type gets the JSON form of the message and
        its response is converted back; a raising handler or an unconvertible response gives a
        `handler_error` reply, and a type without a handler `unknown_message_type`. The stamp
        supplies the reply's fresh id and time. */
    function HandleMessage(m: Message, stamp: Stamp): (r: Message)
      reads this
      ensures m.messageType !in handlers ==>
        ErrorCode(r) == Some("unknown_message_type") && r.correlationId == Some(m.messageId)
      ensures m.messageType in handlers && handlers[m.messageType](ConvertFromMcp(m)).Failed? ==>
        ErrorCode(r) == Some("handler_error") && r.correlationId == Some(m.messageId)
      ensures m.messageType in handlers && handlers[m.messageType](ConvertFromMcp(m)).Answered? ==>
        var converted := ConvertToMcp(agentId, handlers[m.messageType](ConvertFromMcp(m)).response, stamp);
        && (converted.Some? ==> r == converted.value && r.sourceAgent == agentId)
        && (converted.None? ==> ErrorCode(r) == Some("handler_error") && r.correlationId == Some(m.messageId))
    {
      if m.messageType in handlers then
        match handlers[m.messageType](ConvertFromMcp(m))
        case Failed(e) => HandlerError(m, "Error handling message: " + e, stamp)
        case Answered(response) =>
          match ConvertToMcp(agentId, response, stamp)
          case Some(reply) => reply
          case None => HandlerError(m, "Error handling message: " + IllTypedResponse, stamp)
      else
        var text := "No handler registered for message type: " + m.messageType;
        ErrorCodeOfErrorResponse(m, "unknown_message_type", text, stamp);
        CreateErrorResponse(m, "unknown_message_type", text, stamp)
    }

    /** `process_request(request)`: convert, send through the client, convert the reply back; any
        failure on the way (an ill-typed request, an invalid message, no reply) is answered by
        `create_error_response` rather than raised. `stamp` supplies the fresh id and time of the
        message sent; `now` is the time an error object is stamped with. */
    method ProcessRequest(request: Object, stamp: Stamp, parse: TimeParser,
                          transport: nat -> Client.Transport<Message>, errorStamp: Stamp,
                          timeoutText: string, now: string)
      returns (r: Object)
      ensures match ConvertToMcp(agentId, request, stamp)
        case None => r == ErrorObject(agentId, IllTypedRequest, now)
        case Some(m) =>
          var sent := client.Outgoing(m.messageType, m.payload, m.targetAgent, stamp);
          r == (if !ValidateMessage(sent, parse) then ErrorObject(agentId, "Invalid message format", now)
                else match Client.Attempts(sent, transport, client.maxRetries, 0, errorStamp, timeoutText)
                     case Some(reply) => ConvertFromMcp(reply)
                     case None => ErrorObject(agentId, NoResponse, now))
    {
      var converted := ConvertToMcp(agentId, request, stamp);
      if converted.None? {
        return ErrorObject(agentId, IllTypedRequest, now);
      }
      var m := converted.value;
      var result, _, _ := client.SendMessage(m.messageType, m.payload, m.targetAgent, stamp, parse, transport,
                                             errorStamp, timeoutText);
      match result {
        case Err(e) => r := ErrorObject(agentId, e, now);
        case Ok(None) => r := ErrorObject(agentId, NoResponse, now);
        case Ok(Some(reply)) => r := ConvertFromMcp(reply);
      }
    }
  }
}
