/** Message dispatch through a table of handlers with an optional default handler, and the two
    stock handlers for system errors and unhandled types. */
module Handlers {
  import opened Wrappers
  import opened Dicts
  import opened Json
  import opened Protocol

  /** What awaiting a handler gives: the reply it returned, or the text of the exception it
      raised. */
  datatype Outcome = Returned(reply: Message) | Raised(text: string)

  /** A message handler. The stamp is what the reply it builds draws from its default factories. */
  type Handler = (Message, Stamp) -> Outcome

  class MessageHandlerRegistry {
    var handlers: map<string, Handler>
    var defaultHandler: Option<Handler>

    constructor ()
      ensures handlers == map[] && defaultHandler == None
    {
      handlers := map[];
      defaultHandler := None;
    }

    /** `register(message_type, handler)`: replaces any handler for that type. */
    method Register(messageType: string, handler: Handler)
      modifies this
      ensures handlers == old(handlers)[messageType := handler]
      ensures defaultHandler == old(defaultHandler)
    {
      handlers := handlers[messageType := handler];
    }

    method RegisterDefault(handler: Handler)
      modifies this
      ensures defaultHandler == Some(handler)
      ensures handlers == old(handlers)
    {
      defaultHandler := Some(handler);
    }

    /** `handle(message)`: the handler for the message's type if there is one, else the default
        handler, else an `unknown_message_type` error; an exception from either handler becomes a
        `handler_error` reply instead of propagating. */
    function Handle(m: Message, stamp: Stamp): (r: Message)
      reads this
      ensures m.messageType in handlers ==>
        r == (match handlers[m.messageType](m, stamp)
              case Returned(reply) => reply
              case Raised(e) => CreateErrorResponse(m, "handler_error", "Error in message handler: " + e, stamp))
      ensures m.messageType !in handlers && defaultHandler.Some? ==>
        r == (match defaultHandler.value(m, stamp)
              case Returned(reply) => reply
              case Raised(e) => CreateErrorResponse(m, "handler_error", "Error in default handler: " + e, stamp))
      ensures m.messageType !in handlers && defaultHandler.None? ==>
        ErrorCode(r) == Some("unknown_message_type") && r.correlationId == Some(m.messageId)
    {
      if m.messageType in handlers then
        match handlers[m.messageType](m, stamp)
        case Returned(reply) => reply
        case Raised(e) => CreateErrorResponse(m, "handler_error", "Error in message handler: " + e, stamp)
      else if defaultHandler.Some? then
        match defaultHandler.value(m, stamp)
        case Returned(reply) => reply
        case Raised(e) => CreateErrorResponse(m, "handler_error", "Error in default handler: " + e, stamp)
      else
        CreateErrorResponse(m, "unknown_message_type",
                            "No handler registered for message type: " + m.messageType, stamp)
    }
  }

  /** A handler that fails is answered with a `handler_error` reply to the sender, whichever of the
      two it was; the failure does not escape `handle`. */
  lemma FailingHandlerAnswered(reg: MessageHandlerRegistry, m: Message, stamp: Stamp, e: string)
    requires (m.messageType in reg.handlers && reg.handlers[m.messageType](m, stamp) == Raised(e))
          || (m.messageType !in reg.handlers && reg.defaultHandler.Some? &&
              reg.defaultHandler.value(m, stamp) == Raised(e))
    ensures ErrorCode(reg.Handle(m, stamp)) == Some("handler_error")
    ensures reg.Handle(m, stamp).targetAgent == Some(m.sourceAgent)
    ensures reg.Handle(m, stamp).correlationId == Some(m.messageId)
  {
    var r := reg.Handle(m, stamp);
    var text := if m.messageType in reg.handlers then "Error in message handler: " + e
                else "Error in default handler: " + e;
    assert r == CreateErrorResponse(m, "handler_error", text, stamp);
    ErrorCodeOfErrorResponse(m, "handler_error", text, stamp);
  }

  /** `handle_system_error`: acknowledges the error, echoing its code ("unknown_error" when the
      payload has none). */
  function HandleSystemError(m: Message, stamp: Stamp): (r: Outcome)
    ensures r.Returned?
    ensures r.reply.messageType == m.messageType + ".response"
    ensures r.reply.targetAgent == Some(m.sourceAgent) && r.reply.correlationId == Some(m.messageId)
    ensures Get(r.reply.payload, "status") == Some(Str("error_acknowledged"))
    ensures Get(r.reply.payload, "error_code") == Some(GetOr(m.payload, "error_code", Str("unknown_error")))
  {
    Returned(CreateResponse(m, [("status", Str("error_acknowledged")),
                                ("error_code", GetOr(m.payload, "error_code", Str("unknown_error")))], stamp))
  }

  /** `default_message_handler`: acknowledges receipt and names the type it could not route. */
  function DefaultMessageHandler(m: Message, stamp: Stamp): (r: Outcome)
    ensures r.Returned?
    ensures r.reply.messageType == m.messageType + ".response"
    ensures r.reply.targetAgent == Some(m.sourceAgent) && r.reply.correlationId == Some(m.messageId)
    ensures Get(r.reply.payload, "status") == Some(Str("received"))
    ensures Get(r.reply.payload, "original_type") == Some(Str(m.messageType))
  {
    var payload := [("status", Str("received")),
                    ("message", Str("Message received, but no specific handler available")),
                    ("original_type", Str(m.messageType))];
    assert Get(payload[2..], "original_type") == Some(Str(m.messageType));
    Returned(CreateResponse(m, payload, stamp))
  }
}
