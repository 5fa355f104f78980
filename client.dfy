/** The MCP client: builds messages from the agent's own id and token, sends them with a bounded
    number of attempts and linear backoff, and shapes the replies of broadcasts and of the
    status and registration helpers. */
module Client {
  import opened Wrappers
  import opened PyStr
  import opened Dicts
  import opened Json
  import opened Protocol
  import Handlers
  import Server
  import Registry

  /** What one HTTP exchange gave: a 200 with its decoded body, another status with the response
      text, a timeout, or any other exception (with its text). */
  datatype Transport<T> = Ok200(body: T) | Http(status: int, text: string) | Timeout | Failure(text: string)

  /** The error reply `send_message` builds for a failed last attempt. */
  function FailureReply(m: Message, a: Transport<Message>, stamp: Stamp, timeoutText: string): (r: Message)
    requires !a.Ok200?
    ensures ErrorCode(r) == Some(match a
                                 case Http(status, _) => "http_" + IntToString(status)
                                 case Timeout => "timeout"
                                 case Failure(_) => "client_error")
    ensures r.correlationId == Some(m.messageId) && r.targetAgent == Some(m.sourceAgent)
  {
    match a
    case Http(status, text) =>
      CreateErrorResponse(m, "http_" + IntToString(status),
                          "HTTP error: " + IntToString(status) + " - " + text, stamp)
    case Timeout =>
      CreateErrorResponse(m, "timeout", "Request timed out after " + timeoutText + " seconds", stamp)
    case Failure(e) =>
      CreateErrorResponse(m, "client_error", "Client error: " + e, stamp)
  }

  /** The retry loop from attempt `k` on, as a reference definition: the first 200 is the answer;
      a failed last attempt gives its error reply; running out of attempts gives None. */
  function Attempts(m: Message, transport: nat -> Transport<Message>, maxRetries: int, k: nat,
                    stamp: Stamp, timeoutText: string): Option<Message>
    decreases maxRetries - k
  {
    if k >= maxRetries then None
    else match transport(k)
      case Ok200(reply) => Some(reply)
      case _ =>
        if k == maxRetries - 1 then Some(FailureReply(m, transport(k), stamp, timeoutText))
        else Attempts(m, transport, maxRetries, k + 1, stamp, timeoutText)
  }

  /** What the retry loop comes to: with no attempts allowed, None; otherwise the reply of the
      first 200 among the allowed attempts, or, if there is none, the error reply of the last
      attempt. */
  lemma {:induction false} AttemptsOutcome(m: Message, transport: nat -> Transport<Message>, maxRetries: int, k: nat,
                                           stamp: Stamp, timeoutText: string)
    requires k <= maxRetries || maxRetries <= 0
    ensures var r := Attempts(m, transport, maxRetries, k, stamp, timeoutText);
      && (k >= maxRetries ==> r == None)
      && (k < maxRetries && (exists j :: k <= j < maxRetries && transport(j).Ok200?) ==>
            exists j :: k <= j < maxRetries && transport(j).Ok200? && r == Some(transport(j).body) &&
                        forall i :: k <= i < j ==> !transport(i).Ok200?)
      && (k < maxRetries && (forall j :: k <= j < maxRetries ==> !transport(j).Ok200?) ==>
            r == Some(FailureReply(m, transport(maxRetries - 1), stamp, timeoutText)))
    decreases maxRetries - k
  {
    if k < maxRetries {
      if exists j :: k <= j < maxRetries && transport(j).Ok200? {
        var j := FirstOk(transport, k, maxRetries);
        AttemptsFirst(m, transport, maxRetries, k, j, stamp, timeoutText);
      } else {
        AttemptsAllFail(m, transport, maxRetries, k, stamp, timeoutText);
      }
    }
  }

  /** The first 200 among attempts `k` to `n - 1`, when there is one. */
  lemma {:induction false} FirstOk<T>(transport: nat -> Transport<T>, k: nat, n: int) returns (j: nat)
    requires exists j :: k <= j < n && transport(j).Ok200?
    ensures k <= j < n && transport(j).Ok200? && forall i :: k <= i < j ==> !transport(i).Ok200?
    decreases n - k
  {
    if transport(k).Ok200? {
      j := k;
    } else {
      var j0 :| k <= j0 < n && transport(j0).Ok200?;
      assert k + 1 <= j0;
      j := FirstOk(transport, k + 1, n);
    }
  }

  /** The attempts from `k` answer with the first 200 among them. */
  lemma {:induction false} AttemptsFirst(m: Message, transport: nat -> Transport<Message>, maxRetries: int, k: nat, j: nat,
                                         stamp: Stamp, timeoutText: string)
    requires k <= j < maxRetries && transport(j).Ok200? && forall i :: k <= i < j ==> !transport(i).Ok200?
    ensures Attempts(m, transport, maxRetries, k, stamp, timeoutText) == Some(transport(j).body)
    decreases j - k
  {
    if k < j {
      assert !transport(k).Ok200?;
      AttemptsFirst(m, transport, maxRetries, k + 1, j, stamp, timeoutText);
    }
  }

  /** The attempts from `k` all fail: the reply is the error of the last one. */
  lemma {:induction false} AttemptsAllFail(m: Message, transport: nat -> Transport<Message>, maxRetries: int, k: nat,
                                           stamp: Stamp, timeoutText: string)
    requires k < maxRetries && forall j :: k <= j < maxRetries ==> !transport(j).Ok200?
    ensures Attempts(m, transport, maxRetries, k, stamp, timeoutText)
            == Some(FailureReply(m, transport(maxRetries - 1), stamp, timeoutText))
    decreases maxRetries - k
  {
    if k < maxRetries - 1 {
      assert !transport(k).Ok200?;
      AttemptsAllFail(m, transport, maxRetries, k + 1, stamp, timeoutText);
    }
  }

  /** The waits `send_message` makes before attempts 2, 3, …, in units of `retry_delay`: after
      failed attempt `k` it sleeps `retry_delay * (k + 1)`. */
  function Backoff(n: nat): (waits: seq<nat>)
    ensures |waits| == n && forall k :: 0 <= k < n ==> waits[k] == k + 1
  {
    if n == 0 then [] else Backoff(n - 1) + [n]
  }

  class MCPClient {
    const agentId: string
    const authToken: Option<string>
    const maxRetries: int
    const retryDelay: real

    /** `MCPClient(agent_id, config)` with the config's `auth_token`, `max_retries` and
        `retry_delay` (3 and 1.0 when absent). */
    constructor (agentId: string, authToken: Option<string>, maxRetries: Option<int>, retryDelay: Option<real>)
      ensures this.agentId == agentId && this.authToken == authToken
      ensures this.maxRetries == maxRetries.GetOr(3) && this.retryDelay == retryDelay.GetOr(1.0)
    {
      this.agentId := agentId;
      this.authToken := authToken;
      this.maxRetries := maxRetries.GetOr(3);
      this.retryDelay := retryDelay.GetOr(1.0);
    }

    /** The message `send_message` and `broadcast` build. */
    function Outgoing(messageType: string, payload: Object, target: Option<string>, stamp: Stamp): (m: Message)
      reads this
      ensures m.sourceAgent == agentId && m.authToken == authToken && m.targetAgent == target
      ensures m.messageType == messageType && m.payload == payload && m.messageId == stamp.id
    {
      NewMessage(stamp).(messageType := messageType, sourceAgent := agentId, targetAgent := target,
                         payload := payload, authToken := authToken)
    }

    /** `send_message`: an invalid message raises ValueError (Err) before any attempt; otherwise
        the retry loop decides the reply. Also gives how many attempts were made and the waits in
        order, each in units of `retry_delay`. */
    method SendMessage(messageType: string, payload: Object, target: Option<string>,
                       stamp: Stamp, parse: TimeParser, transport: nat -> Transport<Message>,
                       errorStamp: Stamp, timeoutText: string)
      returns (result: Result<Option<Message>>, attempts: nat, waits: seq<nat>)
      ensures var m := Outgoing(messageType, payload, target, stamp);
        && (!ValidateMessage(m, parse) ==> result == Err("Invalid message format") && attempts == 0)
        && (ValidateMessage(m, parse) ==>
              result == Ok(Attempts(m, transport, maxRetries, 0, errorStamp, timeoutText)))
      ensures attempts <= (if maxRetries > 0 then maxRetries else 0)
      ensures forall k :: 0 <= k < attempts - 1 ==> !transport(k).Ok200?
      ensures attempts > 0 && !transport(attempts - 1).Ok200? ==> attempts == maxRetries
      ensures ValidateMessage(Outgoing(messageType, payload, target, stamp), parse) ==>
        (attempts == 0 <==> maxRetries <= 0)
      ensures waits == Backoff(if attempts > 0 then attempts - 1 else 0)
    {
      var m := Outgoing(messageType, payload, target, stamp);
      if !ValidateMessage(m, parse) {
        return Err("Invalid message format"), 0, [];
      }
      var reply;
      reply, attempts, waits := Retry(m, transport, errorStamp, timeoutText);
      result := Ok(reply);
    }

    /** The retry loop of `send_message`: up to `max_retries` attempts, the `k`-th getting
        `transport(k)`, stopping at the first 200; a wait of `retry_delay * (k + 1)` follows each
        failed attempt `k` but the last, and the last failure is answered with its error reply. */
    method Retry(m: Message, transport: nat -> Transport<Message>, errorStamp: Stamp, timeoutText: string)
      returns (reply: Option<Message>, attempts: nat, waits: seq<nat>)
      ensures reply == Attempts(m, transport, maxRetries, 0, errorStamp, timeoutText)
      ensures attempts <= (if maxRetries > 0 then maxRetries else 0)
      ensures forall k :: 0 <= k < attempts - 1 ==> !transport(k).Ok200?
      ensures attempts > 0 && !transport(attempts - 1).Ok200? ==> attempts == maxRetries
      ensures attempts == 0 <==> maxRetries <= 0
      ensures waits == Backoff(if attempts > 0 then attempts - 1 else 0)
    {
      waits := [];
      attempts := 0;
      var attempt: nat := 0;
      while attempt < maxRetries
        invariant 0 <= attempt && attempts == attempt
        invariant attempt == 0 || attempt < maxRetries
        invariant forall k :: 0 <= k < attempt ==> !transport(k).Ok200?
        invariant Attempts(m, transport, maxRetries, attempt, errorStamp, timeoutText)
                  == Attempts(m, transport, maxRetries, 0, errorStamp, timeoutText)
        invariant waits == Backoff(attempt)
        decreases maxRetries - attempt
      {
        var outcome := transport(attempt);
        attempts := attempt + 1;
        if outcome.Ok200? {
          return Some(outcome.body), attempts, waits;
        }
        if attempt == maxRetries - 1 {
          return Some(FailureReply(m, outcome, errorStamp, timeoutText)), attempts, waits;
        }
        var next: nat := attempt + 1;
        waits := waits + [next];
        attempt := next;
      }
      reply := None;
    }

    /** `broadcast`: an invalid message raises ValueError (Err); a 200 answer gives one parsed
        message per key of the body, in order (a body entry that does not parse makes the whole
        call a `client_error`); another status gives a single `"error"` entry with `http_<status>`;
        an exception gives a single `"error"` entry with `client_error`. Entry `k` of the body draws
        its missing defaults from `stamps(k)`. */
    method Broadcast(messageType: string, payload: Object, stamp: Stamp, parse: TimeParser,
                     transport: Transport<Dict<Object>>, stamps: nat -> Stamp, errorStamp: Stamp)
      returns (result: Result<Dict<Message>>)
      ensures var m := Outgoing(messageType, payload, None, stamp);
        && (!ValidateMessage(m, parse) <==> result.Err?)
        && (ValidateMessage(m, parse) && transport.Ok200? && Parsed(transport.body, EntryParser(stamps), |transport.body|).Some? ==>
              result == Ok(Parsed(transport.body, EntryParser(stamps), |transport.body|).value))
        && (ValidateMessage(m, parse) && transport.Http? ==>
              result.Ok? && Keys(result.value) == ["error"] &&
              ErrorCode(result.value[0].1) == Some("http_" + IntToString(transport.status)))
        && (ValidateMessage(m, parse) && (transport.Timeout? || transport.Failure? ||
                                          (transport.Ok200? && Parsed(transport.body, EntryParser(stamps), |transport.body|).None?)) ==>
              result.Ok? && Keys(result.value) == ["error"] && ErrorCode(result.value[0].1) == Some("client_error"))
    {
      var m := Outgoing(messageType, payload, None, stamp);
      if !ValidateMessage(m, parse) {
        return Err("Invalid message format");
      }
      match transport {
        case Ok200(body) =>
          var parsed := ParseReplies(body, EntryParser(stamps));
          if parsed.Some? {
            return Ok(parsed.value);
          }
          return Ok([("error", CreateErrorResponse(m, "client_error", "Client error: invalid message data", errorStamp))]);
        case Http(status, text) =>
          return Ok([("error", CreateErrorResponse(m, "http_" + IntToString(status),
                                                   "HTTP error: " + IntToString(status) + " - " + text, errorStamp))]);
        case Timeout =>
          return Ok([("error", CreateErrorResponse(m, "client_error", "Client error: ", errorStamp))]);
        case Failure(e) =>
          return Ok([("error", CreateErrorResponse(m, "client_error", "Client error: " + e, errorStamp))]);
      }
    }

    /** `query_agent_status(agent_id)`: the payload of the heartbeat reply. A call that ends with
        no reply (no attempts allowed) fails as Python's attribute access on None does. */
    method QueryAgentStatus(agentId: Option<string>, stamp: Stamp, parse: TimeParser,
                            transport: nat -> Transport<Message>, errorStamp: Stamp, timeoutText: string)
      returns (result: Result<Object>)
      ensures var m := Outgoing(HEARTBEAT, StatusQueryPayload(agentId), None, stamp);
        result == (if !ValidateMessage(m, parse) then Err("Invalid message format")
                   else match Attempts(m, transport, maxRetries, 0, errorStamp, timeoutText)
                        case Some(reply) => Ok(reply.payload)
                        case None => Err("AttributeError"))
    {
      var sent, _, _ := SendMessage(HEARTBEAT, StatusQueryPayload(agentId), None, stamp, parse, transport,
                                    errorStamp, timeoutText);
      match sent {
        case Err(e) => result := Err(e);
        case Ok(Some(reply)) => result := Ok(reply.payload);
        case Ok(None) => result := Err("AttributeError");
      }
    }

    /** The payload `register_agent` sends. */
    function RegistrationPayload(capabilities: Value, metadata: Value): (p: Object)
      reads this
      ensures Keys(p) == ["agent_id", "capabilities", "metadata"]
      ensures Get(p, "agent_id") == Some(Str(agentId)) && Get(p, "capabilities") == Some(capabilities)
      ensures Get(p, "metadata") == Some(if Truthy(metadata) then metadata else Obj([]))
    {
      var p := [("agent_id", Str(agentId)), ("capabilities", capabilities),
                ("metadata", if Truthy(metadata) then metadata else Obj([]))];
      assert DistinctKeys(p);
      GetAt(p, 1); GetAt(p, 2);
      p
    }

    /** `register_agent(capabilities, metadata)`: the reply payload's `success` entry, False when
        it has none. */
    method RegisterAgent(capabilities: Value, metadata: Value, stamp: Stamp, parse: TimeParser,
                         transport: nat -> Transport<Message>, errorStamp: Stamp, timeoutText: string)
      returns (result: Result<Value>)
      ensures var m := Outgoing(REGISTER, RegistrationPayload(capabilities, metadata), None, stamp);
        result == (if !ValidateMessage(m, parse) then Err("Invalid message format")
                   else match Attempts(m, transport, maxRetries, 0, errorStamp, timeoutText)
                        case Some(reply) => Ok(GetOr(reply.payload, "success", Bool(false)))
                        case None => Err("AttributeError"))
    {
      var sent, _, _ := SendMessage(REGISTER, RegistrationPayload(capabilities, metadata), None, stamp, parse,
                                    transport, errorStamp, timeoutText);
      match sent {
        case Err(e) => result := Err(e);
        case Ok(Some(reply)) => result := Ok(GetOr(reply.payload, "success", Bool(false)));
        case Ok(None) => result := Err("AttributeError");
      }
    }
  }

  /** `{"agent_id": agent_id}` when an id is given (and non-empty), else `{}`. */
  function StatusQueryPayload(agentId: Option<string>): (p: Object)
    ensures HasKey(p, "agent_id") <==> agentId.Some? && agentId.value != ""
    ensures HasKey(p, "agent_id") ==> p == [("agent_id", Str(agentId.value))]
  {
    if agentId.Some? && agentId.value != "" then [("agent_id", Str(agentId.value))] else []
  }

  /** How `broadcast` parses entry `k` of a 200 body: `MCPMessage.from_dict`, drawing missing
      defaults from `stamps(k)`. */
  function EntryParser(stamps: nat -> Stamp): (Object, nat) -> Option<Message> {
    (e: Object, k: nat) => FromDict(e, stamps(k))
  }

  /** The loop of `broadcast` over a 200 body: each entry parsed by `entry`, in order; an entry
      that does not parse ends it (the exception the caller turns into an error). */
  method ParseReplies(body: Dict<Object>, entry: (Object, nat) -> Option<Message>) returns (results: Option<Dict<Message>>)
    ensures results == Parsed(body, entry, |body|)
  {
    var acc: Dict<Message> := [];
    var i := 0;
    while i < |body|
      invariant 0 <= i <= |body|
      invariant Parsed(body, entry, i) == Some(acc)
    {
      var parsed := entry(body[i].1, i);
      if parsed.None? {
        ParsedFailureStays(body, entry, i + 1, |body|);
        return None;
      }
      acc := acc + [(body[i].0, parsed.value)];
      i := i + 1;
    }
    return Some(acc);
  }

  /** The first `n` entries of a 200 broadcast body, entry `k` parsed by `entry(_, k)`; None when
      one of them does not parse. */
  function Parsed(body: Dict<Object>, entry: (Object, nat) -> Option<Message>, n: nat): (r: Option<Dict<Message>>)
    requires n <= |body|
    ensures r.Some? ==> |r.value| == n && forall k :: 0 <= k < n ==> r.value[k].0 == body[k].0
  {
    if n == 0 then Some([])
    else match Parsed(body, entry, n - 1)
      case None => None
      case Some(acc) =>
        match entry(body[n - 1].1, n - 1)
        case None => None
        case Some(reply) => Some(acc + [(body[n - 1].0, reply)])
  }

  /** A 200 broadcast body yields results exactly when every entry parses, and then entry `k` of
      the results is entry `k` of the body parsed. */
  lemma {:induction false} ParsedMeaning(body: Dict<Object>, entry: (Object, nat) -> Option<Message>, n: nat)
    requires n <= |body|
    ensures Parsed(body, entry, n).Some? <==> forall k :: 0 <= k < n ==> entry(body[k].1, k).Some?
    ensures Parsed(body, entry, n).Some? ==>
      forall k :: 0 <= k < n ==> Parsed(body, entry, n).value[k] == (body[k].0, entry(body[k].1, k).value)
  {
    if n > 0 {
      ParsedMeaning(body, entry, n - 1);
      var prev := Parsed(body, entry, n - 1);
      var e := entry(body[n - 1].1, n - 1);
      assert Parsed(body, entry, n) == if prev.Some? && e.Some? then Some(prev.value + [(body[n - 1].0, e.value)]) else None;
    }
  }

  /** Once an entry fails to parse, the whole body does. */
  lemma {:induction false} ParsedFailureStays(body: Dict<Object>, entry: (Object, nat) -> Option<Message>, i: nat, n: nat)
    requires i <= n <= |body| && Parsed(body, entry, i).None?
    ensures Parsed(body, entry, n).None?
    decreases n - i
  {
    if i < n {
      ParsedFailureStays(body, entry, i + 1, n);
    }
  }

  /** `register_agent` against this server's own register handler never reports success: the
      reply has no `success` entry, so the client reads False. */
  lemma RegisterNeverSucceeds(agents: Dict<Registry.AgentRecord>, m: Message, stamp: Stamp, clock: string)
    requires Server.Register(agents, m, stamp, clock).0.Returned?
    ensures GetOr(Server.Register(agents, m, stamp, clock).0.reply.payload, "success", Bool(false)) == Bool(false)
  {
    var reply := Server.Register(agents, m, stamp, clock).0.reply;
    assert !HasKey(reply.payload, "success");
  }
}
