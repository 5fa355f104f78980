/** The MCP server's message processing: validation, the optional token check, the message
    counter, dispatch to the registered handlers (two of them built in), broadcast fan-out and the
    status counts. */
module Server {
  import opened Wrappers
  import opened Dicts
  import opened Json
  import opened Protocol
  import opened Registry
  import Handlers

  /** An entry of the server's handler table: one of its own two handlers, or one registered from
      outside. */
  datatype ServerHandler = RegisterBuiltin | HeartbeatBuiltin | External(f: Handlers.Handler)

  /** What processing reads from the environment: the ISO parser of the validator, the ISO text of
      the clock (for registration times) and the server's uptime in seconds. */
  datatype Env = Env(parse: TimeParser, clock: string, uptime: real)

  /** The part of the server that processing changes: the message counter and the registry. */
  datatype State = State(count: nat, agents: Dict<AgentRecord>)

  /** The reply to a message that fails validation: built afresh rather than as a response, so it
      has no correlation id. */
  function InvalidMessageReply(m: Message, stamp: Stamp): (r: Message)
    ensures r.messageType == ERROR && ErrorCode(r) == Some("invalid_message")
    ensures r.sourceAgent == "system" && r.targetAgent == Some(m.sourceAgent)
    ensures r.correlationId == None
  {
    NewMessage(stamp).(messageType := ERROR, sourceAgent := "system", targetAgent := Some(m.sourceAgent),
                       payload := [("error_code", Str("invalid_message")),
                                   ("error_message", Str("Message validation failed"))])
  }

  /** The token check: off, or a `register` message, or a non-empty token among the configured
      tokens' values. */
  predicate Authorized(m: Message, requireAuth: bool, authTokens: Dict<string>) {
    !requireAuth || m.messageType == REGISTER ||
    (m.authToken.Some? && m.authToken.value != "" && m.authToken.value in Values(authTokens))
  }

  /** An agent's record as a JSON object, keys in insertion order. */
  function RecordValue(r: AgentRecord): Value {
    Obj([("agent_id", Str(r.agentId)), ("capabilities", r.capabilities), ("metadata", r.metadata),
         ("registered_at", Str(r.registeredAt)), ("last_seen", Str(r.lastSeen)), ("active", Bool(r.active))])
  }

  function RecordValues(rs: seq<AgentRecord>): (vs: seq<Value>)
    ensures |vs| == |rs|
  {
    seq(|rs|, i requires 0 <= i < |rs| => RecordValue(rs[i]))
  }

  /** `handle_register` against the registry table `agents`: the reply and the table after it. A
      falsy `agent_id` is refused and the table is left alone. */
  function Register(agents: Dict<AgentRecord>, m: Message, stamp: Stamp, clock: string): (Handlers.Outcome, Dict<AgentRecord>) {
    var agentId := GetOr(m.payload, "agent_id", Null);
    if !Truthy(agentId) then
      (Handlers.Returned(CreateErrorResponse(m, "invalid_request", "Missing agent_id in registration request", stamp)), agents)
    else match agentId
      case Str(id) =>
        var capabilities := GetOr(m.payload, "capabilities", Arr([]));
        var metadata := GetOr(m.payload, "metadata", Obj([]));
        (Handlers.Returned(CreateResponse(m, [("status", Str("registered")), ("agent_id", agentId),
                                              ("registered_at", Str(clock))], stamp)),
         Put(agents, id, Registered(Get(agents, id), id, capabilities, metadata, clock)))
      case _ => (Handlers.Raised("agent_id is not a string"), agents)
  }

  /** `handle_heartbeat` against the registry table `agents`: one agent's status, or the active
      agents with their count. */
  function Heartbeat(agents: Dict<AgentRecord>, m: Message, stamp: Stamp, uptime: real): Handlers.Outcome {
    var agentId := GetOr(m.payload, "agent_id", Null);
    if Truthy(agentId) then
      var notFound := Handlers.Returned(CreateErrorResponse(m, "agent_not_found", "Agent " + Show(agentId) + " not found", stamp));
      match agentId
      case Str(id) =>
        (match Get(agents, id)
         case None => notFound
         case Some(r) =>
           Handlers.Returned(CreateResponse(m, [("agent_id", agentId),
                                                ("status", Str(if r.active then "active" else "inactive")),
                                                ("last_seen", Str(r.lastSeen)),
                                                ("capabilities", r.capabilities)], stamp)))
      case Arr(_) => Handlers.Raised("unhashable type: 'list'")
      case Obj(_) => Handlers.Raised("unhashable type: 'dict'")
      case _ => notFound
    else
      var active := ActiveOnly(Values(agents));
      Handlers.Returned(CreateResponse(m, [("agents", Arr(RecordValues(active))), ("count", Int(|active|)),
                                           ("server_uptime", Float(uptime))], stamp))
  }

  /** The handler lookup of `process_message`: no handler means `unknown_message_type` (there is no
      default handler here), and a failing handler means `handler_error`. */
  function Dispatch(handlers: map<string, ServerHandler>, agents: Dict<AgentRecord>, m: Message, stamp: Stamp, env: Env)
    : (Message, Dict<AgentRecord>)
  {
    if m.messageType !in handlers then
      (CreateErrorResponse(m, "unknown_message_type", "No handler registered for message type: " + m.messageType, stamp), agents)
    else
      var (outcome, agents') := match handlers[m.messageType]
        case RegisterBuiltin => Register(agents, m, stamp, env.clock)
        case HeartbeatBuiltin => (Heartbeat(agents, m, stamp, env.uptime), agents)
        case External(f) => (f(m, stamp), agents);
      match outcome
      case Returned(reply) => (reply, agents')
      case Raised(e) => (CreateErrorResponse(m, "handler_error", "Error processing message: " + e, stamp), agents')
  }

  /** `process_message`: validate, then check the token, then count, then dispatch. */
  function Process(handlers: map<string, ServerHandler>, requireAuth: bool, authTokens: Dict<string>,
                   st: State, m: Message, stamp: Stamp, env: Env): (Message, State)
  {
    if !ValidateMessage(m, env.parse) then (InvalidMessageReply(m, stamp), st)
    else if !Authorized(m, requireAuth, authTokens) then
      (CreateErrorResponse(m, "unauthorized", "Invalid or missing authentication token", stamp), st)
    else
      var (reply, agents') := Dispatch(handlers, st.agents, m, stamp, env);
      (reply, State(st.count + 1, agents'))
  }

  /** The three ways `process_message` can go. */
  lemma ProcessSteps(handlers: map<string, ServerHandler>, requireAuth: bool, authTokens: Dict<string>,
                     st: State, m: Message, stamp: Stamp, env: Env)
    ensures !ValidateMessage(m, env.parse) ==>
      Process(handlers, requireAuth, authTokens, st, m, stamp, env) == (InvalidMessageReply(m, stamp), st)
    ensures ValidateMessage(m, env.parse) && !Authorized(m, requireAuth, authTokens) ==>
      Process(handlers, requireAuth, authTokens, st, m, stamp, env)
      == (CreateErrorResponse(m, "unauthorized", "Invalid or missing authentication token", stamp), st)
    ensures ValidateMessage(m, env.parse) && Authorized(m, requireAuth, authTokens) ==>
      var d := Dispatch(handlers, st.agents, m, stamp, env);
      Process(handlers, requireAuth, authTokens, st, m, stamp, env) == (d.0, State(st.count + 1, d.1))
  {
  }

  /** The copy of a broadcast message sent to one agent: a fresh id and timestamp, that agent as
      target, and only the type, source, payload and correlation id of the original. */
  function BroadcastCopy(m: Message, agentId: string, stamp: Stamp): (c: Message)
    ensures c.messageId == stamp.id && c.targetAgent == Some(agentId)
    ensures c.messageType == m.messageType && c.sourceAgent == m.sourceAgent
    ensures c.payload == m.payload && c.correlationId == m.correlationId
    ensures c.authToken == None && c.replyTo == None && c.signature == None && c.ttl == Int(60)
  {
    NewMessage(stamp).(messageType := m.messageType, sourceAgent := m.sourceAgent, targetAgent := Some(agentId),
                       payload := m.payload, correlationId := m.correlationId)
  }

  /** The ids of `filter` the registry knows, active or not, in filter order. */
  function KnownIds(agents: Dict<AgentRecord>, filter: seq<string>): (ids: seq<string>)
    ensures forall id :: id in ids <==> id in filter && HasKey(agents, id)
  {
    if |filter| == 0 then []
    else (if HasKey(agents, filter[0]) then [filter[0]] else []) + KnownIds(agents, filter[1..])
  }

  lemma {:induction false} KnownIdsAppend(agents: Dict<AgentRecord>, a: seq<string>, b: seq<string>)
    ensures KnownIds(agents, a + b) == KnownIds(agents, a) + KnownIds(agents, b)
  {
    if |a| > 0 {
      assert (a + b)[1..] == a[1..] + b;
      KnownIdsAppend(agents, a[1..], b);
    } else {
      assert a + b == b;
    }
  }

  /** Appending an id to the filter appends it to the targets exactly when it is registered: the
      targets keep the filter's order. */
  lemma KnownIdsSnoc(agents: Dict<AgentRecord>, filter: seq<string>, id: string)
    ensures KnownIds(agents, filter + [id]) == KnownIds(agents, filter) + (if HasKey(agents, id) then [id] else [])
  {
    KnownIdsAppend(agents, filter, [id]);
    assert [id][1..] == [];
  }

  function IdsOf(rs: seq<AgentRecord>): (ids: seq<string>)
    ensures |ids| == |rs| && forall i :: 0 <= i < |rs| ==> ids[i] == rs[i].agentId
  {
    if |rs| == 0 then [] else [rs[0].agentId] + IdsOf(rs[1..])
  }

  /** The agents a broadcast goes to: with a non-empty filter, the filtered ids known to the
      registry; otherwise every active agent. */
  function BroadcastTargets(agents: Dict<AgentRecord>, filter: seq<string>): seq<string> {
    if |filter| > 0 then KnownIds(agents, filter)
    else IdsOf(ActiveOnly(ActiveOnly(Values(agents))))
  }

  /** The broadcast loop from the `k`-th target on: each copy is processed like any message (copy
      `k` and its reply draw stamps `2k` and `2k+1`), and its reply is stored under the target id. */
  function FanOut(handlers: map<string, ServerHandler>, requireAuth: bool, authTokens: Dict<string>,
                  st: State, m: Message, targets: seq<string>, k: nat, stamps: nat -> Stamp, env: Env,
                  results: Dict<Object>): (Dict<Object>, State)
    decreases |targets| - k
  {
    if k >= |targets| then (results, st)
    else
      var (reply, st') := Process(handlers, requireAuth, authTokens, st,
                                  BroadcastCopy(m, targets[k], stamps(2 * k)), stamps(2 * k + 1), env);
      FanOut(handlers, requireAuth, authTokens, st', m, targets, k + 1, stamps, env,
             Put(results, targets[k], ToDict(reply)))
  }

  class MCPServer {
    var handlers: map<string, ServerHandler>
    const registry: AgentRegistry
    var messageCount: nat
    const requireAuth: bool
    const authTokens: Dict<string>

    ghost predicate Valid()
      reads this, registry
    {
      registry.Valid()
    }

    constructor (requireAuth: bool, authTokens: Dict<string>)
      ensures Valid() && fresh(registry)
      ensures handlers == map[] && registry.agents == [] && messageCount == 0
      ensures this.requireAuth == requireAuth && this.authTokens == authTokens
    {
      handlers := map[];
      registry := new AgentRegistry();
      messageCount := 0;
      this.requireAuth := requireAuth;
      this.authTokens := authTokens;
    }

    /** `register_handler(message_type, handler)`: replaces any handler for that type. */
    method RegisterHandler(messageType: string, handler: ServerHandler)
      modifies this
      ensures handlers == old(handlers)[messageType := handler]
      ensures messageCount == old(messageCount)
    {
      handlers := handlers[messageType := handler];
    }

    /** `register_default_handlers`. */
    method RegisterDefaultHandlers()
      modifies this
      ensures handlers == old(handlers)[REGISTER := RegisterBuiltin][HEARTBEAT := HeartbeatBuiltin]
      ensures messageCount == old(messageCount)
    {
      RegisterHandler(REGISTER, RegisterBuiltin);
      RegisterHandler(HEARTBEAT, HeartbeatBuiltin);
    }

    /** `handle_register`: upserts the agent in the registry unless `agent_id` is missing. */
    method HandleRegister(m: Message, stamp: Stamp, clock: string) returns (outcome: Handlers.Outcome)
      requires Valid()
      modifies registry
      ensures Valid()
      ensures (outcome, registry.agents) == Register(old(registry.agents), m, stamp, clock)
    {
      var agentId := GetOr(m.payload, "agent_id", Null);
      if !Truthy(agentId) {
        outcome := Handlers.Returned(CreateErrorResponse(m, "invalid_request", "Missing agent_id in registration request", stamp));
        return;
      }
      match agentId
      case Str(id) =>
        var capabilities := GetOr(m.payload, "capabilities", Arr([]));
        var metadata := GetOr(m.payload, "metadata", Obj([]));
        var _ := registry.RegisterAgent(id, capabilities, metadata, clock);
        outcome := Handlers.Returned(CreateResponse(m, [("status", Str("registered")), ("agent_id", agentId),
                                                        ("registered_at", Str(clock))], stamp));
      case _ =>
        outcome := Handlers.Raised("agent_id is not a string");
    }

    /** `process_message(message)`. */
    method ProcessMessage(m: Message, stamp: Stamp, env: Env) returns (reply: Message)
      requires Valid()
      modifies this, registry
      ensures Valid() && handlers == old(handlers)
      ensures (reply, State(messageCount, registry.agents))
              == Process(handlers, requireAuth, authTokens, State(old(messageCount), old(registry.agents)), m, stamp, env)
    {
      ProcessSteps(handlers, requireAuth, authTokens, State(messageCount, registry.agents), m, stamp, env);
      if !ValidateMessage(m, env.parse) {
        return InvalidMessageReply(m, stamp);
      }
      if requireAuth && m.messageType != REGISTER {
        if m.authToken.None? || m.authToken.value == "" || m.authToken.value !in Values(authTokens) {
          return CreateErrorResponse(m, "unauthorized", "Invalid or missing authentication token", stamp);
        }
      }
      messageCount := messageCount + 1;
      reply := DispatchMessage(m, stamp, env);
    }

    /** The handler lookup and call at the end of `process_message`. */
    method DispatchMessage(m: Message, stamp: Stamp, env: Env) returns (reply: Message)
      requires Valid()
      modifies registry
      ensures Valid()
      ensures (reply, registry.agents) == Dispatch(handlers, old(registry.agents), m, stamp, env)
    {
      if m.messageType !in handlers {
        return CreateErrorResponse(m, "unknown_message_type", "No handler registered for message type: " + m.messageType, stamp);
      }
      var outcome;
      match handlers[m.messageType] {
        case RegisterBuiltin =>
          outcome := HandleRegister(m, stamp, env.clock);
        case HeartbeatBuiltin =>
          outcome := Heartbeat(registry.agents, m, stamp, env.uptime);
        case External(f) =>
          outcome := f(m, stamp);
      }
      match outcome {
        case Returned(r) =>
          reply := r;
        case Raised(e) =>
          reply := CreateErrorResponse(m, "handler_error", "Error processing message: " + e, stamp);
      }
    }

    /** The fan-out of `handle_broadcast_request`: every target gets its own copy, processed in
        turn, and the replies are collected by target id. */
    method HandleBroadcast(m: Message, filter: seq<string>, stamps: nat -> Stamp, env: Env)
      returns (results: Dict<Object>)
      requires Valid()
      modifies this, registry
      ensures Valid() && handlers == old(handlers)
      ensures (results, State(messageCount, registry.agents))
              == FanOut(handlers, requireAuth, authTokens, State(old(messageCount), old(registry.agents)), m,
                        BroadcastTargets(old(registry.agents), filter), 0, stamps, env, [])
    {
      var targets := BroadcastTargets(registry.agents, filter);
      results := [];
      var i := 0;
      while i < |targets|
        invariant 0 <= i <= |targets| && Valid() && handlers == old(handlers)
        invariant FanOut(handlers, requireAuth, authTokens, State(messageCount, registry.agents), m, targets, i, stamps, env, results)
                  == FanOut(handlers, requireAuth, authTokens, State(old(messageCount), old(registry.agents)), m,
                            targets, 0, stamps, env, [])
      {
        var copy := BroadcastCopy(m, targets[i], stamps(2 * i));
        var reply := ProcessMessage(copy, stamps(2 * i + 1), env);
        results := Put(results, targets[i], ToDict(reply));
        i := i + 1;
      }
    }

    /** The counts of `handle_status_request` as written: the message counter, then
        `registered_agents` and `active_agents`, both taken over `list_agents()`. */
    function StatusCounts(): (nat, nat, nat)
      reads this, registry
    {
      var agents := registry.ListAgents(false);
      var registered: nat, active: nat := |agents|, |ActiveOnly(agents)|;
      (messageCount, registered, active)
    }

    /** The counts as evidently intended: `registered_agents` over every registered agent. */
    function StatusCountsCorrected(): (counts: (nat, nat, nat))
      reads this, registry
      ensures counts.1 == |registry.agents|
      ensures counts.2 <= counts.1
    {
      var agents := registry.ListAgents(true);
      var registered: nat, active: nat := |agents|, |ActiveOnly(agents)|;
      (messageCount, registered, active)
    }
  }

  // ---------------------------------------------------------------------------------------------
  // What processing promises

  /** A message that fails validation is answered by the system with `invalid_message`, without a
      correlation id, and is neither counted nor dispatched. */
  lemma InvalidMessageNotCounted(handlers: map<string, ServerHandler>, requireAuth: bool, authTokens: Dict<string>,
                                 st: State, m: Message, stamp: Stamp, env: Env)
    requires !ValidateMessage(m, env.parse)
    ensures var (r, st') := Process(handlers, requireAuth, authTokens, st, m, stamp, env);
      && st' == st && ErrorCode(r) == Some("invalid_message")
      && r.sourceAgent == "system" && r.targetAgent == Some(m.sourceAgent) && r.correlationId == None
  {
    ProcessSteps(handlers, requireAuth, authTokens, st, m, stamp, env);
  }

  /** Under `require_auth`, a valid message other than `register` whose token is missing, empty or
      unknown is answered `unauthorized` and neither counted nor dispatched. */
  lemma UnauthorizedNotCounted(handlers: map<string, ServerHandler>, authTokens: Dict<string>,
                               st: State, m: Message, stamp: Stamp, env: Env)
    requires ValidateMessage(m, env.parse) && m.messageType != REGISTER
    requires m.authToken.None? || m.authToken.value == "" || m.authToken.value !in Values(authTokens)
    ensures var (r, st') := Process(handlers, true, authTokens, st, m, stamp, env);
      st' == st && ErrorCode(r) == Some("unauthorized") && r.correlationId == Some(m.messageId)
  {
    ProcessSteps(handlers, true, authTokens, st, m, stamp, env);
    ErrorCodeOfErrorResponse(m, "unauthorized", "Invalid or missing authentication token", stamp);
  }

  /** Every message that passes validation and the token check is counted exactly once, whatever
      becomes of it afterwards; a type with no handler is answered `unknown_message_type` (there
      is no default handler) and a failing handler `handler_error`, both leaving the registry
      alone. */
  lemma AcceptedCountedOnce(handlers: map<string, ServerHandler>, requireAuth: bool, authTokens: Dict<string>,
                            st: State, m: Message, stamp: Stamp, env: Env)
    requires ValidateMessage(m, env.parse) && Authorized(m, requireAuth, authTokens)
    ensures var (r, st') := Process(handlers, requireAuth, authTokens, st, m, stamp, env);
      && st'.count == st.count + 1
      && (m.messageType !in handlers ==> ErrorCode(r) == Some("unknown_message_type") && st'.agents == st.agents)
      && (m.messageType in handlers && handlers[m.messageType].External? &&
          handlers[m.messageType].f(m, stamp).Raised? ==>
            ErrorCode(r) == Some("handler_error") && st'.agents == st.agents)
  {
    ProcessSteps(handlers, requireAuth, authTokens, st, m, stamp, env);
    if m.messageType !in handlers {
      ErrorCodeOfErrorResponse(m, "unknown_message_type", "No handler registered for message type: " + m.messageType, stamp);
    } else if handlers[m.messageType].External? && handlers[m.messageType].f(m, stamp).Raised? {
      ErrorCodeOfErrorResponse(m, "handler_error", "Error processing message: " + handlers[m.messageType].f(m, stamp).text, stamp);
    }
  }

  /** `handle_register` with a missing or falsy `agent_id` answers `invalid_request` and leaves the
      registry alone. */
  lemma RegisterRefusesMissingId(agents: Dict<AgentRecord>, m: Message, stamp: Stamp, clock: string)
    requires !Truthy(GetOr(m.payload, "agent_id", Null))
    ensures var (o, agents') := Register(agents, m, stamp, clock);
      agents' == agents && o.Returned? && ErrorCode(o.reply) == Some("invalid_request")
  {
    ErrorCodeOfErrorResponse(m, "invalid_request", "Missing agent_id in registration request", stamp);
  }

  /** `handle_register` with a string `agent_id` replies "registered" and leaves that agent in the
      registry, active, with the capabilities and metadata the payload carries. */
  lemma RegisterStoresAgent(agents: Dict<AgentRecord>, m: Message, stamp: Stamp, clock: string, id: string)
    requires DistinctKeys(agents) && forall e :: e in agents ==> e.1.agentId == e.0
    requires GetOr(m.payload, "agent_id", Null) == Str(id) && id != ""
    ensures var (o, agents') := Register(agents, m, stamp, clock);
      && o.Returned? && Get(o.reply.payload, "status") == Some(Str("registered"))
      && o.reply.correlationId == Some(m.messageId)
      && Get(agents', id).Some? && Get(agents', id).value.active
      && Get(agents', id).value.capabilities == GetOr(m.payload, "capabilities", Arr([]))
      && forall k :: k != id ==> Get(agents', k) == Get(agents, k)
  {
    RegisterOutcome(agents, id, GetOr(m.payload, "capabilities", Arr([])), GetOr(m.payload, "metadata", Obj([])), clock);
  }

  /** `handle_heartbeat`: an unknown agent is `agent_not_found`, a known one reports the status of
      its record, and without an `agent_id` the reply lists the active agents with their count. */
  lemma HeartbeatOutcomes(agents: Dict<AgentRecord>, m: Message, stamp: Stamp, uptime: real)
    ensures var id := GetOr(m.payload, "agent_id", Null);
      var o := Heartbeat(agents, m, stamp, uptime);
      id.Str? && id.s != "" && !HasKey(agents, id.s) ==>
        o.Returned? && ErrorCode(o.reply) == Some("agent_not_found")
  {
    var id := GetOr(m.payload, "agent_id", Null);
    ErrorCodeOfErrorResponse(m, "agent_not_found", "Agent " + Show(id) + " not found", stamp);
  }

  /** A heartbeat naming a known agent reports its id, status, last-seen time and capabilities. */
  lemma HeartbeatReportsAgent(agents: Dict<AgentRecord>, m: Message, stamp: Stamp, uptime: real)
    requires var id := GetOr(m.payload, "agent_id", Null); id.Str? && id.s != "" && HasKey(agents, id.s)
    ensures var id := GetOr(m.payload, "agent_id", Null);
      var o := Heartbeat(agents, m, stamp, uptime);
      var r := Get(agents, id.s).value;
      && o.Returned? && Keys(o.reply.payload) == ["agent_id", "status", "last_seen", "capabilities"]
      && Get(o.reply.payload, "agent_id") == Some(id)
      && Get(o.reply.payload, "status") == Some(Str(if r.active then "active" else "inactive"))
      && Get(o.reply.payload, "last_seen") == Some(Str(r.lastSeen))
      && Get(o.reply.payload, "capabilities") == Some(r.capabilities)
  {
    var id := GetOr(m.payload, "agent_id", Null);
    var r := Get(agents, id.s).value;
    var p: Object := [("agent_id", id), ("status", Str(if r.active then "active" else "inactive")),
                      ("last_seen", Str(r.lastSeen)), ("capabilities", r.capabilities)];
    assert Heartbeat(agents, m, stamp, uptime) == Handlers.Returned(CreateResponse(m, p, stamp));
    AgentReportLookups(id, r);
  }

  /** The lookups in the payload of a single-agent heartbeat reply. */
  lemma AgentReportLookups(id: Value, r: AgentRecord)
    ensures var p: Object := [("agent_id", id), ("status", Str(if r.active then "active" else "inactive")),
                              ("last_seen", Str(r.lastSeen)), ("capabilities", r.capabilities)];
      && Keys(p) == ["agent_id", "status", "last_seen", "capabilities"]
      && Get(p, "agent_id") == Some(id) && Get(p, "status") == Some(Str(if r.active then "active" else "inactive"))
      && Get(p, "last_seen") == Some(Str(r.lastSeen)) && Get(p, "capabilities") == Some(r.capabilities)
  {
    var p: Object := [("agent_id", id), ("status", Str(if r.active then "active" else "inactive")),
                      ("last_seen", Str(r.lastSeen)), ("capabilities", r.capabilities)];
    assert DistinctKeys(p);
    GetAt(p, 1); GetAt(p, 2); GetAt(p, 3);
  }

  /** A heartbeat without an agent id lists the active agents, their number and the uptime. */
  lemma HeartbeatListsActive(agents: Dict<AgentRecord>, m: Message, stamp: Stamp, uptime: real)
    requires !Truthy(GetOr(m.payload, "agent_id", Null))
    ensures var o := Heartbeat(agents, m, stamp, uptime);
      var active := ActiveOnly(Values(agents));
      && o.Returned? && Keys(o.reply.payload) == ["agents", "count", "server_uptime"]
      && Get(o.reply.payload, "agents") == Some(Arr(RecordValues(active)))
      && Get(o.reply.payload, "count") == Some(Int(|active|))
      && Get(o.reply.payload, "server_uptime") == Some(Float(uptime))
  {
    var active := ActiveOnly(Values(agents));
    var p: Object := [("agents", Arr(RecordValues(active))), ("count", Int(|active|)),
                      ("server_uptime", Float(uptime))];
    assert Heartbeat(agents, m, stamp, uptime) == Handlers.Returned(CreateResponse(m, p, stamp));
    assert DistinctKeys(p);
    GetAt(p, 0); GetAt(p, 1); GetAt(p, 2);
  }

  /** Without a filter a broadcast goes to exactly the active agents, each once. */
  lemma {:induction false} UnfilteredTargets(agents: Dict<AgentRecord>)
    requires DistinctKeys(agents) && forall e :: e in agents ==> e.1.agentId == e.0
    ensures forall id :: id in BroadcastTargets(agents, []) <==> HasKey(agents, id) && Get(agents, id).value.active
  {
    ActiveOnlyIdempotent(Values(agents));
    var targets := BroadcastTargets(agents, []);
    var active := ActiveOnly(Values(agents));
    forall id ensures id in targets <==> HasKey(agents, id) && Get(agents, id).value.active {
      if id in targets {
        var i :| 0 <= i < |targets| && targets[i] == id;
        assert active[i] in Values(agents) && active[i].active;
        var j :| 0 <= j < |agents| && Values(agents)[j] == active[i];
        assert agents[j] in agents;
        GetAt(agents, j);
      }
      if HasKey(agents, id) && Get(agents, id).value.active {
        GetIn(agents, id);
        var r := Get(agents, id).value;
        var j :| 0 <= j < |agents| && agents[j] == (id, r);
        assert Values(agents)[j] == r;
        var i :| 0 <= i < |active| && active[i] == r;
        assert targets[i] == id;
      }
    }
  }

  /** Under `require_auth`, a broadcast of anything but `register` reaches no handler: its copies
      carry no token, so each reply is `invalid_message` or `unauthorized`, and neither the
      counter nor the registry moves. */
  lemma {:induction false} AuthenticatedBroadcastRefused(handlers: map<string, ServerHandler>, authTokens: Dict<string>,
                                                         st: State, m: Message, targets: seq<string>, k: nat,
                                                         stamps: nat -> Stamp, env: Env, results: Dict<Object>)
    requires m.messageType != REGISTER
    requires forall e :: e in results ==> exists r :: e.1 == ToDict(r) && ErrorCode(r) in {Some("invalid_message"), Some("unauthorized")}
    ensures var (res, st') := FanOut(handlers, true, authTokens, st, m, targets, k, stamps, env, results);
      && st' == st
      && forall e :: e in res ==> exists r :: e.1 == ToDict(r) && ErrorCode(r) in {Some("invalid_message"), Some("unauthorized")}
    decreases |targets| - k
  {
    if k < |targets| {
      var copy := BroadcastCopy(m, targets[k], stamps(2 * k));
      var (reply, st') := Process(handlers, true, authTokens, st, copy, stamps(2 * k + 1), env);
      ProcessSteps(handlers, true, authTokens, st, copy, stamps(2 * k + 1), env);
      if ValidateMessage(copy, env.parse) {
        ErrorCodeOfErrorResponse(copy, "unauthorized", "Invalid or missing authentication token", stamps(2 * k + 1));
      }
      var results' := Put(results, targets[k], ToDict(reply));
      forall e | e in results'
        ensures exists r :: e.1 == ToDict(r) && ErrorCode(r) in {Some("invalid_message"), Some("unauthorized")}
      {
        PutEntry(results, targets[k], ToDict(reply), e);
        if e.1 == ToDict(reply) {
          assert ErrorCode(reply) in {Some("invalid_message"), Some("unauthorized")};
        }
      }
      AuthenticatedBroadcastRefused(handlers, authTokens, st, m, targets, k + 1, stamps, env, results');
    }
  }

  /** As written, `registered_agents` counts `list_agents()`, which holds only active agents, so it
      always equals `active_agents`; one inactive agent makes it differ from the number of agents
      registered. */
  lemma StatusCountsCoincide(s: MCPServer)
    ensures s.StatusCounts().1 == s.StatusCounts().2
  {
    ActiveOnlyIdempotent(Values(s.registry.agents));
  }

  lemma StatusCountsMissInactive(s: MCPServer)
    requires s.registry.agents == [("a", AgentRecord("a", Arr([]), Obj([]), "t", "t", false))]
    ensures s.StatusCounts().1 == 0 && |s.registry.agents| == 1
  {
    assert Values(s.registry.agents)[0].active == false;
  }
}
