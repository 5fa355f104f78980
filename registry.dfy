/** The agent registry: an in-memory table from agent id to the agent's record, with upsert,
    soft delete, status updates, filtered listing and a sweep for agents that went quiet. */
module Registry {
  import opened Wrappers
  import opened PyStr
  import opened Dicts
  import opened Json
  import Protocol

  /** `cleanup_inactive_agents`' default limit, in seconds. */
  const DEFAULT_MAX_INACTIVE := 3600

  /** One agent's record. Timestamps are the ISO texts the clock gave when they were written. */
  datatype AgentRecord = AgentRecord(
    agentId: string,
    capabilities: Value,
    metadata: Value,
    registeredAt: string,
    lastSeen: string,
    active: bool)

  /** `metadata or {}`: a missing (null) or otherwise falsy metadata becomes an empty dict. */
  function MetadataOrEmpty(metadata: Value): Value {
    if Truthy(metadata) then metadata else Obj([])
  }

  /** The record `register_agent` leaves behind: an existing record keeps its id and its
      registration time. */
  function Registered(prev: Option<AgentRecord>, agentId: string, capabilities: Value,
                      metadata: Value, clock: string): AgentRecord
  {
    match prev
    case Some(r) =>
      r.(capabilities := capabilities, metadata := MetadataOrEmpty(metadata), lastSeen := clock, active := true)
    case None =>
      AgentRecord(agentId, capabilities, MetadataOrEmpty(metadata), clock, clock, true)
  }

  /** `capability in agent["capabilities"]`: element test on a list, substring test on a string,
      key test on a dict; any other value makes Python raise `TypeError` (None here). */
  function HasCapability(capabilities: Value, capability: string): (r: Option<bool>)
    ensures r.None? <==> !(capabilities.Arr? || capabilities.Str? || capabilities.Obj?)
    ensures capabilities == Arr([]) || capabilities == Obj([]) ==> r == Some(false)
  {
    match capabilities
    case Arr(items) => Some(Str(capability) in items)
    case Str(s) => Some(Contains(s, capability))
    case Obj(fields) => Some(HasKey(fields, capability))
    case _ => None
  }

  /** The records of `rs` that are active, in order. */
  function ActiveOnly(rs: seq<AgentRecord>): (r: seq<AgentRecord>)
    ensures |r| <= |rs|
    ensures forall a :: a in r <==> a in rs && a.active
  {
    if |rs| == 0 then [] else (if rs[0].active then [rs[0]] else []) + ActiveOnly(rs[1..])
  }

  lemma {:induction false} ActiveOnlyIdempotent(rs: seq<AgentRecord>)
    ensures ActiveOnly(ActiveOnly(rs)) == ActiveOnly(rs)
  {
    if |rs| > 0 {
      var rest := ActiveOnly(rs[1..]);
      ActiveOnlyIdempotent(rs[1..]);
      if rs[0].active {
        var r := [rs[0]] + rest;
        assert ActiveOnly(rs) == r;
        assert r[0] == rs[0] && r[1..] == rest;
        assert ActiveOnly(r) == [rs[0]] + ActiveOnly(rest);
      } else {
        assert ActiveOnly(rs) == rest;
      }
    }
  }

  /** The active records of `rs` that have `capability`, in order; an error when some record's
      capabilities cannot be searched (the comprehension tests membership before `active`). */
  function WithCapability(rs: seq<AgentRecord>, capability: string): (r: Result<seq<AgentRecord>>)
    ensures r.Ok? <==> forall a :: a in rs ==> HasCapability(a.capabilities, capability).Some?
    ensures r.Ok? ==> forall a :: a in r.value <==>
      a in rs && a.active && HasCapability(a.capabilities, capability) == Some(true)
  {
    if |rs| == 0 then Ok([])
    else match HasCapability(rs[0].capabilities, capability)
      case None => Err("TypeError")
      case Some(has) =>
        var rest :- WithCapability(rs[1..], capability);
        Ok((if has && rs[0].active then [rs[0]] else []) + rest)
  }

  /** The sweep's test: an active record whose last-seen time parses, is naive, and lies more
      than `maxInactive` seconds before `now`; an aware time makes the subtraction raise
      TypeError, which the sweep swallows. */
  predicate Stale(r: AgentRecord, now: int, parse: Protocol.TimeParser, maxInactive: int) {
    && r.active
    && r.lastSeen != ""
    && parse(r.lastSeen).Some?
    && !parse(r.lastSeen).value.aware
    && now - parse(r.lastSeen).value.seconds > maxInactive
  }

  function Sweep(r: AgentRecord, now: int, parse: Protocol.TimeParser, maxInactive: int): (s: AgentRecord)
    ensures !Stale(s, now, parse, maxInactive)
    ensures s.(active := r.active) == r
    ensures s != r ==> r.active && !s.active
  {
    if Stale(r, now, parse, maxInactive) then r.(active := false) else r
  }

  /** The table after `cleanup_inactive_agents`: every stale record marked inactive in place. */
  function Swept(d: Dict<AgentRecord>, now: int, parse: Protocol.TimeParser, maxInactive: int): (e: Dict<AgentRecord>)
    ensures |e| == |d|
    ensures forall i :: 0 <= i < |d| ==> e[i] == (d[i].0, Sweep(d[i].1, now, parse, maxInactive))
  {
    seq(|d|, i requires 0 <= i < |d| => (d[i].0, Sweep(d[i].1, now, parse, maxInactive)))
  }

  /** How many records of `d` are stale. */
  function StaleCount(d: Dict<AgentRecord>, now: int, parse: Protocol.TimeParser, maxInactive: int): nat {
    if |d| == 0 then 0
    else StaleCount(d[..|d| - 1], now, parse, maxInactive)
         + (if Stale(d[|d| - 1].1, now, parse, maxInactive) then 1 else 0)
  }

  class AgentRegistry {
    var agents: Dict<AgentRecord>

    /** Ids are distinct and every record carries its own id. */
    ghost predicate Valid()
      reads this
    {
      DistinctKeys(agents) && forall e :: e in agents ==> e.1.agentId == e.0
    }

    constructor ()
      ensures Valid() && agents == []
    {
      agents := [];
    }

    /** `register_agent`: always succeeds; a known id is updated where it stands, a new one is
        appended. */
    method RegisterAgent(agentId: string, capabilities: Value, metadata: Value, clock: string)
      returns (ok: bool)
      requires Valid()
      modifies this
      ensures Valid() && ok
      ensures agents == Put(old(agents), agentId,
                            Registered(Get(old(agents), agentId), agentId, capabilities, metadata, clock))
    {
      var rec := Registered(Get(agents, agentId), agentId, capabilities, metadata, clock);
      GetHasId(agents, agentId);
      PutPreservesIds(agents, agentId, rec);
      agents := Put(agents, agentId, rec);
      ok := true;
    }

    /** `unregister_agent`: a soft delete that keeps the record, now inactive. */
    method UnregisterAgent(agentId: string, clock: string) returns (ok: bool)
      requires Valid()
      modifies this
      ensures Valid()
      ensures ok == HasKey(old(agents), agentId)
      ensures !ok ==> agents == old(agents)
      ensures ok ==> agents == Put(old(agents), agentId,
                                   Get(old(agents), agentId).value.(active := false, lastSeen := clock))
    {
      match Get(agents, agentId)
      case None =>
        ok := false;
      case Some(r) =>
        GetHasId(agents, agentId);
        var rec := r.(active := false, lastSeen := clock);
        PutPreservesIds(agents, agentId, rec);
        agents := Put(agents, agentId, rec);
        ok := true;
    }

    /** `get_agent`. */
    function GetAgent(agentId: string): (r: Option<AgentRecord>)
      reads this
      requires Valid()
      ensures r.Some? <==> HasKey(agents, agentId)
      ensures r.Some? ==> r.value.agentId == agentId && (agentId, r.value) in agents
    {
      GetHasId(agents, agentId);
      Get(agents, agentId)
    }

    /** `update_agent_status`. */
    method UpdateAgentStatus(agentId: string, active: bool, clock: string) returns (ok: bool)
      requires Valid()
      modifies this
      ensures Valid()
      ensures ok == HasKey(old(agents), agentId)
      ensures !ok ==> agents == old(agents)
      ensures ok ==> agents == Put(old(agents), agentId,
                                   Get(old(agents), agentId).value.(active := active, lastSeen := clock))
    {
      match Get(agents, agentId)
      case None =>
        ok := false;
      case Some(r) =>
        GetHasId(agents, agentId);
        var rec := r.(active := active, lastSeen := clock);
        PutPreservesIds(agents, agentId, rec);
        agents := Put(agents, agentId, rec);
        ok := true;
    }

    /** `list_agents(include_inactive)`, in registration order. */
    function ListAgents(includeInactive: bool): (r: seq<AgentRecord>)
      reads this
      ensures includeInactive ==> r == Values(agents)
      ensures forall a :: a in r <==> a in Values(agents) && (includeInactive || a.active)
    {
      if includeInactive then Values(agents) else ActiveOnly(Values(agents))
    }

    /** `find_agents_by_capability(capability)`. */
    function FindAgentsByCapability(capability: string): (r: Result<seq<AgentRecord>>)
      reads this
      ensures r.Ok? <==> forall a :: a in Values(agents) ==> HasCapability(a.capabilities, capability).Some?
      ensures r.Ok? ==> forall a :: a in r.value <==>
        a in Values(agents) && a.active && HasCapability(a.capabilities, capability) == Some(true)
    {
      WithCapability(Values(agents), capability)
    }

    /** `cleanup_inactive_agents(max_inactive)` at clock reading `now`: walks the table once,
        marking each stale record inactive and counting it. */
    method CleanupInactiveAgents(now: int, parse: Protocol.TimeParser, maxInactive: int) returns (count: nat)
      requires Valid()
      modifies this
      ensures Valid()
      ensures agents == Swept(old(agents), now, parse, maxInactive)
      ensures count == StaleCount(old(agents), now, parse, maxInactive)
    {
      ghost var start := agents;
      count := 0;
      var i := 0;
      while i < |agents|
        invariant |agents| == |start| && 0 <= i <= |start|
        invariant forall k :: 0 <= k < i ==> agents[k] == (start[k].0, Sweep(start[k].1, now, parse, maxInactive))
        invariant forall k :: i <= k < |start| ==> agents[k] == start[k]
        invariant count == StaleCount(start[..i], now, parse, maxInactive)
      {
        var (agentId, agent) := agents[i];
        StaleCountStep(start, i, now, parse, maxInactive);
        if agent.active && agent.lastSeen != "" {
          match parse(agent.lastSeen)
          case Some(lastSeenTime) =>
            if !lastSeenTime.aware && now - lastSeenTime.seconds > maxInactive {
              agents := agents[i := (agentId, agent.(active := false))];
              count := count + 1;
            }
          case None =>
        }
        i := i + 1;
      }
      assert agents == Swept(start, now, parse, maxInactive);
      assert start[..i] == start;
      SweptValid(start, now, parse, maxInactive);
    }
  }

  /** One more record of the table adds one to the count when it is stale. */
  lemma StaleCountStep(d: Dict<AgentRecord>, i: nat, now: int, parse: Protocol.TimeParser, maxInactive: int)
    requires i < |d|
    ensures StaleCount(d[..i + 1], now, parse, maxInactive) ==
      StaleCount(d[..i], now, parse, maxInactive) + if Stale(d[i].1, now, parse, maxInactive) then 1 else 0
  {
    assert d[..i + 1][..i] == d[..i];
  }

  lemma PutPreservesIds(d: Dict<AgentRecord>, k: string, r: AgentRecord)
    requires DistinctKeys(d) && forall e :: e in d ==> e.1.agentId == e.0
    requires r.agentId == k
    ensures DistinctKeys(Put(d, k, r)) && forall e :: e in Put(d, k, r) ==> e.1.agentId == e.0
  {
    PutDistinct(d, k, r);
    if HasKey(d, k) {
      PutExisting(d, k, r);
    } else {
      PutNew(d, k, r);
    }
  }

  lemma GetHasId(d: Dict<AgentRecord>, k: string)
    requires forall e :: e in d ==> e.1.agentId == e.0
    ensures Get(d, k).Some? ==> Get(d, k).value.agentId == k && (k, Get(d, k).value) in d
  {
    GetIn(d, k);
  }

  lemma SweptValid(d: Dict<AgentRecord>, now: int, parse: Protocol.TimeParser, maxInactive: int)
    requires DistinctKeys(d) && forall e :: e in d ==> e.1.agentId == e.0
    ensures var e := Swept(d, now, parse, maxInactive);
      DistinctKeys(e) && forall x :: x in e ==> x.1.agentId == x.0
  {
    var e := Swept(d, now, parse, maxInactive);
    forall x | x in e ensures x.1.agentId == x.0 {
      var i :| 0 <= i < |e| && e[i] == x;
      assert d[i] in d;
    }
  }

  // ---------------------------------------------------------------------------------------------
  // What the operations promise

  /** After `register_agent` the agent is present and active with the given capabilities and
      metadata (an empty one for None) and last seen now; a re-registration keeps the one record
      and its original registration time, a fresh one is registered and seen now; no other agent
      changes. */
  lemma RegisterOutcome(d: Dict<AgentRecord>, agentId: string, capabilities: Value,
                        metadata: Value, clock: string)
    requires DistinctKeys(d) && forall e :: e in d ==> e.1.agentId == e.0
    ensures var d' := Put(d, agentId, Registered(Get(d, agentId), agentId, capabilities, metadata, clock));
      && Get(d', agentId).Some?
      && var r := Get(d', agentId).value;
      && r.agentId == agentId && r.active && r.capabilities == capabilities
      && r.metadata == (if Truthy(metadata) then metadata else Obj([]))
      && r.lastSeen == clock
      && r.registeredAt == (if HasKey(d, agentId) then Get(d, agentId).value.registeredAt else clock)
      && |d'| == (if HasKey(d, agentId) then |d| else |d| + 1)
      && forall k :: k != agentId ==> Get(d', k) == Get(d, k)
  {
    var rec := Registered(Get(d, agentId), agentId, capabilities, metadata, clock);
    GetHasId(d, agentId);
    PutGet(d, agentId, rec, agentId);
    forall k | k != agentId ensures Get(Put(d, agentId, rec), k) == Get(d, k) {
      PutGet(d, agentId, rec, k);
    }
    PutKeys(d, agentId, rec);
  }

  /** `unregister_agent` and `update_agent_status` on a known agent: the record stays
      retrievable, with the new flag and last seen now, and nothing else about it or any other
      agent changes. */
  lemma StatusOutcome(d: Dict<AgentRecord>, agentId: string, active: bool, clock: string)
    requires DistinctKeys(d) && forall e :: e in d ==> e.1.agentId == e.0
    requires HasKey(d, agentId)
    ensures var was := Get(d, agentId).value;
      var d' := Put(d, agentId, was.(active := active, lastSeen := clock));
      && Keys(d') == Keys(d)
      && Get(d', agentId) == Some(AgentRecord(agentId, was.capabilities, was.metadata,
                                              was.registeredAt, clock, active))
      && forall k :: k != agentId ==> Get(d', k) == Get(d, k)
  {
    var r := Get(d, agentId).value;
    var rec := r.(active := active, lastSeen := clock);
    GetHasId(d, agentId);
    PutGet(d, agentId, rec, agentId);
    forall k | k != agentId ensures Get(Put(d, agentId, rec), k) == Get(d, k) {
      PutGet(d, agentId, rec, k);
    }
    PutKeys(d, agentId, rec);
  }

  lemma {:induction false} ActiveOnlyAppend(a: seq<AgentRecord>, b: seq<AgentRecord>)
    ensures ActiveOnly(a + b) == ActiveOnly(a) + ActiveOnly(b)
  {
    if |a| > 0 {
      assert (a + b)[1..] == a[1..] + b;
      ActiveOnlyAppend(a[1..], b);
    } else {
      assert a + b == b;
    }
  }

  /** Appending a record to the list appends it to the filtered list exactly when it is active:
      the filter keeps the order of the records it keeps. */
  lemma ActiveOnlySnoc(rs: seq<AgentRecord>, a: AgentRecord)
    ensures ActiveOnly(rs + [a]) == ActiveOnly(rs) + (if a.active then [a] else [])
  {
    ActiveOnlyAppend(rs, [a]);
    assert [a][1..] == [];
  }

  /** The sweep only switches records off: the ids and their order stay and no stale record
      remains. */
  lemma SweepLeavesNoStale(d: Dict<AgentRecord>, now: int, parse: Protocol.TimeParser, maxInactive: int)
    ensures var e := Swept(d, now, parse, maxInactive);
      && Keys(e) == Keys(d)
      && (forall i :: 0 <= i < |e| ==> !Stale(e[i].1, now, parse, maxInactive))
      && (forall i :: 0 <= i < |e| ==> e[i].1 == d[i].1.(active := e[i].1.active))
  {
  }

  /** The count the sweep returns is exactly how many active agents it took away. */
  lemma {:induction false} SweepCount(d: Dict<AgentRecord>, now: int, parse: Protocol.TimeParser, maxInactive: int)
    ensures |ActiveOnly(Values(Swept(d, now, parse, maxInactive)))| + StaleCount(d, now, parse, maxInactive)
            == |ActiveOnly(Values(d))|
  {
    if |d| > 0 {
      var e := Swept(d, now, parse, maxInactive);
      var n := |d| - 1;
      var init := d[..n];
      SweepCount(init, now, parse, maxInactive);
      assert e[..n] == Swept(init, now, parse, maxInactive);
      assert Values(d) == Values(init) + [d[n].1];
      assert Values(e) == Values(e[..n]) + [e[n].1];
      ActiveOnlyAppend(Values(init), [d[n].1]);
      ActiveOnlyAppend(Values(e[..n]), [e[n].1]);
    }
  }
}
