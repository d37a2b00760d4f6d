/** `McpToolDispatcher`: the permission gate, the connected operations and the response cache.
    An operation is code this model cannot see, so what it does is a parameter of the call. */
module Dispatcher {
  import opened Options
  import opened Json
  import opened CanonicalJson
  import opened ToolCache
  import opened Redaction

  datatype Permission = READ | WRITE | USER_CONFIRMED_WRITE | OPS_WRITE | DESTRUCTIVE
  datatype ExecutionPolicy = ALLOWED | BLOCKED_UNTIL_CONFIRMED | BLOCKED_UNTIL_APPROVED | BLOCKED_POLICY
  datatype CallStatus = SUCCESS | FAILED | BLOCKED | APPROVAL_REQUIRED

  function ExecutionPolicyOf(p: Permission): ExecutionPolicy {
    match p
    case READ => ALLOWED
    case WRITE => BLOCKED_UNTIL_CONFIRMED
    case USER_CONFIRMED_WRITE => BLOCKED_UNTIL_CONFIRMED
    case OPS_WRITE => BLOCKED_UNTIL_APPROVED
    case DESTRUCTIVE => BLOCKED_POLICY
  }

  function CallStatusOf(p: Permission): CallStatus {
    match p
    case READ => SUCCESS
    case DESTRUCTIVE => BLOCKED
    case _ => APPROVAL_REQUIRED
  }

  datatype ToolId = ToolId(server: string, tool: string)
  datatype ToolPlan = ToolPlan(id: ToolId, payload: seq<Field>, reason: string)

  /** What the operation behind a tool does when it is called once. */
  datatype Outcome = Returns(value: Json) | Raises(className: string)

  /** What one call of `execute` meets: the clock at the lookup, the operation, the clock at the store. */
  datatype Env = Env(lookupAt: real, outcome: Outcome, storeAt: real)

  /** One call that reached an operation. */
  datatype OperationCall = OperationCall(id: ToolId, payload: Json, outcome: Outcome)

  /** A response document as its holder sees it: the holder may change it in place. */
  class Payload {
    var value: Json

    constructor (value: Json)
      ensures this.value == value
    {
      this.value := value;
    }
  }

  datatype ToolResult = ToolResult(
    id: ToolId,
    permission: Permission,
    executionPolicy: ExecutionPolicy,
    callStatus: CallStatus,
    willExecute: bool,
    requiresApproval: bool,
    isBlocked: bool,
    request: Json,
    maskedRequest: Json,
    response: Payload?,
    maskedResponse: Option<Json>,
    errorMessage: Option<string>)

  datatype Execution = Raised | Executed(result: ToolResult)

  datatype CacheEntry = CacheEntry(expiresAt: real, payload: Payload)

  function DumpPayload(j: Json): Json {
    if j.Obj? || j.Arr? then j else Obj([Field("value", j)])
  }

  function TtlOf(id: ToolId, p: Permission): Option<real> {
    if id.server != FARMER_SERVER || p != READ then None
    else if id.tool in FARMER_TTL_SECONDS then Some(FARMER_TTL_SECONDS[id.tool])
    else None
  }

  function DryRun(plan: ToolPlan): Json {
    Obj([Field("dry_run", Bool(true)), Field("reason", Str(plan.reason)),
         Field("message", Str("Tool execution requires explicit confirmation or approval."))])
  }

  const NOT_CONNECTED := "Tool dispatcher is not connected for this MCP tool."

  /** What a result says of itself: both documents are shown masked, and the flags follow from the
      permission and the status of the call. */
  predicate Describes(r: ToolResult, p: Permission, lower: Lower)
    reads r.response
  {
    && r.permission == p
    && r.maskedRequest == Mask(r.request, lower)
    && (r.response == null ==> r.maskedResponse == None)
    && (r.response != null ==> r.maskedResponse == Some(Mask(r.response.value, lower)))
    && (p == READ ==> r.executionPolicy == ALLOWED && (r.callStatus == SUCCESS || r.callStatus == FAILED))
    && (p == WRITE || p == USER_CONFIRMED_WRITE ==> r.executionPolicy == BLOCKED_UNTIL_CONFIRMED)
    && (p == OPS_WRITE ==> r.executionPolicy == BLOCKED_UNTIL_APPROVED)
    && (p == DESTRUCTIVE ==> r.executionPolicy == BLOCKED_POLICY && r.callStatus == BLOCKED)
    && (p == WRITE || p == USER_CONFIRMED_WRITE || p == OPS_WRITE ==> r.callStatus == APPROVAL_REQUIRED)
    && (r.willExecute <==> p == READ && r.callStatus == SUCCESS)
    && (r.requiresApproval <==> p == WRITE || p == USER_CONFIRMED_WRITE || p == OPS_WRITE)
    && (r.isBlocked <==> p == DESTRUCTIVE)
    && (r.errorMessage.Some? <==> r.callStatus == FAILED)
  }

  /** An operation that returned gives SUCCESS and its document; one that raised gives FAILED and the
      exception's class name. */
  predicate ShowsOutcome(r: ToolResult, o: Outcome)
    reads r.response
  {
    match o
    case Returns(value) => r.callStatus == SUCCESS && r.response != null && r.response.value == DumpPayload(value)
    case Raises(className) => r.callStatus == FAILED && r.response == null && r.errorMessage == Some(className)
  }

  /** The answer of a READ tool: the operation's own, or one it gave recently to an equal request. */
  ghost predicate ReadAnswer(r: ToolResult, id: ToolId, env: Env, reached: bool,
                             events: seq<Event>, calls: seq<OperationCall>)
    reads r.response
  {
    && (reached ==> ShowsOutcome(r, env.outcome))
    && (!reached ==>
          && TtlOf(id, READ).Some? && r.callStatus == SUCCESS && r.response != null
          && RecentlyReturned(events, calls, id.tool, r.request, r.response.value, env.lookupAt))
  }

  /** The response that stands for a blocked call. */
  predicate IsDryRun(j: Json, reason: string) {
    && j.Obj? && |j.fields| == 3
    && FindKey(j.fields, "dry_run") == Some(Bool(true))
    && FindKey(j.fields, "reason") == Some(Str(reason))
    && FindKey(j.fields, "message") == Some(Str("Tool execution requires explicit confirmation or approval."))
  }

  lemma DryRunIs(plan: ToolPlan)
    ensures IsDryRun(DryRun(plan), plan.reason)
  {
    var fields := DryRun(plan).fields;
    var last := [fields[2]];
    assert fields[1..] == [fields[1], fields[2]] && [fields[1], fields[2]][1..] == last;
    assert FindKey(last, "message") == Some(fields[2].value);
    assert FindKey([fields[1], fields[2]], "message") == FindKey(last, "message");
    assert FindKey(fields, "message") == FindKey(fields[1..], "message");
  }

  /** An object or a list is passed on, anything else is wrapped under `value`. */
  lemma DumpPayloadWraps(j: Json)
    ensures j.Obj? || j.Arr? ==> DumpPayload(j) == j
    ensures !j.Obj? && !j.Arr? ==> DumpPayload(j) == Obj([Field("value", j)])
  {
  }

  /** A stored response was returned by the tool's own operation for that very payload. */
  ghost predicate Explained(e: Event, calls: seq<OperationCall>)
    requires e.Stored?
  {
    && WellFormed(e.payload)
    && e.tool in FARMER_TTL_SECONDS && e.ttl == FARMER_TTL_SECONDS[e.tool]
    && exists c :: c in calls && c.id == ToolId(FARMER_SERVER, e.tool) && c.payload == e.payload
         && c.outcome.Returns? && DumpPayload(c.outcome.value) == e.value
  }

  ghost predicate AllExplained(events: seq<Event>, calls: seq<OperationCall>) {
    forall i :: 0 <= i < |events| && events[i].Stored? ==> Explained(events[i], calls)
  }

  /** `v` was returned by the operation of `tool` for a payload equal to `payload`, and stored less
      than the tool's time-to-live before `now`; no later response was stored for that request. */
  ghost predicate RecentlyReturned(events: seq<Event>, calls: seq<OperationCall>,
                                   tool: string, payload: Json, v: Json, now: real) {
    exists i :: 0 <= i < |events| && events[i].Stored? && Answers(events, calls, i, tool, payload, v, now)
  }

  ghost predicate Answers(events: seq<Event>, calls: seq<OperationCall>, i: nat,
                          tool: string, payload: Json, v: Json, now: real)
    requires i < |events| && events[i].Stored?
  {
    && Explained(events[i], calls)
    && events[i].tool == tool && Same(events[i].payload, payload)
    && events[i].value == v
    && now - events[i].now < FARMER_TTL_SECONDS[tool]
    && forall j :: i < j < |events| && events[j].Stored? && events[j].tool == tool ==>
         !Same(events[j].payload, payload)
  }

  /** A hit under the key of a request answers that request. */
  lemma HitAnswersRequest(events: seq<Event>, calls: seq<OperationCall>, tool: string, payload: Json, now: real)
    requires AllExplained(events, calls) && tool in FARMER_TTL_SECONDS && WellFormed(payload)
    ensures var found := Lookups(Run(events), CacheKey(FARMER_SERVER, tool, payload), now);
      found.Hit? ==> RecentlyReturned(events, calls, tool, payload, found.value, now)
  {
    var key := CacheKey(FARMER_SERVER, tool, payload);
    HitIsFresh(events, key, now);
    CachedNamesHaveNoColon();
    if Lookups(Run(events), key, now).Hit? {
      var i := LastStore(events, key);
      forall j | i <= j < |events| && events[j].Stored?
        ensures EventKey(events[j]) == key <==> events[j].tool == tool && Same(events[j].payload, payload)
      {
        assert Explained(events[j], calls);
        CacheKeyIsExact(FARMER_SERVER, events[j].tool, events[j].payload, FARMER_SERVER, tool, payload);
      }
      assert Answers(events, calls, i, tool, payload, events[i].value, now);
    }
  }

  lemma MoreCallsExplain(events: seq<Event>, calls: seq<OperationCall>, c: OperationCall)
    requires AllExplained(events, calls)
    ensures AllExplained(events, calls + [c])
  {
    forall i | 0 <= i < |events| && events[i].Stored? ensures Explained(events[i], calls + [c]) {
      assert Explained(events[i], calls);
    }
  }

  lemma ReturnedIsExplained(id: ToolId, c: OperationCall, before: seq<OperationCall>, value: Json, now: real)
    requires TtlOf(id, READ).Some? ==> WellFormed(c.payload)
    requires c.id == id && c.outcome == Returns(value)
    ensures TtlOf(id, READ).Some? ==>
      Explained(Stored(id.tool, c.payload, DumpPayload(value), now, TtlOf(id, READ).value), before + [c])
  {
    assert c in before + [c];
  }

  lemma OneMoreExplained(events: seq<Event>, calls: seq<OperationCall>, e: Event)
    requires AllExplained(events, calls) && e.Stored? && Explained(e, calls)
    ensures AllExplained(events + [e], calls)
  {
    forall i | 0 <= i < |events + [e]| && (events + [e])[i].Stored? ensures Explained((events + [e])[i], calls) {
      if i < |events| { assert Explained(events[i], calls); }
    }
  }

  class McpToolDispatcher {
    const registry: map<ToolId, Permission>
    const connected: set<ToolId>
    const lower: Lower

    var toolCache: map<string, CacheEntry>

    ghost var owned: set<Payload>
    ghost var events: seq<Event>
    ghost var calls: seq<OperationCall>

    ghost predicate Valid()
      reads this, owned
    {
      && (forall k :: k in toolCache ==> toolCache[k].payload in owned)
      && View() == Run(events)
      && (forall c :: c in calls ==> MayRun(c.id))
      && AllExplained(events, calls)
    }

    predicate MayRun(id: ToolId) { id in registry && registry[id] == READ && id in connected }

    ghost function View(): Cache
      requires forall k :: k in toolCache ==> toolCache[k].payload in owned
      reads this, owned
    {
      map k | k in toolCache :: Entry(toolCache[k].expiresAt, toolCache[k].payload.value)
    }

    constructor (registry: map<ToolId, Permission>, connected: set<ToolId>, lower: Lower)
      ensures Valid() && owned == {}
      ensures this.registry == registry && this.connected == connected && this.lower == lower
      ensures events == [] && calls == []
    {
      this.registry, this.connected, this.lower := registry, connected, lower;
      toolCache, owned, events, calls := map[], {}, [], [];
    }

    method GetCachedToolResponse(key: string, now: real) returns (copy: Payload?)
      requires Valid()
      modifies this
      ensures Valid() && owned == old(owned) && calls == old(calls)
      ensures events == old(events) + [Looked(key, now)]
      ensures copy != null ==> fresh(copy)
      ensures Lookups(old(View()), key, now) == if copy == null then Miss else Hit(copy.value)
    {
      copy := null;
      ghost var before := events;
      if key in toolCache {
        var entry := toolCache[key];
        if entry.expiresAt <= now {
          toolCache := toolCache - {key};
        } else {
          copy := new Payload(entry.payload.value);
        }
      }
      events := events + [Looked(key, now)];
      assert events[..|events| - 1] == before;
    }

    /** Stores a copy of the value that nothing else refers to. */
    method Put(key: string, expiresAt: real, value: Json)
      requires forall k :: k in toolCache ==> toolCache[k].payload in owned
      modifies this`toolCache, this`owned
      ensures forall k :: k in toolCache ==> toolCache[k].payload in owned
      ensures View() == old(View())[key := Entry(expiresAt, value)]
      ensures old(owned) <= owned && fresh(owned - old(owned))
    {
      var copy := new Payload(value);
      toolCache := toolCache[key := CacheEntry(expiresAt, copy)];
      owned := owned + {copy};
    }

    method SetCachedToolResponse(tool: string, ghost payload: Json, key: string, response: Payload,
                                 now: real, ttl: real)
      requires Valid()
      requires key == CacheKey(FARMER_SERVER, tool, payload)
      requires AllExplained(events + [Stored(tool, payload, response.value, now, ttl)], calls)
      modifies this
      ensures Valid() && fresh(owned - old(owned)) && calls == old(calls)
      ensures events == old(events) + [Stored(tool, payload, response.value, now, ttl)]
      ensures response in owned ==> response in old(owned)
    {
      RunOfStore(events, key, tool, payload, response.value, now, ttl);
      Put(key, now + ttl, response.value);
      Record(events + [Stored(tool, payload, response.value, now, ttl)]);
    }

    /** The history catches up with what was just done to the cache. */
    ghost method Record(history: seq<Event>)
      requires forall k :: k in toolCache ==> toolCache[k].payload in owned
      requires View() == Run(history) && AllExplained(history, calls)
      requires forall c :: c in calls ==> MayRun(c.id)
      modifies this`events
      ensures Valid() && events == history
    {
      events := history;
    }


    function BuildToolResult(id: ToolId, request: Json, response: Payload?, callStatus: CallStatus,
                             errorMessage: Option<string>): ToolResult
      requires id in registry
      reads response
    {
      var policy := ExecutionPolicyOf(registry[id]);
      ToolResult(id, registry[id], policy, callStatus,
        policy == ALLOWED && callStatus == SUCCESS,
        callStatus == APPROVAL_REQUIRED,
        callStatus == BLOCKED,
        request, Mask(request, lower),
        response, if response == null then None else Some(Mask(response.value, lower)),
        errorMessage)
    }

    /** What one execution adds to the history of cache events. */
    function NewEvents(id: ToolId, request: Json, env: Env, reached: bool): seq<Event> {
      var ttl := TtlOf(id, READ);
      if ttl.None? then []
      else
        [Looked(CacheKey(id.server, id.tool, request), env.lookupAt)] +
        if reached && env.outcome.Returns? then
          [Stored(id.tool, request, DumpPayload(env.outcome.value), env.storeAt, ttl.value)]
        else []
    }

    /** Stores an explained response. */
    method Remember(id: ToolId, ghost request: Json, key: string, response: Payload, now: real, ttl: real)
      requires Valid() && key == CacheKey(FARMER_SERVER, id.tool, request)
      requires Explained(Stored(id.tool, request, response.value, now, ttl), calls)
      modifies this
      ensures Valid() && fresh(owned - old(owned)) && calls == old(calls)
      ensures events == old(events) + [Stored(id.tool, request, response.value, now, ttl)]
      ensures response in owned ==> response in old(owned)
    {
      OneMoreExplained(events, calls, Stored(id.tool, request, response.value, now, ttl));
      SetCachedToolResponse(id.tool, request, key, response, now, ttl);
    }

    /** Calls the operation and, when it returned, stores the response of a cached tool. */
    method CallOperation(id: ToolId, request: Json, env: Env, ttl: Option<real>, key: string) returns (r: ToolResult)
      requires Valid() && MayRun(id)
      requires TtlOf(id, READ).Some? ==> WellFormed(request)
      requires ttl == TtlOf(id, READ) && (ttl.Some? ==> key == CacheKey(id.server, id.tool, request))
      modifies this
      ensures Valid() && fresh(owned - old(owned))
      ensures r.id == id && r.request == request && r.maskedRequest == Mask(request, lower)
      ensures r.response != null ==> fresh(r.response) && r.response !in owned
      ensures Describes(r, READ, lower)
      ensures calls == old(calls) + [OperationCall(id, request, env.outcome)]
      ensures events == old(events) +
        if ttl.Some? && env.outcome.Returns?
        then [Stored(id.tool, request, DumpPayload(env.outcome.value), env.storeAt, ttl.value)] else []
      ensures ShowsOutcome(r, env.outcome)
    {
      ghost var c := OperationCall(id, request, env.outcome);
      MoreCallsExplain(events, calls, c);
      calls := calls + [c];
      if env.outcome.Raises? {
        r := BuildToolResult(id, request, null, FAILED, Some(env.outcome.className));
        return;
      }
      var response := new Payload(DumpPayload(env.outcome.value));
      ReturnedIsExplained(id, c, old(calls), env.outcome.value, env.storeAt);
      if ttl.Some? { Remember(id, request, key, response, env.storeAt, ttl.value); }
      r := BuildToolResult(id, request, response, SUCCESS, None);
    }

    /** The answer is the operation's own, or one it gave recently to an equal request. */
    method ExecuteRead(id: ToolId, request: Json, env: Env) returns (r: ToolResult, ghost reached: bool)
      requires Valid() && MayRun(id)
      requires TtlOf(id, READ).Some? ==> WellFormed(request)
      modifies this
      ensures Valid() && fresh(owned - old(owned))
      ensures r.id == id && r.request == request && r.maskedRequest == Mask(request, lower)
      ensures r.response != null ==> fresh(r.response) && r.response !in owned
      ensures Describes(r, READ, lower)
      ensures events == old(events) + NewEvents(id, request, env, reached)
      ensures calls == old(calls) + if reached then [OperationCall(id, request, env.outcome)] else []
      ensures ReadAnswer(r, id, env, reached, old(events), old(calls))
    {
      var ttl := TtlOf(id, READ);
      var key := "";
      reached := true;
      if ttl.Some? {
        key := CacheKey(id.server, id.tool, request);
        HitAnswersRequest(events, calls, id.tool, request, env.lookupAt);
        var copy := GetCachedToolResponse(key, env.lookupAt);
        if copy != null {
          reached := false;
          r := BuildToolResult(id, request, copy, SUCCESS, None);
          return;
        }
      }
      r := CallOperation(id, request, env, ttl, key);
    }

    /** The answer for a tool that may not run: nothing is called. */
    method Decline(plan: ToolPlan, request: Json) returns (r: ToolResult)
      requires plan.id in registry && !MayRun(plan.id)
      ensures Describes(r, registry[plan.id], lower) && r.id == plan.id && r.request == request
      ensures r.response != null ==> fresh(r.response)
      ensures Declined(r, plan)
    {
      if registry[plan.id] != READ {
        var dryRun := new Payload(DryRun(plan));
        DryRunIs(plan);
        r := BuildToolResult(plan.id, request, dryRun, CallStatusOf(registry[plan.id]), None);
      } else {
        r := BuildToolResult(plan.id, request, null, FAILED, Some(NOT_CONNECTED));
      }
    }

    /** A blocked call answers with the dry run, an unconnected tool with an error. */
    predicate Declined(r: ToolResult, plan: ToolPlan)
      requires plan.id in registry
      reads r.response
    {
      && (registry[plan.id] != READ ==>
            && r.callStatus == CallStatusOf(registry[plan.id]) && !r.willExecute
            && r.response != null && r.response.value == DryRun(plan) && IsDryRun(r.response.value, plan.reason))
      && (registry[plan.id] == READ ==>
            r.callStatus == FAILED && r.response == null && r.errorMessage == Some(NOT_CONNECTED))
    }

    method Execute(plan: ToolPlan, env: Env) returns (r: Execution, ghost reached: bool)
      requires Valid()
      requires TtlOf(plan.id, READ).Some? ==> WellFormed(Obj(plan.payload))
      modifies this
      ensures Valid() && fresh(owned - old(owned))
      // An unregistered tool raises before anything happens.
      ensures r.Raised? <==> plan.id !in registry
      ensures r.Executed? ==>
        && r.result.id == plan.id && plan.id in registry
        && r.result.request == Sanitize(Obj(plan.payload), lower)
        && r.result.maskedRequest == Mask(r.result.request, lower)
        && Describes(r.result, registry[plan.id], lower)
        && (r.result.response != null ==> fresh(r.result.response) && r.result.response !in owned)
      // Nothing runs, and the cache is not touched, unless the tool is READ and connected.
      ensures !MayRun(plan.id) ==> !reached && calls == old(calls) && events == old(events)
      ensures r.Executed? && !MayRun(plan.id) ==> Declined(r.result, plan)
      // Otherwise the answer is the operation's own, or one it gave recently to an equal request.
      ensures MayRun(plan.id) ==>
        && events == old(events) + NewEvents(plan.id, r.result.request, env, reached)
        && calls == old(calls) + if reached then [OperationCall(plan.id, r.result.request, env.outcome)] else []
      ensures MayRun(plan.id) ==> ReadAnswer(r.result, plan.id, env, reached, old(events), old(calls))
    {
      reached := false;
      if plan.id !in registry {
        return Raised, false;
      }
      var sanitized := Sanitize(Obj(plan.payload), lower);
      if ExecutionPolicyOf(registry[plan.id]) != ALLOWED || plan.id !in connected {
        var declined := Decline(plan, sanitized);
        r := Executed(declined);
      } else {
        if WellFormed(Obj(plan.payload)) { SanitizeKeepsWellFormed(Obj(plan.payload), lower); }
        var result;
        result, reached := ExecuteRead(plan.id, sanitized, env);
        r := Executed(result);
      }
    }
  }

  lemma {:induction false} SameIsReflexive(j: Json)
    ensures Same(j, j)
    decreases j
  {
    match j
    case Arr(items) =>
      forall i | 0 <= i < |items| { SameIsReflexive(items[i]); }
    case Obj(fields) =>
      forall i | 0 <= i < |fields| ensures HasSame(fields[i].key, fields[i].value, fields) {
        SameIsReflexive(fields[i].value);
      }
    case _ =>
  }

  /** Right after a response was stored, only that response answers the same request. */
  lemma JustStoredAnswers(events: seq<Event>, calls: seq<OperationCall>, tool: string, payload: Json,
                          v: Json, now: real)
    requires events != []
    requires var last := events[|events| - 1]; last.Stored? && last.tool == tool && last.payload == payload
    requires RecentlyReturned(events, calls, tool, payload, v, now)
    ensures v == events[|events| - 1].value
  {
    var i :| 0 <= i < |events| && events[i].Stored? && Answers(events, calls, i, tool, payload, v, now);
    SameIsReflexive(payload);
  }

  /** Executes a READ plan and then overwrites the response document it was given. */
  method ExecuteThenScribble(d: McpToolDispatcher, plan: ToolPlan, env: Env, scribble: Json)
    returns (given: Json, ghost reached: bool)
    requires d.Valid() && WellFormed(Obj(plan.payload)) && d.MayRun(plan.id)
    requires TtlOf(plan.id, READ).Some? && env.outcome.Returns?
    modifies d
    ensures d.Valid()
    ensures reached ==> given == DumpPayload(env.outcome.value)
    ensures reached ==> d.events != [] && var last := d.events[|d.events| - 1];
      && last.Stored? && last.tool == plan.id.tool
      && last.payload == Sanitize(Obj(plan.payload), d.lower) && last.value == given
  {
    var e;
    e, reached := d.Execute(plan, env);
    var mine := e.result.response;
    given := mine.value;
    mine.value := scribble;
  }

  /** Whatever a caller does to the response it was given, a hit that follows returns the response as
      it was stored. */
  method MutationDoesNotReachTheCache(d: McpToolDispatcher, plan: ToolPlan, first: Env, second: Env, scribble: Json)
    returns (given: Json, again: Json, ghost hit: bool)
    requires d.Valid() && WellFormed(Obj(plan.payload)) && d.MayRun(plan.id)
    requires TtlOf(plan.id, READ).Some? && first.outcome.Returns? && second.outcome.Returns?
    modifies d
    ensures d.Valid()
    ensures hit ==> again == given == DumpPayload(first.outcome.value)
  {
    ghost var reached, reached';
    given, reached := ExecuteThenScribble(d, plan, first, scribble);
    ghost var history, past := d.events, d.calls;
    var request := Sanitize(Obj(plan.payload), d.lower);
    SanitizeKeepsWellFormed(Obj(plan.payload), d.lower);
    var r;
    r, reached' := d.ExecuteRead(plan.id, request, second);
    again := r.response.value;
    hit := reached && !reached';
    if hit {
      JustStoredAnswers(history, past, plan.id.tool, request, again, second.lookupAt);
    }
  }
}
