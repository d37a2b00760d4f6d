/** `AgentOrchestrator.run`: every planned tool runs first, SRE root-cause snapshots run last and
    carry a context bundle of everything collected before them. */
module Orchestrator {
  import opened Options
  import opened Json
  import opened ToolCache
  import opened Redaction
  import opened Dispatcher

  const SNAPSHOT_TOOL := ToolId("infraops-mcp", "create_rca_snapshot")

  predicate IsDeferred(chatType: string, plan: ToolPlan) {
    chatType == "sre_copilot" && plan.id == SNAPSHOT_TOOL
  }

  function Immediate(chatType: string, plans: seq<ToolPlan>): seq<ToolPlan> {
    if plans == [] then []
    else
      var n := |plans| - 1;
      Immediate(chatType, plans[..n]) + if IsDeferred(chatType, plans[n]) then [] else [plans[n]]
  }

  function Deferred(chatType: string, plans: seq<ToolPlan>): seq<ToolPlan> {
    if plans == [] then []
    else
      var n := |plans| - 1;
      Deferred(chatType, plans[..n]) + if IsDeferred(chatType, plans[n]) then [plans[n]] else []
  }

  /** The order in which plans are executed. */
  function Schedule(chatType: string, plans: seq<ToolPlan>): seq<ToolPlan> {
    Immediate(chatType, plans) + Deferred(chatType, plans)
  }

  /** Nothing is lost, repeated or invented by deferring. */
  lemma {:induction false} ScheduleIsPermutation(chatType: string, plans: seq<ToolPlan>)
    ensures multiset(Schedule(chatType, plans)) == multiset(plans)
    ensures |Schedule(chatType, plans)| == |plans|
  {
    if plans != [] {
      var n := |plans| - 1;
      ScheduleIsPermutation(chatType, plans[..n]);
      assert plans == plans[..n] + [plans[n]];
      Insertion(Immediate(chatType, plans[..n]), Deferred(chatType, plans[..n]), plans[n]);
    }
  }

  lemma Insertion(a: seq<ToolPlan>, b: seq<ToolPlan>, x: ToolPlan)
    ensures multiset(a + [x] + b) == multiset(a + b) + multiset{x}
    ensures multiset(a + (b + [x])) == multiset(a + b) + multiset{x}
    ensures a + [x] + (b + []) == a + [x] + b && a + [] + (b + [x]) == a + (b + [x])
  {
  }

  /** Snapshots are deferred in the SRE chat and only there. */
  predicate IsSreSnapshot(chatType: string, id: ToolId) {
    chatType == "sre_copilot" && id.server == "infraops-mcp" && id.tool == "create_rca_snapshot"
  }

  lemma {:induction false} ScheduleMembers(chatType: string, plans: seq<ToolPlan>, p: ToolPlan)
    ensures p in Immediate(chatType, plans) <==> p in plans && !IsSreSnapshot(chatType, p.id)
    ensures p in Deferred(chatType, plans) <==> p in plans && IsSreSnapshot(chatType, p.id)
  {
    if plans != [] {
      var n := |plans| - 1;
      ScheduleMembers(chatType, plans[..n], p);
      assert plans == plans[..n] + [plans[n]];
    }
  }

  lemma Regroup<T>(a: seq<T>, b: seq<T>, c: seq<T>)
    ensures a + b + c == a + (b + c)
  {
  }

  /** Within each of the two phases plans keep their order. */
  lemma {:induction false} PhasesKeepOrder(chatType: string, a: seq<ToolPlan>, b: seq<ToolPlan>)
    ensures Immediate(chatType, a + b) == Immediate(chatType, a) + Immediate(chatType, b)
    ensures Deferred(chatType, a + b) == Deferred(chatType, a) + Deferred(chatType, b)
    decreases |b|
  {
    if b == [] {
      assert a + b == a;
    } else {
      var n := |b| - 1;
      var put := IsDeferred(chatType, b[n]);
      PhasesKeepOrder(chatType, a, b[..n]);
      assert (a + b)[..|a| + n] == a + b[..n];
      Regroup(Immediate(chatType, a), Immediate(chatType, b[..n]), if put then [] else [b[n]]);
      Regroup(Deferred(chatType, a), Deferred(chatType, b[..n]), if put then [b[n]] else []);
    }
  }

  // ---------- The context bundle ----------

  datatype Slot = Slot(group: string, key: string)

  const SLOTS: map<string, seq<Slot>> := map[
    "get_topology_snapshot" := [Slot("topology", "snapshots")],
    "search_topology_knowledge" := [Slot("topology", "search_matches")],
    "get_service_routing_path" := [Slot("topology", "routing_paths")],
    "get_service_dependency_map" := [Slot("topology", "dependency_map")],
    "query_prometheus" := [Slot("metrics", "prometheus")],
    "query_multi_cluster_prometheus" := [Slot("metrics", "multi_cluster_prometheus")],
    "query_loki" := [Slot("logs", "loki")],
    "query_multi_cluster_loki" := [Slot("logs", "multi_cluster_loki")],
    "get_pod_logs" := [Slot("logs", "pod_logs")],
    "query_elasticsearch" := [Slot("logs", "elasticsearch")],
    "search_elasticsearch_logs" := [Slot("logs", "elasticsearch_logs")],
    "search_traces" := [Slot("traces", "trace_search")],
    "get_trace_by_id" := [Slot("traces", "trace_detail")],
    "get_service_trace_summary" := [Slot("traces", "service_trace_summary")],
    "get_trace_error_spans" := [Slot("traces", "trace_error_spans")],
    "get_alertmanager_alerts" := [Slot("alerts", "alertmanager")],
    "get_k8s_pods" := [Slot("kubernetes", "pods")],
    "get_k8s_events" := [Slot("kubernetes", "events")],
    "get_k8s_deployments" := [Slot("kubernetes", "deployments")],
    "get_k8s_hpa" := [Slot("kubernetes", "hpa")],
    "get_k8s_service_endpoints" := [Slot("kubernetes", "service_endpoints")],
    "get_k8s_ingress_backend_mapping" := [Slot("kubernetes", "ingress_backend_mapping")],
    "get_rollout_status" := [Slot("kubernetes", "rollout_status")],
    "check_onprem_metallb_endpoint" := [Slot("network", "onprem_metallb_endpoint")],
    "check_onprem_ingress_route" := [Slot("network", "onprem_ingress_route")],
    "get_sqs_queue_attributes" := [Slot("aws", "sqs_queue")],
    "get_sqs_dlq_attributes" := [Slot("aws", "sqs_dlq")],
    "get_alb_target_health" := [Slot("aws", "alb_target_health")],
    "get_cloudfront_origin_mapping" := [Slot("aws", "cloudfront_origin_mapping")],
    "get_cloudfront_distribution_status" := [Slot("aws", "cloudfront_distribution_status")],
    "get_aws_vpn_tunnel_status" := [Slot("aws", "vpn_tunnel_status")],
    "get_argocd_application_status" :=
      [Slot("deployment_changes", "argocd_application"), Slot("gitops", "argocd_application")],
    "get_current_image_tags" :=
      [Slot("deployment_changes", "current_image_tags"), Slot("gitops", "current_image_tags")],
    "get_recent_deployments" :=
      [Slot("deployment_changes", "recent_deployments"), Slot("gitops", "recent_deployments")],
    "search_incidents" := [Slot("history", "similar_incidents")],
    "search_rca_history" := [Slot("history", "rca_history")],
    "create_rca_snapshot" := [Slot("rca_snapshot", "created_snapshots")]
  ]

  function SlotsOf(tool: string): seq<Slot> {
    if tool in SLOTS then SLOTS[tool] else []
  }

  function Entries(filed: map<Slot, seq<Json>>, slot: Slot): seq<Json> {
    if slot in filed then filed[slot] else []
  }

  datatype Bundle = Bundle(
    filed: map<Slot, seq<Json>>, raw: seq<Json>, total: nat, successful: int, failed: seq<string>,
    available: seq<string>, missing: seq<string>)

  /** The sections a summary speaks of, in its order, and those it reports when they are missing. */
  const SECTIONS: seq<string> :=
    ["topology", "metrics", "logs", "traces", "alerts", "kubernetes", "network", "aws", "deployment_changes",
     "history", "rca_snapshot", "cross_domain"]

  const EXPECTED: seq<string> :=
    ["topology", "metrics", "logs", "traces", "kubernetes", "network", "deployment_changes"]

  function StatusText(s: CallStatus): string {
    match s
    case SUCCESS => "SUCCESS"
    case FAILED => "FAILED"
    case BLOCKED => "BLOCKED"
    case APPROVAL_REQUIRED => "APPROVAL_REQUIRED"
  }

  /** `compact_tool_result`: the masked view of one result. */
  function Compact(r: ToolResult, includeResponse: bool): Json {
    Obj(
      [Field("server_name", Str(r.id.server)), Field("tool_name", Str(r.id.tool)),
       Field("call_status", Str(StatusText(r.callStatus))), Field("will_execute", Bool(r.willExecute)),
       Field("request_payload", r.maskedRequest)]
      + (if r.errorMessage.Some? && r.errorMessage.value != ""
         then [Field("error_message", Str(r.errorMessage.value))] else [])
      + (if includeResponse
         then [Field("response_payload", if r.maskedResponse.Some? then r.maskedResponse.value else Null)] else []))
  }

  /** The entries a slot must hold: the results filed under it, oldest first. */
  function FiledUnder(results: seq<ToolResult>, slot: Slot): seq<Json> {
    if results == [] then []
    else
      var n := |results| - 1;
      FiledUnder(results[..n], slot) +
        if slot in SlotsOf(results[n].id.tool) then [Compact(results[n], true)] else []
  }

  function FailedTools(results: seq<ToolResult>): seq<string> {
    if results == [] then []
    else
      var n := |results| - 1;
      FailedTools(results[..n]) + if results[n].callStatus == SUCCESS then [] else [results[n].id.tool]
  }

  ghost function Successes(results: seq<ToolResult>): set<nat> {
    set i: nat | i < |results| && results[i].callStatus == SUCCESS
  }

  predicate InSection(tool: string, section: string) { exists s :: s in SlotsOf(tool) && s.group == section }

  /** Some result was filed under the section. */
  predicate HasResultFor(results: seq<ToolResult>, section: string) {
    exists i :: 0 <= i < |results| && InSection(results[i].id.tool, section)
  }

  /** Exactly the sections with a result are available, the cross-domain one always; exactly the expected
      ones without are missing; both lists in their fixed order. */
  ghost predicate SectionsMatch(available: seq<string>, missing: seq<string>, results: seq<ToolResult>) {
    && (forall n :: n in available <==> n in SECTIONS && (n == "cross_domain" || HasResultFor(results, n)))
    && (forall n :: n in missing <==> n in EXPECTED && !HasResultFor(results, n))
    && available == Those(SECTIONS, ToSet(available)) && missing == Those(EXPECTED, ToSet(missing))
  }

  ghost predicate Summarizes(b: Bundle, results: seq<ToolResult>) {
    && b.total == |results|
    && b.failed == FailedTools(results)
    && b.successful == |Successes(results)|
    && b.successful + |b.failed| == b.total
    && |b.raw| == |results|
    && (forall i :: 0 <= i < |results| ==> b.raw[i] == Compact(results[i], false))
    && (forall s :: Entries(b.filed, s) == FiledUnder(results, s))
    && SectionsMatch(b.available, b.missing, results)
  }

  function ToSet<T>(s: seq<T>): set<T> { set x | x in s }

  /** The names among `wanted`, in order. */
  function Those(names: seq<string>, wanted: set<string>): seq<string> {
    if names == [] then []
    else (if names[0] in wanted then [names[0]] else []) + Those(names[1..], wanted)
  }

  lemma {:induction false} ThoseMembers(names: seq<string>, wanted: set<string>)
    ensures forall n :: n in Those(names, wanted) <==> n in names && n in wanted
  {
    if names != [] {
      ThoseMembers(names[1..], wanted);
      assert names == [names[0]] + names[1..];
    }
  }

  lemma {:induction false} ThoseAgree(names: seq<string>, a: set<string>, b: set<string>)
    requires forall n :: n in names ==> (n in a <==> n in b)
    ensures Those(names, a) == Those(names, b)
  {
    if names != [] {
      assert names[0] in names;
      ThoseAgree(names[1..], a, b);
    }
  }

  lemma ThoseIsInOrder(names: seq<string>, wanted: set<string>)
    ensures Those(names, ToSet(Those(names, wanted))) == Those(names, wanted)
  {
    ThoseMembers(names, wanted);
    ThoseAgree(names, ToSet(Those(names, wanted)), wanted);
  }

  function SlotSet(results: seq<ToolResult>): set<Slot> {
    if results == [] then {}
    else SlotSet(results[..|results| - 1]) + ToSet(SlotsOf(results[|results| - 1].id.tool))
  }

  lemma {:induction false} SlotHasResult(results: seq<ToolResult>, s: Slot) returns (i: nat)
    requires s in SlotSet(results)
    ensures i < |results| && s in SlotsOf(results[i].id.tool)
  {
    i := |results| - 1;
    if s !in SlotsOf(results[i].id.tool) { i := SlotHasResult(results[..i], s); }
  }

  lemma {:induction false} ResultHasSlot(results: seq<ToolResult>, s: Slot, i: nat)
    requires i < |results| && s in SlotsOf(results[i].id.tool)
    ensures s in SlotSet(results)
  {
    if i < |results| - 1 { ResultHasSlot(results[..|results| - 1], s, i); }
  }

  lemma GroupHasResult(results: seq<ToolResult>, section: string)
    ensures (exists s :: s in SlotSet(results) && s.group == section) <==> HasResultFor(results, section)
  {
    if s :| s in SlotSet(results) && s.group == section {
      var i := SlotHasResult(results, s);
      assert InSection(results[i].id.tool, section);
    }
    if HasResultFor(results, section) {
      var i :| 0 <= i < |results| && InSection(results[i].id.tool, section);
      var s :| s in SlotsOf(results[i].id.tool) && s.group == section;
      ResultHasSlot(results, s, i);
    }
  }

  function Groups(slots: set<Slot>): set<string> { set s | s in slots :: s.group }

  function AvailableSections(slots: set<Slot>): seq<string> { Those(SECTIONS, Groups(slots) + {"cross_domain"}) }

  function MissingSections(available: seq<string>): seq<string> {
    Those(EXPECTED, ToSet(EXPECTED) - ToSet(available))
  }

  lemma ExpectedAreSections()
    ensures forall n :: n in EXPECTED ==> n in SECTIONS && n != "cross_domain"
  {
    assert SECTIONS[0] == EXPECTED[0] && SECTIONS[1] == EXPECTED[1] && SECTIONS[2] == EXPECTED[2];
    assert SECTIONS[3] == EXPECTED[3] && SECTIONS[5] == EXPECTED[4] && SECTIONS[6] == EXPECTED[5];
    assert SECTIONS[8] == EXPECTED[6];
  }

  lemma SectionsAreRight(results: seq<ToolResult>)
    ensures var available := AvailableSections(SlotSet(results));
      SectionsMatch(available, MissingSections(available), results)
  {
    var slots := SlotSet(results);
    var available := AvailableSections(slots);
    forall n ensures n in Groups(slots) <==> HasResultFor(results, n) { GroupHasResult(results, n); }
    ThoseMembers(SECTIONS, Groups(slots) + {"cross_domain"});
    ThoseMembers(EXPECTED, ToSet(EXPECTED) - ToSet(available));
    ThoseIsInOrder(SECTIONS, Groups(slots) + {"cross_domain"});
    ThoseIsInOrder(EXPECTED, ToSet(EXPECTED) - ToSet(available));
    ExpectedAreSections();
  }

  lemma {:induction false} FailuresAndSuccesses(results: seq<ToolResult>)
    ensures |FailedTools(results)| + |Successes(results)| == |results|
  {
    if results == [] {
      assert Successes(results) == {};
    } else {
      var n := |results| - 1;
      FailuresAndSuccesses(results[..n]);
      assert Successes(results) == Successes(results[..n]) + if results[n].callStatus == SUCCESS then {n} else {};
    }
  }

  method AppendEntry(filed: map<Slot, seq<Json>>, slot: Slot, entry: Json) returns (r: map<Slot, seq<Json>>)
    ensures r == filed[slot := Entries(filed, slot) + [entry]]
  {
    var target := if slot in filed then filed else filed[slot := []];
    r := target[slot := target[slot] + [entry]];
  }

  lemma SlotsAreDistinct(tool: string)
    ensures |SlotsOf(tool)| <= 2 && (|SlotsOf(tool)| == 2 ==> SlotsOf(tool)[0] != SlotsOf(tool)[1])
  {
  }

  /** Files one result under each of its slots. */
  method FileEntry(filed: map<Slot, seq<Json>>, result: ToolResult) returns (r: map<Slot, seq<Json>>)
    ensures forall s ::
      Entries(r, s) == Entries(filed, s) + (if s in SlotsOf(result.id.tool) then [Compact(result, true)] else [])
    ensures r.Keys == filed.Keys + ToSet(SlotsOf(result.id.tool))
  {
    r := filed;
    var slots, entry := SlotsOf(result.id.tool), Compact(result, true);
    SlotsAreDistinct(result.id.tool);
    if |slots| > 0 { r := AppendEntry(r, slots[0], entry); }
    if |slots| > 1 { r := AppendEntry(r, slots[1], entry); }
  }

  /** The bundle's parts after the first results. */
  ghost predicate Collected(filed: map<Slot, seq<Json>>, raw: seq<Json>, failed: seq<string>,
                            results: seq<ToolResult>) {
    && |raw| == |results|
    && (forall k :: 0 <= k < |results| ==> raw[k] == Compact(results[k], false))
    && failed == FailedTools(results)
    && (forall s :: Entries(filed, s) == FiledUnder(results, s))
    && filed.Keys == SlotSet(results)
  }

  lemma OneMoreResult(results: seq<ToolResult>, r: ToolResult)
    ensures var all := results + [r];
      && FailedTools(all) == FailedTools(results) + (if r.callStatus == SUCCESS then [] else [r.id.tool])
      && SlotSet(all) == SlotSet(results) + ToSet(SlotsOf(r.id.tool))
  {
    assert (results + [r])[..|results|] == results;
  }

  lemma OneMoreFiled(results: seq<ToolResult>, r: ToolResult, s: Slot)
    ensures FiledUnder(results + [r], s) ==
      FiledUnder(results, s) + (if s in SlotsOf(r.id.tool) then [Compact(r, true)] else [])
  {
    assert (results + [r])[..|results|] == results;
  }

  lemma CollectOne(filed: map<Slot, seq<Json>>, raw: seq<Json>, failed: seq<string>, results: seq<ToolResult>,
                   r: ToolResult, more: map<Slot, seq<Json>>)
    requires Collected(filed, raw, failed, results)
    requires forall s ::
      Entries(more, s) == Entries(filed, s) + (if s in SlotsOf(r.id.tool) then [Compact(r, true)] else [])
    requires more.Keys == filed.Keys + ToSet(SlotsOf(r.id.tool))
    ensures var failures := if r.callStatus == SUCCESS then [] else [r.id.tool];
      Collected(more, raw + [Compact(r, false)], failed + failures, results + [r])
  {
    OneMoreResult(results, r);
    forall s ensures Entries(more, s) == FiledUnder(results + [r], s) { OneMoreFiled(results, r, s); }
  }

  method BuildIncidentContextBundle(results: seq<ToolResult>) returns (b: Bundle)
    ensures Summarizes(b, results)
  {
    var filed, raw, failed := map[], [], [];
    for i := 0 to |results|
      invariant Collected(filed, raw, failed, results[..i])
    {
      assert results[..i + 1] == results[..i] + [results[i]];
      var more := FileEntry(filed, results[i]);
      CollectOne(filed, raw, failed, results[..i], results[i], more);
      filed := more;
      raw := raw + [Compact(results[i], false)];
      failed := failed + if results[i].callStatus == SUCCESS then [] else [results[i].id.tool];
    }
    assert results[..|results|] == results;
    FailuresAndSuccesses(results);
    SectionsAreRight(results);
    var available := AvailableSections(filed.Keys);
    b := Bundle(filed, raw, |results|, |results| - |failed|, failed, available, MissingSections(available));
  }

  function Strings(names: seq<string>): seq<Json> {
    seq(|names|, i requires 0 <= i < |names| => Str(names[i]))
  }

  /** The summary part of the bundle as it travels inside the snapshot request. */
  function RenderBundle(b: Bundle): Json {
    Obj([
      Field("schema_version", Str("incident_context_bundle.v1")),
      Field("raw_tool_results", Arr(b.raw)),
      Field("summary_for_llm", Obj([
        Field("total_tools", Int(b.total)), Field("successful_tools", Int(b.successful)),
        Field("failed_tools", Arr(Strings(b.failed))),
        Field("available_sections", Arr(Strings(b.available))),
        Field("missing_sections", Arr(Strings(b.missing)))]))])
  }

  /** Python's `{**payload, key: value}`. */
  function SetField(fields: seq<Field>, key: string, value: Json): seq<Field> {
    if fields == [] then [Field(key, value)]
    else if fields[0].key == key then [Field(key, value)] + fields[1..]
    else [fields[0]] + SetField(fields[1..], key, value)
  }

  // ---------- The two phases ----------

  datatype RunResult =
    | DirectResponse(answer: string)
    | RunRaised
    | Ran(results: seq<ToolResult>)

  /** Result `i` answers the plan scheduled at `i`; a snapshot was sent the bundle of results before it. */
  ghost predicate AnswersPlan(chatType: string, plan: ToolPlan, results: seq<ToolResult>, i: nat, lower: Lower)
    requires i < |results|
  {
    && results[i].id == plan.id
    && results[i].maskedRequest == Mask(results[i].request, lower)
    && if IsDeferred(chatType, plan) then
         exists b :: Summarizes(b, results[..i])
           && results[i].request == Sanitize(Obj(SetField(plan.payload, "context_bundle", RenderBundle(b))), lower)
       else results[i].request == Sanitize(Obj(plan.payload), lower)
  }

  ghost predicate AnswersSchedule(chatType: string, schedule: seq<ToolPlan>, results: seq<ToolResult>, lower: Lower) {
    && |results| == |schedule|
    && forall i :: 0 <= i < |results| ==> AnswersPlan(chatType, schedule[i], results, i, lower)
  }

  lemma AnswersExtend(chatType: string, schedule: seq<ToolPlan>, plan: ToolPlan,
                      results: seq<ToolResult>, r: ToolResult, lower: Lower)
    requires AnswersSchedule(chatType, schedule, results, lower)
    requires AnswersPlan(chatType, plan, results + [r], |results|, lower)
    ensures AnswersSchedule(chatType, schedule + [plan], results + [r], lower)
  {
    var all := results + [r];
    forall i | 0 <= i < |all| ensures AnswersPlan(chatType, (schedule + [plan])[i], all, i, lower) {
      if i < |results| {
        assert all[..i] == results[..i];
        assert AnswersPlan(chatType, schedule[i], results, i, lower);
      }
    }
  }

  predicate AllRegistered(plans: seq<ToolPlan>, registry: map<ToolId, Permission>) {
    forall p :: p in plans ==> p.id in registry
  }

  /** The first phase after a prefix of the plans. */
  ghost predicate FirstPhase(chatType: string, plans: seq<ToolPlan>, results: seq<ToolResult>, deferred: seq<ToolPlan>,
                             registry: map<ToolId, Permission>, lower: Lower) {
    && AllRegistered(Immediate(chatType, plans), registry)
    && AnswersSchedule(chatType, Immediate(chatType, plans), results, lower)
    && deferred == Deferred(chatType, plans)
  }

  lemma PutOff(chatType: string, plans: seq<ToolPlan>, results: seq<ToolResult>, deferred: seq<ToolPlan>,
               registry: map<ToolId, Permission>, lower: Lower, plan: ToolPlan)
    requires FirstPhase(chatType, plans, results, deferred, registry, lower) && IsDeferred(chatType, plan)
    ensures FirstPhase(chatType, plans + [plan], results, deferred + [plan], registry, lower)
  {
    assert (plans + [plan])[..|plans|] == plans;
    assert Immediate(chatType, plans) + [] == Immediate(chatType, plans);
  }

  lemma RunNow(chatType: string, plans: seq<ToolPlan>, results: seq<ToolResult>, deferred: seq<ToolPlan>,
               registry: map<ToolId, Permission>, lower: Lower, plan: ToolPlan, r: ToolResult)
    requires FirstPhase(chatType, plans, results, deferred, registry, lower) && !IsDeferred(chatType, plan)
    requires plan.id in registry && AnswersPlan(chatType, plan, results + [r], |results|, lower)
    ensures FirstPhase(chatType, plans + [plan], results + [r], deferred, registry, lower)
  {
    assert (plans + [plan])[..|plans|] == plans;
    AnswersExtend(chatType, Immediate(chatType, plans), plan, results, r, lower);
    assert Deferred(chatType, plans) + [] == Deferred(chatType, plans);
  }

  /** One plan of the first phase, answered where it stands. */
  method RunPlan(d: McpToolDispatcher, chatType: string, ghost plans: seq<ToolPlan>, before: seq<ToolResult>,
                 ghost deferred: seq<ToolPlan>, plan: ToolPlan, env: Env)
    returns (ok: bool, results: seq<ToolResult>)
    requires d.Valid() && FirstPhase(chatType, plans, before, deferred, d.registry, d.lower)
    requires !IsDeferred(chatType, plan)
    requires TtlOf(plan.id, READ).Some? ==> WellFormed(Obj(plan.payload))
    modifies d
    ensures d.Valid() && fresh(d.owned - old(d.owned))
    ensures ok <==> plan.id in d.registry
    ensures ok ==> FirstPhase(chatType, plans + [plan], results, deferred, d.registry, d.lower)
  {
    var e, _ := d.Execute(plan, env);
    if e.Raised? { return false, before; }
    RunNow(chatType, plans, before, deferred, d.registry, d.lower, plan, e.result);
    return true, before + [e.result];
  }

  /** First phase: everything but the deferred snapshots, in plan order. */
  method RunImmediate(d: McpToolDispatcher, chatType: string, plans: seq<ToolPlan>, env: nat -> Env)
    returns (ok: bool, results: seq<ToolResult>, deferred: seq<ToolPlan>)
    requires d.Valid()
    requires forall p :: p in plans && TtlOf(p.id, READ).Some? ==> WellFormed(Obj(p.payload))
    modifies d
    ensures d.Valid() && fresh(d.owned - old(d.owned))
    ensures ok <==> AllRegistered(Immediate(chatType, plans), d.registry)
    ensures ok ==> FirstPhase(chatType, plans, results, deferred, d.registry, d.lower)
  {
    results, deferred := [], [];
    for i := 0 to |plans|
      invariant d.Valid() && fresh(d.owned - old(d.owned))
      invariant FirstPhase(chatType, plans[..i], results, deferred, d.registry, d.lower)
    {
      assert plans[..i + 1] == plans[..i] + [plans[i]];
      if IsDeferred(chatType, plans[i]) {
        PutOff(chatType, plans[..i], results, deferred, d.registry, d.lower, plans[i]);
        deferred := deferred + [plans[i]];
      } else {
        ok, results := RunPlan(d, chatType, plans[..i], results, deferred, plans[i], env(|results|));
        if !ok {
          ScheduleMembers(chatType, plans, plans[i]);
          return;
        }
      }
    }
    assert plans[..|plans|] == plans;
    ok := true;
  }

  /** Executes one snapshot plan with the bundle of the results so far added to its payload. */
  method ExecuteSnapshot(d: McpToolDispatcher, chatType: string, plan: ToolPlan, results: seq<ToolResult>, env: Env)
    returns (e: Execution)
    requires d.Valid() && IsDeferred(chatType, plan)
    modifies d
    ensures d.Valid() && fresh(d.owned - old(d.owned))
    ensures e.Raised? <==> plan.id !in d.registry
    ensures e.Executed? ==> AnswersPlan(chatType, plan, results + [e.result], |results|, d.lower)
  {
    var bundle := BuildIncidentContextBundle(results);
    var enriched := SetField(plan.payload, "context_bundle", RenderBundle(bundle));
    ghost var reached;
    e, reached := d.Execute(plan.(payload := enriched), env);
    if e.Executed? {
      assert (results + [e.result])[..|results|] == results;
    }
  }

  /** One deferred snapshot, answered with everything before it. */
  method RunSnapshot(d: McpToolDispatcher, chatType: string, plan: ToolPlan, before: seq<ToolResult>,
                     ghost schedule: seq<ToolPlan>, env: Env)
    returns (ok: bool, results: seq<ToolResult>)
    requires d.Valid() && IsDeferred(chatType, plan) && AnswersSchedule(chatType, schedule, before, d.lower)
    modifies d
    ensures d.Valid() && fresh(d.owned - old(d.owned))
    ensures ok <==> plan.id in d.registry
    ensures ok ==> AnswersSchedule(chatType, schedule + [plan], results, d.lower)
  {
    var e := ExecuteSnapshot(d, chatType, plan, before, env);
    if e.Raised? { return false, before; }
    AnswersExtend(chatType, schedule, plan, before, e.result, d.lower);
    return true, before + [e.result];
  }

  lemma OneMoreDeferred(schedule: seq<ToolPlan>, deferred: seq<ToolPlan>, i: nat, registry: map<ToolId, Permission>)
    requires i < |deferred| && AllRegistered(deferred[..i], registry)
    ensures schedule + deferred[..i + 1] == schedule + deferred[..i] + [deferred[i]]
    ensures AllRegistered(deferred[..i + 1], registry) <==> deferred[i].id in registry
    ensures deferred[i].id !in registry ==> !AllRegistered(deferred, registry)
  {
    assert deferred[..i + 1] == deferred[..i] + [deferred[i]];
  }

  /** Second phase: each deferred snapshot, with the bundle of every result before it. */
  method RunDeferred(d: McpToolDispatcher, chatType: string, first: seq<ToolResult>,
                     ghost schedule: seq<ToolPlan>, deferred: seq<ToolPlan>, env: nat -> Env)
    returns (ok: bool, results: seq<ToolResult>)
    requires d.Valid() && AnswersSchedule(chatType, schedule, first, d.lower)
    requires forall p :: p in deferred ==> IsDeferred(chatType, p)
    modifies d
    ensures d.Valid()
    ensures ok <==> AllRegistered(deferred, d.registry)
    ensures ok ==> AnswersSchedule(chatType, schedule + deferred, results, d.lower)
  {
    results := first;
    for i := 0 to |deferred|
      invariant d.Valid() && fresh(d.owned - old(d.owned))
      invariant AllRegistered(deferred[..i], d.registry)
      invariant AnswersSchedule(chatType, schedule + deferred[..i], results, d.lower)
    {
      var plan := deferred[i];
      assert IsDeferred(chatType, plan);
      ok, results := RunSnapshot(d, chatType, plan, results, schedule + deferred[..i], env(|results|));
      OneMoreDeferred(schedule, deferred, i, d.registry);
      if !ok { return; }
    }
    assert deferred[..|deferred|] == deferred;
    ok := true;
  }

  method Run(d: McpToolDispatcher, chatType: string, directAnswer: Option<string>, plans: seq<ToolPlan>,
             env: nat -> Env)
    returns (r: RunResult)
    requires d.Valid()
    requires forall p :: p in plans && TtlOf(p.id, READ).Some? ==> WellFormed(Obj(p.payload))
    modifies d
    ensures d.Valid()
    ensures r.DirectResponse? <==> directAnswer.Some? && plans == []
    ensures r.RunRaised? <==> !AllRegistered(plans, d.registry)
    ensures r.Ran? ==>
      && |r.results| == |plans|
      && AnswersSchedule(chatType, Schedule(chatType, plans), r.results, d.lower)
    // Whatever was planned, an operation only ever ran for a READ tool.
    ensures forall c :: c in d.calls ==> d.registry[c.id] == READ
  {
    if directAnswer.Some? && plans == [] {
      return DirectResponse(directAnswer.value);
    }
    ScheduleIsPermutation(chatType, plans);
    forall p { ScheduleMembers(chatType, plans, p); }
    var ok, results, deferred := RunImmediate(d, chatType, plans, env);
    if !ok { return RunRaised; }
    ok, results := RunDeferred(d, chatType, results, Immediate(chatType, plans), deferred, env);
    if !ok { return RunRaised; }
    r := Ran(results);
  }
}
