/** What a root-cause snapshot is told: the request of a deferred plan, read back by path. */
module Snapshot {
  import opened Options
  import opened Json
  import opened ToolCache
  import opened Redaction
  import opened Dispatcher
  import opened Orchestrator

  /** ## Reading fields */

  lemma {:induction false} FieldAt(fields: seq<Field>, i: nat)
    requires i < |fields| && forall k :: 0 <= k < i ==> fields[k].key != fields[i].key
    ensures FindKey(fields, fields[i].key) == Some(fields[i].value)
  {
    if i > 0 { FieldAt(fields[1..], i - 1); }
  }

  lemma {:induction false} NoField(fields: seq<Field>, key: string)
    requires forall k :: 0 <= k < |fields| ==> fields[k].key != key
    ensures FindKey(fields, key) == None
  {
    if fields != [] { NoField(fields[1..], key); }
  }

  lemma {:induction false} FindSet(fields: seq<Field>, key: string, value: Json, other: string)
    ensures FindKey(SetField(fields, key, value), other) == if other == key then Some(value) else FindKey(fields, other)
  {
    if fields != [] && fields[0].key != key { FindSet(fields[1..], key, value, other); }
  }

  lemma StepInto(j: Json, step: Step, rest: seq<Step>)
    ensures At(j, [step] + rest) == match Child(j, step) case None => None case Some(child) => At(child, rest)
  {
    assert ([step] + rest)[1..] == rest;
  }

  lemma StepTo(j: Json, step: Step)
    ensures At(j, [step]) == Child(j, step)
  {
    StepInto(j, step, []);
    assert [step] + [] == [step];
  }

  /** ## Keys that sanitizing keeps */

  predicate IsLowerCase(s: string) { forall i :: 0 <= i < |s| ==> 'a' <= s[i] <= 'z' || s[i] == '_' }

  /** `str.lower` leaves text of small letters and underscores as it is. */
  ghost predicate KeepsLowerCase(lower: Lower) { forall s: string :: IsLowerCase(s) ==> lower(s) == s }

  /** Steps by index or by keys that sanitizing never removes. */
  predicate IsKeptStep(step: Step) { step.Key? ==> IsLowerCase(step.key) && step.key !in EXECUTION_CONTEXT_KEYS }

  lemma KeptPathStays(j: Json, path: seq<Step>, lower: Lower, v: Json)
    requires KeepsLowerCase(lower) && (forall i :: 0 <= i < |path| ==> IsKeptStep(path[i])) && At(j, path) == Some(v)
    ensures At(Sanitize(j, lower), path) == Some(Sanitize(v, lower))
  {
    SanitizeAtPath(j, path, lower);
  }

  const BUNDLE := Key("context_bundle")
  const SUMMARY := Key("summary_for_llm")
  const RAW := Key("raw_tool_results")

  lemma BundleStepsAreKept()
    ensures IsKeptStep(BUNDLE) && IsKeptStep(SUMMARY) && IsKeptStep(RAW)
  {
  }

  lemma SummaryKeysAreKept()
    ensures IsKeptStep(Key("total_tools")) && IsKeptStep(Key("successful_tools"))
    ensures IsKeptStep(Key("failed_tools"))
    ensures IsKeptStep(Key("available_sections")) && IsKeptStep(Key("missing_sections"))
  {
    assert "failed_tools"[0] == 'f' && "access_token"[0] == 'a';
  }

  lemma EntryKeysAreKept()
    ensures IsKeptStep(Key("server_name")) && IsKeptStep(Key("tool_name")) && IsKeptStep(Key("call_status"))
    ensures IsKeptStep(Key("request_payload")) && IsKeptStep(Key("response_payload"))
  {
  }

  /** ## The rendered bundle */

  function SummaryFields(b: Bundle): seq<Field>
    requires RenderBundle(b).Obj? && |RenderBundle(b).fields| == 3 && RenderBundle(b).fields[2].value.Obj?
  {
    RenderBundle(b).fields[2].value.fields
  }

  lemma BundleFields(b: Bundle)
    ensures var bundle := RenderBundle(b);
      Child(bundle, RAW) == Some(Arr(b.raw)) && Child(bundle, SUMMARY) == Some(Obj(SummaryFields(b)))
  {
    FieldAt(RenderBundle(b).fields, 1);
    FieldAt(RenderBundle(b).fields, 2);
  }

  lemma CountFields(b: Bundle)
    ensures FindKey(SummaryFields(b), "total_tools") == Some(Int(b.total))
    ensures FindKey(SummaryFields(b), "successful_tools") == Some(Int(b.successful))
    ensures FindKey(SummaryFields(b), "failed_tools") == Some(Arr(Strings(b.failed)))
  {
    FieldAt(SummaryFields(b), 0);
    FieldAt(SummaryFields(b), 1);
    FieldAt(SummaryFields(b), 2);
  }

  lemma SectionFields(b: Bundle)
    ensures FindKey(SummaryFields(b), "available_sections") == Some(Arr(Strings(b.available)))
    ensures FindKey(SummaryFields(b), "missing_sections") == Some(Arr(Strings(b.missing)))
  {
    FieldAt(SummaryFields(b), 3);
    FieldAt(SummaryFields(b), 4);
  }

  lemma {:induction false} NamesStay(names: seq<string>, lower: Lower)
    ensures Sanitize(Arr(Strings(names)), lower) == Arr(Strings(names))
  {
    assert SanitizeItems(Strings(names), lower) == Strings(names);
  }

  /** A payload with this bundle in it. */
  function Carrying(payload: seq<Field>, b: Bundle): Json { Obj(SetField(payload, "context_bundle", RenderBundle(b))) }

  lemma IntoBundle(payload: seq<Field>, b: Bundle, rest: seq<Step>)
    ensures At(Carrying(payload, b), [BUNDLE] + rest) == At(RenderBundle(b), rest)
  {
    FindSet(payload, "context_bundle", RenderBundle(b), "context_bundle");
    StepInto(Carrying(payload, b), BUNDLE, rest);
  }

  function SummaryPath(key: string): seq<Step> { [BUNDLE, SUMMARY, Key(key)] }

  function EntryPath(k: nat, key: string): seq<Step> { [BUNDLE, RAW, Index(k), Key(key)] }

  lemma SummaryAt(payload: seq<Field>, b: Bundle, key: string)
    ensures At(Carrying(payload, b), SummaryPath(key)) == FindKey(SummaryFields(b), key)
  {
    assert SummaryPath(key) == [BUNDLE] + ([SUMMARY] + [Key(key)]);
    IntoBundle(payload, b, [SUMMARY] + [Key(key)]);
    BundleFields(b);
    StepInto(RenderBundle(b), SUMMARY, [Key(key)]);
    StepTo(Obj(SummaryFields(b)), Key(key));
  }

  lemma EntryAt(payload: seq<Field>, b: Bundle, k: nat, key: string)
    requires k < |b.raw|
    ensures At(Carrying(payload, b), EntryPath(k, key)) == Child(b.raw[k], Key(key))
  {
    assert EntryPath(k, key) == [BUNDLE] + ([RAW] + ([Index(k)] + [Key(key)]));
    IntoBundle(payload, b, [RAW] + ([Index(k)] + [Key(key)]));
    BundleFields(b);
    StepInto(RenderBundle(b), RAW, [Index(k)] + [Key(key)]);
    StepInto(Arr(b.raw), Index(k), [Key(key)]);
    StepTo(b.raw[k], Key(key));
  }

  /** ## One entry */

  predicate ShowsCall(entry: Json, r: ToolResult) {
    && Child(entry, Key("server_name")) == Some(Str(r.id.server))
    && Child(entry, Key("tool_name")) == Some(Str(r.id.tool))
    && Child(entry, Key("call_status")) == Some(Str(
         match r.callStatus
         case SUCCESS => "SUCCESS"
         case FAILED => "FAILED"
         case BLOCKED => "BLOCKED"
         case APPROVAL_REQUIRED => "APPROVAL_REQUIRED"))
    && Child(entry, Key("request_payload")) == Some(r.maskedRequest)
  }

  /** A filed entry shows what was asked, masked, and the masked answer; a raw one no answer at all. */
  lemma CompactShows(r: ToolResult, includeResponse: bool)
    ensures var entry := Compact(r, includeResponse);
      && ShowsCall(entry, r)
      && (Child(entry, Key("response_payload")) ==
            if !includeResponse then None
            else if r.maskedResponse.Some? then r.maskedResponse else Some(Null))
      && (Child(entry, Key("error_message")) ==
            if r.errorMessage.Some? && r.errorMessage.value != "" then Some(Str(r.errorMessage.value)) else None)
  {
    var fields := Compact(r, includeResponse).fields;
    FieldAt(fields, 0);
    FieldAt(fields, 1);
    FieldAt(fields, 2);
    FieldAt(fields, 4);
    if includeResponse { FieldAt(fields, |fields| - 1); } else { NoField(fields, "response_payload"); }
    if r.errorMessage.Some? && r.errorMessage.value != "" {
      FieldAt(fields, 5);
    } else {
      NoField(fields, "error_message");
    }
  }

  /** ## The request of a snapshot */

  predicate NamesFailure(results: seq<ToolResult>, name: string) {
    exists k :: 0 <= k < |results| && results[k].callStatus != SUCCESS && results[k].id.tool == name
  }

  lemma {:induction false} FailedToolsAre(results: seq<ToolResult>, name: string)
    ensures name in FailedTools(results) <==> NamesFailure(results, name)
  {
    if results != [] {
      var n := |results| - 1;
      FailedToolsAre(results[..n], name);
      assert forall k :: 0 <= k < n ==> results[..n][k] == results[k];
    }
  }

  lemma SummaryStays(payload: seq<Field>, b: Bundle, key: string, lower: Lower, v: Json)
    requires KeepsLowerCase(lower) && IsKeptStep(Key(key)) && FindKey(SummaryFields(b), key) == Some(v)
    ensures At(Sanitize(Carrying(payload, b), lower), SummaryPath(key)) == Some(Sanitize(v, lower))
  {
    BundleStepsAreKept();
    SummaryAt(payload, b, key);
    KeptPathStays(Carrying(payload, b), SummaryPath(key), lower, v);
  }

  /** `failed` names the results that did not succeed, and with the successes they make up all of them. */
  ghost predicate CountsOf(failed: seq<string>, before: seq<ToolResult>) {
    && |Successes(before)| + |failed| == |before|
    && forall n :: n in failed <==> NamesFailure(before, n)
  }

  lemma SummaryCounts(b: Bundle, before: seq<ToolResult>)
    requires Summarizes(b, before)
    ensures CountsOf(b.failed, before)
  {
    forall n ensures n in b.failed <==> NamesFailure(before, n) { FailedToolsAre(before, n); }
  }

  /** A snapshot is told how many tools ran before it, how many of them succeeded and the names of the
      others, and the two numbers add up. */
  lemma SnapshotCounts(chatType: string, plan: ToolPlan, results: seq<ToolResult>, i: nat, lower: Lower)
    requires i < |results| && KeepsLowerCase(lower)
    requires IsDeferred(chatType, plan) && AnswersPlan(chatType, plan, results, i, lower)
    ensures exists failed: seq<string> :: (
      && At(results[i].request, SummaryPath("total_tools")) == Some(Int(i))
      && At(results[i].request, SummaryPath("successful_tools")) == Some(Int(|Successes(results[..i])|))
      && At(results[i].request, SummaryPath("failed_tools")) == Some(Arr(Strings(failed)))
      && CountsOf(failed, results[..i]))
  {
    var b :| Summarizes(b, results[..i])
      && results[i].request == Sanitize(Obj(SetField(plan.payload, "context_bundle", RenderBundle(b))), lower);
    SummaryKeysAreKept();
    CountFields(b);
    SummaryStays(plan.payload, b, "total_tools", lower, Int(b.total));
    SummaryStays(plan.payload, b, "successful_tools", lower, Int(b.successful));
    SummaryStays(plan.payload, b, "failed_tools", lower, Arr(Strings(b.failed)));
    NamesStay(b.failed, lower);
    SummaryCounts(b, results[..i]);
  }

  /** ... and which sections have a result and which expected ones have none. */
  lemma SnapshotSections(chatType: string, plan: ToolPlan, results: seq<ToolResult>, i: nat, lower: Lower)
    requires i < |results| && KeepsLowerCase(lower)
    requires IsDeferred(chatType, plan) && AnswersPlan(chatType, plan, results, i, lower)
    ensures exists available, missing :: (
      && At(results[i].request, SummaryPath("available_sections")) == Some(Arr(Strings(available)))
      && At(results[i].request, SummaryPath("missing_sections")) == Some(Arr(Strings(missing)))
      && SectionsMatch(available, missing, results[..i]))
  {
    var b :| Summarizes(b, results[..i])
      && results[i].request == Sanitize(Obj(SetField(plan.payload, "context_bundle", RenderBundle(b))), lower);
    SummaryKeysAreKept();
    SectionFields(b);
    SummaryStays(plan.payload, b, "available_sections", lower, Arr(Strings(b.available)));
    SummaryStays(plan.payload, b, "missing_sections", lower, Arr(Strings(b.missing)));
    NamesStay(b.available, lower);
    NamesStay(b.missing, lower);
  }

  lemma EntryStays(payload: seq<Field>, b: Bundle, k: nat, key: string, lower: Lower, v: Json)
    requires k < |b.raw| && KeepsLowerCase(lower) && IsKeptStep(Key(key)) && Child(b.raw[k], Key(key)) == Some(v)
    ensures At(Sanitize(Carrying(payload, b), lower), EntryPath(k, key)) == Some(Sanitize(v, lower))
  {
    BundleStepsAreKept();
    EntryAt(payload, b, k, key);
    KeptPathStays(Carrying(payload, b), EntryPath(k, key), lower, v);
  }

  /** Masking a request that was sanitized before leaves nothing to sanitize. */
  lemma MaskedRequestStays(chatType: string, plan: ToolPlan, results: seq<ToolResult>, k: nat, lower: Lower)
    requires k < |results| && AnswersPlan(chatType, plan, results, k, lower)
    ensures Sanitize(results[k].maskedRequest, lower) == Mask(results[k].request, lower)
  {
    var request := results[k].request;
    if IsDeferred(chatType, plan) {
      var b :| Summarizes(b, results[..k])
        && request == Sanitize(Obj(SetField(plan.payload, "context_bundle", RenderBundle(b))), lower);
      SanitizeIdempotent(Obj(SetField(plan.payload, "context_bundle", RenderBundle(b))), lower);
    } else {
      SanitizeIdempotent(Obj(plan.payload), lower);
    }
    MaskAndSanitizeCommute(request, lower);
  }

  /** Every result before a snapshot is in its request: by name, with the masked request and without
      the answer. */
  lemma SnapshotEntries(chatType: string, schedule: seq<ToolPlan>, results: seq<ToolResult>, i: nat, k: nat,
                        lower: Lower)
    requires KeepsLowerCase(lower) && AnswersSchedule(chatType, schedule, results, lower)
    requires k < i < |results| && IsDeferred(chatType, schedule[i])
    ensures var sent, r := results[i].request, results[k];
      && At(sent, EntryPath(k, "server_name")) == Some(Str(r.id.server))
      && At(sent, EntryPath(k, "tool_name")) == Some(Str(r.id.tool))
      && At(sent, EntryPath(k, "request_payload")) == Some(Mask(r.request, lower))
      && At(sent, EntryPath(k, "response_payload")) == None
  {
    var payload := schedule[i].payload;
    var b :| Summarizes(b, results[..i])
      && results[i].request == Sanitize(Obj(SetField(payload, "context_bundle", RenderBundle(b))), lower);
    var r := results[k];
    assert results[..i][k] == r && b.raw[k] == Compact(r, false);
    CompactShows(r, false);
    EntryKeysAreKept();
    EntryStays(payload, b, k, "server_name", lower, Str(r.id.server));
    EntryStays(payload, b, k, "tool_name", lower, Str(r.id.tool));
    EntryStays(payload, b, k, "request_payload", lower, r.maskedRequest);
    MaskedRequestStays(chatType, schedule[k], results, k, lower);
    EntryAt(payload, b, k, "response_payload");
    SanitizeAtPath(Carrying(payload, b), EntryPath(k, "response_payload"), lower);
  }

  /** Everything else in the planned payload is sent as an ordinary plan would send it. */
  lemma SnapshotKeepsPayload(chatType: string, plan: ToolPlan, results: seq<ToolResult>, i: nat, lower: Lower,
                             path: seq<Step>)
    requires i < |results| && IsDeferred(chatType, plan) && AnswersPlan(chatType, plan, results, i, lower)
    requires path != [] && path[0] != BUNDLE
    ensures At(results[i].request, path) == At(Sanitize(Obj(plan.payload), lower), path)
  {
    var b :| Summarizes(b, results[..i])
      && results[i].request == Sanitize(Obj(SetField(plan.payload, "context_bundle", RenderBundle(b))), lower);
    if path[0].Key? { FindSet(plan.payload, "context_bundle", RenderBundle(b), path[0].key); }
    SanitizeAtPath(Carrying(plan.payload, b), path, lower);
    SanitizeAtPath(Obj(plan.payload), path, lower);
  }
}
