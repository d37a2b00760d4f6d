/** The in-process metrics store: two dictionaries, updated by one call per model request and one per
    chat response.  The counters are shown to account for every call ever recorded. */
module MetricsStore {
  import opened Options
  import opened PrometheusText

  datatype Series = Series(name: string, labels: seq<Label>)

  type Table = map<Series, int>

  const PROMPT_CHARS := "aiops_llm_prompt_chars_last"
  const ESTIMATED_PROMPT_TOKENS := "aiops_llm_estimated_prompt_tokens_last"
  const PROMPT_TOKENS := "aiops_llm_prompt_tokens_last"
  const COMPLETION_TOKENS := "aiops_llm_completion_tokens_last"
  const TOTAL_TOKENS := "aiops_llm_total_tokens_last"
  const LLM_LATENCY_LAST := "aiops_llm_latency_ms_last"
  const LLM_TIMESTAMP := "aiops_llm_request_timestamp_seconds"
  const CHAT_LATENCY_LAST := "aiops_chat_response_latency_ms_last"
  const CHAT_TIMESTAMP := "aiops_chat_response_timestamp_seconds"

  const LLM_LATENCY_SUM := "aiops_llm_latency_ms_sum"
  const LLM_REQUESTS := "aiops_llm_requests_total"
  const LLM_FAILURES := "aiops_llm_failures_total"
  const CHAT_LATENCY_SUM := "aiops_chat_response_latency_ms_sum"
  const CHAT_REQUESTS := "aiops_chat_requests_total"

  const APPROX_CHARS_PER_TOKEN := 4

  lemma CounterNamesDiffer()
    ensures LLM_LATENCY_SUM != LLM_REQUESTS && LLM_LATENCY_SUM != LLM_FAILURES && LLM_REQUESTS != LLM_FAILURES
    ensures CHAT_LATENCY_SUM != CHAT_REQUESTS
    ensures CHAT_LATENCY_SUM != LLM_LATENCY_SUM && CHAT_LATENCY_SUM != LLM_REQUESTS && CHAT_LATENCY_SUM != LLM_FAILURES
    ensures CHAT_REQUESTS != LLM_LATENCY_SUM && CHAT_REQUESTS != LLM_REQUESTS && CHAT_REQUESTS != LLM_FAILURES
  {
    assert LLM_LATENCY_SUM[10] == 'l' && LLM_REQUESTS[10] == 'r' && LLM_FAILURES[10] == 'f';
    assert LLM_LATENCY_SUM[6] == 'l' && LLM_REQUESTS[6] == 'l' && LLM_FAILURES[6] == 'l';
    assert CHAT_LATENCY_SUM[6] == 'c' && CHAT_REQUESTS[6] == 'c';
    assert |CHAT_LATENCY_SUM| != |CHAT_REQUESTS|;
  }

  /** ## One call */

  datatype LlmCall = LlmCall(
    provider: string, model: string, promptKey: string, chatType: string, status: string,
    promptChars: int, promptTokens: Option<int>, completionTokens: Option<int>, totalTokens: Option<int>,
    latencyMs: Option<int>, errorType: Option<string>, now: int)

  datatype ChatCall = ChatCall(
    chatType: string, responseSource: string, status: string, latencyMs: int, capability: Option<string>, now: int)

  datatype Call = Llm(llm: LlmCall) | Chat(chat: ChatCall)

  function OrUnknown(s: string): string { if s == "" then "unknown" else s }

  function OrEmpty(s: Option<string>): string { if s.Some? then s.value else "" }

  function OrZero(n: Option<int>): int { if n.Some? then n.value else 0 }

  /** Rounded up, and never below zero. */
  function EstimateTokenCount(chars: int): (r: int)
    ensures r >= 0 && APPROX_CHARS_PER_TOKEN * r >= chars
    ensures r == 0 || APPROX_CHARS_PER_TOKEN * (r - 1) < chars
  {
    if chars <= 0 then 0 else (chars + APPROX_CHARS_PER_TOKEN - 1) / APPROX_CHARS_PER_TOKEN
  }

  /** Label sets in the order `normalize_labels` leaves them: by key. */
  function LlmLabels(c: LlmCall): seq<Label> {
    [Label("chat_type", OrUnknown(c.chatType)), Label("model", OrUnknown(c.model)),
     Label("prompt_key", OrUnknown(c.promptKey)), Label("provider", OrUnknown(c.provider))]
  }

  function ChatLabels(c: ChatCall): seq<Label> {
    [Label("capability", OrUnknown(OrEmpty(c.capability))), Label("chat_type", OrUnknown(c.chatType)),
     Label("response_source", OrUnknown(c.responseSource))]
  }

  function WithStatus(base: seq<Label>, status: string): seq<Label> {
    base + [Label("status", OrUnknown(status))]
  }

  /** `error_type` sorts between the first label and the others. */
  function WithError(base: seq<Label>, errorType: string): seq<Label>
    requires base != []
  {
    [base[0], Label("error_type", errorType)] + base[1..]
  }

  /** ## What the labels say */

  function ValueOf(labels: seq<Label>, key: string): Option<string> {
    if labels == [] then None
    else if labels[0].key == key then Some(labels[0].value)
    else ValueOf(labels[1..], key)
  }

  lemma {:induction false} ValueAt(labels: seq<Label>, i: nat)
    requires i < |labels| && forall k :: 0 <= k < i ==> labels[k].key != labels[i].key
    ensures ValueOf(labels, labels[i].key) == Some(labels[i].value)
  {
    if i > 0 { ValueAt(labels[1..], i - 1); }
  }

  /** The labels have this text at this key, an empty one as `unknown`. */
  predicate Carries(labels: seq<Label>, key: string, text: string) {
    ValueOf(labels, key) == Some(if text == "" then "unknown" else text)
  }

  predicate CarriesLlm(labels: seq<Label>, c: LlmCall) {
    && Carries(labels, "provider", c.provider) && Carries(labels, "model", c.model)
    && Carries(labels, "prompt_key", c.promptKey) && Carries(labels, "chat_type", c.chatType)
  }

  predicate CarriesChat(labels: seq<Label>, c: ChatCall) {
    && Carries(labels, "chat_type", c.chatType) && Carries(labels, "response_source", c.responseSource)
    && Carries(labels, "capability", if c.capability.Some? then c.capability.value else "")
  }

  lemma LabelKeysDiffer()
    ensures "chat_type" != "model" && "chat_type" != "prompt_key" && "chat_type" != "provider"
    ensures "model" != "prompt_key" && "model" != "provider" && "prompt_key" != "provider"
    ensures "status" != "chat_type" && "status" != "model" && "status" != "prompt_key" && "status" != "provider"
    ensures "error_type" != "chat_type" && "error_type" != "model" && "error_type" != "provider"
  {
  }

  lemma SimilarKeysDiffer()
    ensures "error_type" != "prompt_key" && "capability" != "chat_type" && "chat_type" != "response_source"
    ensures "capability" != "response_source" && "capability" != "status" && "response_source" != "status"
  {
    assert "error_type"[0] == 'e' && "prompt_key"[0] == 'p';
  }

  lemma LlmLabelsSay(c: LlmCall)
    ensures CarriesLlm(LlmLabels(c), c)
  {
    LabelKeysDiffer();
    ValueAt(LlmLabels(c), 0);
    ValueAt(LlmLabels(c), 1);
    ValueAt(LlmLabels(c), 2);
    ValueAt(LlmLabels(c), 3);
  }

  lemma StatusLabelsSay(c: LlmCall)
    ensures var labels := WithStatus(LlmLabels(c), c.status);
      CarriesLlm(labels, c) && Carries(labels, "status", c.status)
  {
    var labels := WithStatus(LlmLabels(c), c.status);
    LabelKeysDiffer();
    ValueAt(labels, 0);
    ValueAt(labels, 1);
    ValueAt(labels, 2);
    ValueAt(labels, 3);
    ValueAt(labels, 4);
  }

  lemma ErrorLabelsSay(c: LlmCall, errorType: string)
    ensures var labels := WithError(LlmLabels(c), errorType);
      CarriesLlm(labels, c) && ValueOf(labels, "error_type") == Some(errorType)
  {
    var labels := WithError(LlmLabels(c), errorType);
    LabelKeysDiffer();
    SimilarKeysDiffer();
    ValueAt(labels, 0);
    ValueAt(labels, 1);
    ValueAt(labels, 2);
    ValueAt(labels, 3);
    ValueAt(labels, 4);
  }

  lemma ChatLabelsSay(c: ChatCall)
    ensures CarriesChat(ChatLabels(c), c)
    ensures CarriesChat(WithStatus(ChatLabels(c), c.status), c)
    ensures Carries(WithStatus(ChatLabels(c), c.status), "status", c.status)
  {
    var labels := WithStatus(ChatLabels(c), c.status);
    LabelKeysDiffer();
    SimilarKeysDiffer();
    ValueAt(ChatLabels(c), 0);
    ValueAt(ChatLabels(c), 1);
    ValueAt(ChatLabels(c), 2);
    ValueAt(labels, 0);
    ValueAt(labels, 1);
    ValueAt(labels, 2);
    ValueAt(labels, 3);
  }

  /** ## Counters as a fold of increments */

  datatype Increment = Increment(series: Series, amount: int)

  function Get(t: Table, s: Series): int { if s in t then t[s] else 0 }

  function Inc(t: Table, i: Increment): Table { t[i.series := Get(t, i.series) + i.amount] }

  function IncAll(t: Table, increments: seq<Increment>): Table
    decreases |increments|
  {
    if increments == [] then t else Inc(IncAll(t, increments[..|increments| - 1]), increments[|increments| - 1])
  }

  function LlmIncrements(c: LlmCall): seq<Increment> {
    var labels := LlmLabels(c);
    [Increment(Series(LLM_LATENCY_SUM, labels), OrZero(c.latencyMs)),
     Increment(Series(LLM_REQUESTS, WithStatus(labels, c.status)), 1)]
    + if OrEmpty(c.errorType) == "" then []
      else [Increment(Series(LLM_FAILURES, WithError(labels, c.errorType.value)), 1)]
  }

  /** What one model request counts: its latency, one request with its status, and one failure with its
      error type exactly if it has one, each under the request's own labels. */
  lemma LlmIncrementsSay(c: LlmCall)
    ensures var all := LlmIncrements(c);
      && (forall i :: 0 <= i < |all| ==> CarriesLlm(all[i].series.labels, c))
      && (exists i :: 0 <= i < |all| && all[i].series.name == LLM_REQUESTS
            && all[i].amount == 1 && Carries(all[i].series.labels, "status", c.status))
      && (exists i :: 0 <= i < |all| && all[i].series.name == LLM_LATENCY_SUM
            && all[i].amount == OrZero(c.latencyMs))
      && (OrEmpty(c.errorType) != "" <==> exists i :: (
            0 <= i < |all| && all[i].series.name == LLM_FAILURES
            && all[i].amount == 1 && ValueOf(all[i].series.labels, "error_type") == c.errorType))
  {
    var all := LlmIncrements(c);
    CounterNamesDiffer();
    LlmLabelsSay(c);
    StatusLabelsSay(c);
    if OrEmpty(c.errorType) != "" { ErrorLabelsSay(c, c.errorType.value); }
    assert all[0].series.name == LLM_LATENCY_SUM && all[1].series.name == LLM_REQUESTS;
    assert OrEmpty(c.errorType) != "" ==> all[2].series.name == LLM_FAILURES;
  }

  function ChatIncrements(c: ChatCall): seq<Increment> {
    [Increment(Series(CHAT_LATENCY_SUM, ChatLabels(c)), c.latencyMs),
     Increment(Series(CHAT_REQUESTS, WithStatus(ChatLabels(c), c.status)), 1)]
  }

  lemma ChatIncrementsSay(c: ChatCall)
    ensures var all := ChatIncrements(c);
      && |all| == 2
      && all[0].series.name == CHAT_LATENCY_SUM && all[0].amount == c.latencyMs
      && all[1].series.name == CHAT_REQUESTS && all[1].amount == 1
      && CarriesChat(all[0].series.labels, c) && CarriesChat(all[1].series.labels, c)
      && Carries(all[1].series.labels, "status", c.status)
  {
    ChatLabelsSay(c);
  }

  function Increments(calls: seq<Call>): seq<Increment>
    decreases |calls|
  {
    if calls == [] then []
    else
      var last := calls[|calls| - 1];
      Increments(calls[..|calls| - 1]) + if last.Llm? then LlmIncrements(last.llm) else ChatIncrements(last.chat)
  }

  /** The counters after a run. */
  function Counters(calls: seq<Call>): Table { IncAll(map[], Increments(calls)) }

  lemma {:induction false} IncAllConcat(t: Table, a: seq<Increment>, b: seq<Increment>)
    ensures IncAll(t, a + b) == IncAll(IncAll(t, a), b)
    decreases |b|
  {
    if b == [] {
      assert a + b == a;
    } else {
      var n := |b| - 1;
      assert (a + b)[..|a| + n] == a + b[..n];
      IncAllConcat(t, a, b[..n]);
    }
  }

  lemma CountersOfAppend(calls: seq<Call>, call: Call)
    ensures Counters(calls + [call]) ==
      IncAll(Counters(calls), if call.Llm? then LlmIncrements(call.llm) else ChatIncrements(call.chat))
  {
    assert (calls + [call])[..|calls|] == calls;
    IncAllConcat(map[], Increments(calls), if call.Llm? then LlmIncrements(call.llm) else ChatIncrements(call.chat));
  }

  /** ## Accounting */

  type Selector = Series -> bool

  function Tally(increments: seq<Increment>, select: Selector): int {
    if increments == [] then 0
    else (if select(increments[0].series) then increments[0].amount else 0) + Tally(increments[1..], select)
  }

  lemma {:induction false} TallyConcat(a: seq<Increment>, b: seq<Increment>, select: Selector)
    ensures Tally(a + b, select) == Tally(a, select) + Tally(b, select)
  {
    if a == [] {
      assert a + b == b;
    } else {
      assert (a + b)[1..] == a[1..] + b;
      TallyConcat(a[1..], b, select);
    }
  }

  function SumOver(t: Table, keys: seq<Series>): int {
    if keys == [] then 0 else Get(t, keys[0]) + SumOver(t, keys[1..])
  }

  predicate Distinct(keys: seq<Series>) { forall i, j :: 0 <= i < j < |keys| ==> keys[i] != keys[j] }

  lemma {:induction false} SumAfterInc(t: Table, i: Increment, keys: seq<Series>)
    requires Distinct(keys)
    ensures SumOver(Inc(t, i), keys) == SumOver(t, keys) + if i.series in keys then i.amount else 0
  {
    if keys != [] {
      assert keys == [keys[0]] + keys[1..];
      SumAfterInc(t, i, keys[1..]);
      assert forall k :: 0 <= k < |keys[1..]| ==> keys[1..][k] == keys[k + 1];
    }
  }

  lemma {:induction false} SumOfEmpty(keys: seq<Series>)
    ensures SumOver(map[], keys) == 0
  {
    if keys != [] { SumOfEmpty(keys[1..]); }
  }

  predicate Agree(keys: seq<Series>, select: Selector, increments: seq<Increment>) {
    forall i :: 0 <= i < |increments| ==> (increments[i].series in keys <==> select(increments[i].series))
  }

  lemma {:induction false} SumIsTally(increments: seq<Increment>, keys: seq<Series>, select: Selector)
    requires Distinct(keys) && Agree(keys, select, increments)
    ensures SumOver(IncAll(map[], increments), keys) == Tally(increments, select)
    decreases |increments|
  {
    if increments == [] {
      SumOfEmpty(keys);
    } else {
      var n := |increments| - 1;
      var init, last := increments[..n], increments[n];
      assert increments == init + [last] && [last][1..] == [];
      SumIsTally(init, keys, select);
      SumAfterInc(IncAll(map[], init), last, keys);
      TallyConcat(init, [last], select);
    }
  }

  lemma {:induction false} StoredIncrements(increments: seq<Increment>)
    ensures forall i :: 0 <= i < |increments| ==> increments[i].series in IncAll(map[], increments)
    decreases |increments|
  {
    if increments != [] {
      var n := |increments| - 1;
      StoredIncrements(increments[..n]);
      assert forall i :: 0 <= i < n ==> increments[..n][i] == increments[i];
    }
  }

  /** `keys` are the selected series in the table, each once. */
  ghost predicate Lists(keys: seq<Series>, t: Table, select: Selector) {
    Distinct(keys) && forall s :: s in keys <==> s in t && select(s)
  }

  /** Every table has such a listing. */
  lemma {:induction false} ListingExists(t: Table, select: Selector) returns (keys: seq<Series>)
    ensures Lists(keys, t, select)
    decreases |t|
  {
    if t == map[] { return []; }
    var s :| s in t;
    var rest := t - {s};
    assert rest.Keys == t.Keys - {s};
    assert t.Keys == rest.Keys + {s};
    keys := ListingExists(rest, select);
    if select(s) {
      assert forall k :: k in keys + [s] <==> k in keys || k == s;
      keys := keys + [s];
    }
  }

  /** Summing a table over the stored series a selector picks counts every increment it picks. */
  lemma TableAccountsForRun(calls: seq<Call>, keys: seq<Series>, select: Selector)
    requires Lists(keys, Counters(calls), select)
    ensures SumOver(Counters(calls), keys) == Tally(Increments(calls), select)
  {
    StoredIncrements(Increments(calls));
    SumIsTally(Increments(calls), keys, select);
  }

  /** The series of `name` for these base labels, whatever the status. */
  predicate IsPerStatus(s: Series, name: string, base: seq<Label>) {
    && s.name == name
    && |s.labels| == |base| + 1
    && s.labels[..|base|] == base
    && s.labels[|base|].key == "status"
  }

  predicate IsPerError(s: Series, base: seq<Label>) {
    && s.name == LLM_FAILURES
    && |s.labels| == |base| + 1
    && |base| >= 1
    && s.labels[0] == base[0] && s.labels[1].key == "error_type" && s.labels[2..] == base[1..]
  }

  function LlmRequests(base: seq<Label>): Selector { (s: Series) => IsPerStatus(s, LLM_REQUESTS, base) }
  function ChatRequests(base: seq<Label>): Selector { (s: Series) => IsPerStatus(s, CHAT_REQUESTS, base) }
  function LlmFailures(base: seq<Label>): Selector { (s: Series) => IsPerError(s, base) }
  function Exactly(series: Series): Selector { (s: Series) => s == series }

  function CallCount(calls: seq<Call>, pick: Call -> bool): nat
    decreases |calls|
  {
    if calls == [] then 0
    else CallCount(calls[..|calls| - 1], pick) + if pick(calls[|calls| - 1]) then 1 else 0
  }

  function LatencyTotal(calls: seq<Call>, pick: Call -> bool): int
    decreases |calls|
  {
    if calls == [] then 0
    else
      var last := calls[|calls| - 1];
      LatencyTotal(calls[..|calls| - 1], pick) + if !pick(last) then 0 else Latency(last)
  }

  function Latency(c: Call): int { match c case Llm(l) => OrZero(l.latencyMs) case Chat(r) => r.latencyMs }

  function IsLlm(base: seq<Label>): Call -> bool { (c: Call) => c.Llm? && LlmLabels(c.llm) == base }
  function IsChat(base: seq<Label>): Call -> bool { (c: Call) => c.Chat? && ChatLabels(c.chat) == base }
  function IsFailedLlm(base: seq<Label>): Call -> bool {
    (c: Call) => c.Llm? && LlmLabels(c.llm) == base && OrEmpty(c.llm.errorType) != ""
  }

  lemma TallyOfTwo(a: Increment, b: Increment, select: Selector)
    ensures Tally([a, b], select) ==
      (if select(a.series) then a.amount else 0) + (if select(b.series) then b.amount else 0)
  {
    assert [a, b][1..] == [b] && [b][1..] == [];
    assert Tally([b], select) == (if select(b.series) then b.amount else 0);
  }

  lemma TallyOfLlm(c: LlmCall, select: Selector)
    ensures var labels := LlmLabels(c);
      Tally(LlmIncrements(c), select) ==
      (if select(Series(LLM_LATENCY_SUM, labels)) then OrZero(c.latencyMs) else 0)
      + (if select(Series(LLM_REQUESTS, WithStatus(labels, c.status))) then 1 else 0)
      + (if OrEmpty(c.errorType) != "" && select(Series(LLM_FAILURES, WithError(labels, c.errorType.value)))
         then 1 else 0)
  {
    var incs := LlmIncrements(c);
    assert incs == [incs[0], incs[1]] + incs[2..];
    TallyConcat([incs[0], incs[1]], incs[2..], select);
    TallyOfTwo(incs[0], incs[1], select);
    assert incs[2..] == [] || (incs[2..] == [incs[2]] && incs[2..][1..] == []);
  }

  lemma TallyOfChat(c: ChatCall, select: Selector)
    ensures Tally(ChatIncrements(c), select) ==
      (if select(Series(CHAT_LATENCY_SUM, ChatLabels(c))) then c.latencyMs else 0)
      + (if select(Series(CHAT_REQUESTS, WithStatus(ChatLabels(c), c.status))) then 1 else 0)
  {
    var incs := ChatIncrements(c);
    assert incs == [incs[0], incs[1]];
    TallyOfTwo(incs[0], incs[1], select);
  }

  lemma StatusSeries(labels: seq<Label>, status: string, name: string, base: seq<Label>, wanted: string)
    ensures IsPerStatus(Series(name, WithStatus(labels, status)), wanted, base) <==> name == wanted && labels == base
  {
    assert WithStatus(labels, status)[..|labels|] == labels;
  }

  lemma ErrorSeries(labels: seq<Label>, errorType: string, base: seq<Label>)
    requires labels != []
    ensures IsPerError(Series(LLM_FAILURES, WithError(labels, errorType)), base) <==> labels == base
  {
    var s := WithError(labels, errorType);
    assert s[2..] == labels[1..];
    if base != [] && labels[0] == base[0] && labels[1..] == base[1..] {
      assert labels == [labels[0]] + labels[1..] && base == [base[0]] + base[1..];
    }
  }

  lemma {:induction false} LlmRequestTally(calls: seq<Call>, base: seq<Label>)
    ensures Tally(Increments(calls), LlmRequests(base)) == CallCount(calls, IsLlm(base))
    decreases |calls|
  {
    if calls != [] {
      var init, last := calls[..|calls| - 1], calls[|calls| - 1];
      LlmRequestTally(init, base);
      CounterNamesDiffer();
      match last
      case Llm(c) =>
        TallyConcat(Increments(init), LlmIncrements(c), LlmRequests(base));
        TallyOfLlm(c, LlmRequests(base));
        StatusSeries(LlmLabels(c), c.status, LLM_REQUESTS, base, LLM_REQUESTS);
      case Chat(c) =>
        TallyConcat(Increments(init), ChatIncrements(c), LlmRequests(base));
        TallyOfChat(c, LlmRequests(base));
    }
  }

  lemma {:induction false} LlmFailureTally(calls: seq<Call>, base: seq<Label>)
    ensures Tally(Increments(calls), LlmFailures(base)) == CallCount(calls, IsFailedLlm(base))
    decreases |calls|
  {
    if calls != [] {
      var init, last := calls[..|calls| - 1], calls[|calls| - 1];
      LlmFailureTally(init, base);
      CounterNamesDiffer();
      match last
      case Llm(c) =>
        TallyConcat(Increments(init), LlmIncrements(c), LlmFailures(base));
        TallyOfLlm(c, LlmFailures(base));
        ErrorSeries(LlmLabels(c), OrEmpty(c.errorType), base);
      case Chat(c) =>
        TallyConcat(Increments(init), ChatIncrements(c), LlmFailures(base));
        TallyOfChat(c, LlmFailures(base));
    }
  }

  lemma {:induction false} LlmLatencyTally(calls: seq<Call>, base: seq<Label>)
    ensures Tally(Increments(calls), Exactly(Series(LLM_LATENCY_SUM, base))) == LatencyTotal(calls, IsLlm(base))
    decreases |calls|
  {
    if calls != [] {
      var init, last := calls[..|calls| - 1], calls[|calls| - 1];
      var select := Exactly(Series(LLM_LATENCY_SUM, base));
      LlmLatencyTally(init, base);
      CounterNamesDiffer();
      match last
      case Llm(c) =>
        TallyConcat(Increments(init), LlmIncrements(c), select);
        TallyOfLlm(c, select);
      case Chat(c) =>
        TallyConcat(Increments(init), ChatIncrements(c), select);
        TallyOfChat(c, select);
    }
  }

  lemma {:induction false} ChatRequestTally(calls: seq<Call>, base: seq<Label>)
    ensures Tally(Increments(calls), ChatRequests(base)) == CallCount(calls, IsChat(base))
    decreases |calls|
  {
    if calls != [] {
      var init, last := calls[..|calls| - 1], calls[|calls| - 1];
      ChatRequestTally(init, base);
      CounterNamesDiffer();
      match last
      case Llm(c) =>
        TallyConcat(Increments(init), LlmIncrements(c), ChatRequests(base));
        TallyOfLlm(c, ChatRequests(base));
      case Chat(c) =>
        TallyConcat(Increments(init), ChatIncrements(c), ChatRequests(base));
        TallyOfChat(c, ChatRequests(base));
        StatusSeries(ChatLabels(c), c.status, CHAT_REQUESTS, base, CHAT_REQUESTS);
    }
  }

  lemma {:induction false} ChatLatencyTally(calls: seq<Call>, base: seq<Label>)
    ensures Tally(Increments(calls), Exactly(Series(CHAT_LATENCY_SUM, base))) == LatencyTotal(calls, IsChat(base))
    decreases |calls|
  {
    if calls != [] {
      var init, last := calls[..|calls| - 1], calls[|calls| - 1];
      var select := Exactly(Series(CHAT_LATENCY_SUM, base));
      ChatLatencyTally(init, base);
      CounterNamesDiffer();
      match last
      case Llm(c) =>
        TallyConcat(Increments(init), LlmIncrements(c), select);
        TallyOfLlm(c, select);
      case Chat(c) =>
        TallyConcat(Increments(init), ChatIncrements(c), select);
        TallyOfChat(c, select);
    }
  }

  /** After any run, the request counters of one label set, summed over every status stored, count its
      calls; the failure counters, summed over every error type, count its failed calls. */
  lemma LlmCountersAccountForRun(calls: seq<Call>, base: seq<Label>, requests: seq<Series>, failures: seq<Series>)
    requires Lists(requests, Counters(calls), LlmRequests(base))
    requires Lists(failures, Counters(calls), LlmFailures(base))
    ensures SumOver(Counters(calls), requests) == CallCount(calls, IsLlm(base))
    ensures SumOver(Counters(calls), failures) == CallCount(calls, IsFailedLlm(base))
    ensures SumOver(Counters(calls), failures) <= SumOver(Counters(calls), requests)
  {
    TableAccountsForRun(calls, requests, LlmRequests(base));
    TableAccountsForRun(calls, failures, LlmFailures(base));
    LlmRequestTally(calls, base);
    LlmFailureTally(calls, base);
    FailedAreCalls(calls, base);
  }

  lemma {:induction false} FailedAreCalls(calls: seq<Call>, base: seq<Label>)
    ensures CallCount(calls, IsFailedLlm(base)) <= CallCount(calls, IsLlm(base))
    decreases |calls|
  {
    if calls != [] { FailedAreCalls(calls[..|calls| - 1], base); }
  }

  lemma ChatCountersAccountForRun(calls: seq<Call>, base: seq<Label>, requests: seq<Series>)
    requires Lists(requests, Counters(calls), ChatRequests(base))
    ensures SumOver(Counters(calls), requests) == CallCount(calls, IsChat(base))
  {
    TableAccountsForRun(calls, requests, ChatRequests(base));
    ChatRequestTally(calls, base);
  }

  /** The latency counters hold the sum of the latencies of the calls with their labels. */
  lemma LatencySumsAreExact(calls: seq<Call>, base: seq<Label>)
    ensures Get(Counters(calls), Series(LLM_LATENCY_SUM, base)) == LatencyTotal(calls, IsLlm(base))
    ensures Get(Counters(calls), Series(CHAT_LATENCY_SUM, base)) == LatencyTotal(calls, IsChat(base))
  {
    GetIsTally(calls, Series(LLM_LATENCY_SUM, base));
    GetIsTally(calls, Series(CHAT_LATENCY_SUM, base));
    LlmLatencyTally(calls, base);
    ChatLatencyTally(calls, base);
  }

  lemma GetIsTally(calls: seq<Call>, series: Series)
    ensures Get(Counters(calls), series) == Tally(Increments(calls), Exactly(series))
  {
    var keys := [series];
    assert keys[1..] == [];
    SumIsTally(Increments(calls), keys, Exactly(series));
  }

  /** ## The store */

  function LlmGauges(t: Table, c: LlmCall): Table {
    var labels := LlmLabels(c);
    t[Series(PROMPT_CHARS, labels) := c.promptChars]
     [Series(ESTIMATED_PROMPT_TOKENS, labels) := EstimateTokenCount(c.promptChars)]
     [Series(PROMPT_TOKENS, labels) := OrZero(c.promptTokens)]
     [Series(COMPLETION_TOKENS, labels) := OrZero(c.completionTokens)]
     [Series(TOTAL_TOKENS, labels) := OrZero(c.totalTokens)]
     [Series(LLM_LATENCY_LAST, labels) := OrZero(c.latencyMs)]
     [Series(LLM_TIMESTAMP, labels) := c.now]
  }

  function ChatGauges(t: Table, c: ChatCall): Table {
    t[Series(CHAT_LATENCY_LAST, ChatLabels(c)) := c.latencyMs][Series(CHAT_TIMESTAMP, ChatLabels(c)) := c.now]
  }

  function Gauges(calls: seq<Call>): Table
    decreases |calls|
  {
    if calls == [] then map[]
    else
      var last, before := calls[|calls| - 1], Gauges(calls[..|calls| - 1]);
      if last.Llm? then LlmGauges(before, last.llm) else ChatGauges(before, last.chat)
  }

  /** The last call with these base labels. */
  function LastLlm(calls: seq<Call>, base: seq<Label>): Option<LlmCall>
    decreases |calls|
  {
    if calls == [] then None
    else
      var last := calls[|calls| - 1];
      if last.Llm? && LlmLabels(last.llm) == base then Some(last.llm) else LastLlm(calls[..|calls| - 1], base)
  }

  function LastChat(calls: seq<Call>, base: seq<Label>): Option<ChatCall>
    decreases |calls|
  {
    if calls == [] then None
    else
      var last := calls[|calls| - 1];
      if last.Chat? && ChatLabels(last.chat) == base then Some(last.chat) else LastChat(calls[..|calls| - 1], base)
  }

  predicate Shows(t: Table, name: string, base: seq<Label>, value: Option<int>) {
    var s := Series(name, base);
    if value.None? then s !in t else s in t && t[s] == value.value
  }

  function OfLast<T>(last: Option<T>, field: T -> int): Option<int> {
    if last.None? then None else Some(field(last.value))
  }

  predicate ShowsLlm(t: Table, base: seq<Label>, last: Option<LlmCall>) {
    && Shows(t, PROMPT_CHARS, base, OfLast(last, (c: LlmCall) => c.promptChars))
    && Shows(t, ESTIMATED_PROMPT_TOKENS, base, OfLast(last, (c: LlmCall) => EstimateTokenCount(c.promptChars)))
    && Shows(t, PROMPT_TOKENS, base, OfLast(last, (c: LlmCall) => OrZero(c.promptTokens)))
    && Shows(t, COMPLETION_TOKENS, base, OfLast(last, (c: LlmCall) => OrZero(c.completionTokens)))
    && Shows(t, TOTAL_TOKENS, base, OfLast(last, (c: LlmCall) => OrZero(c.totalTokens)))
    && Shows(t, LLM_LATENCY_LAST, base, OfLast(last, (c: LlmCall) => OrZero(c.latencyMs)))
    && Shows(t, LLM_TIMESTAMP, base, OfLast(last, (c: LlmCall) => c.now))
  }

  predicate ShowsChat(t: Table, base: seq<Label>, last: Option<ChatCall>) {
    && Shows(t, CHAT_LATENCY_LAST, base, OfLast(last, (c: ChatCall) => c.latencyMs))
    && Shows(t, CHAT_TIMESTAMP, base, OfLast(last, (c: ChatCall) => c.now))
  }

  /** Names of one length are told apart by one character. */
  lemma GaugeNamesDiffer()
    ensures PROMPT_CHARS != TOTAL_TOKENS && LLM_TIMESTAMP != CHAT_LATENCY_LAST
    ensures ESTIMATED_PROMPT_TOKENS != CHAT_TIMESTAMP
    ensures |PROMPT_CHARS| == |TOTAL_TOKENS| == 27 && |LLM_TIMESTAMP| == |CHAT_LATENCY_LAST| == 35
    ensures |ESTIMATED_PROMPT_TOKENS| == 38 && |CHAT_TIMESTAMP| == 37
    ensures |PROMPT_TOKENS| == 28 && |COMPLETION_TOKENS| == 32 && |LLM_LATENCY_LAST| == 25
  {
    assert PROMPT_CHARS[10] == 'p' && TOTAL_TOKENS[10] == 't';
    assert LLM_TIMESTAMP[6] == 'l' && CHAT_LATENCY_LAST[6] == 'c';
  }

  lemma LlmGaugesShow(t: Table, c: LlmCall, base: seq<Label>, last: Option<LlmCall>)
    requires ShowsLlm(t, base, last)
    ensures ShowsLlm(LlmGauges(t, c), base, if LlmLabels(c) == base then Some(c) else last)
  {
    GaugeNamesDiffer();
  }

  lemma ChatGaugesLeave(t: Table, c: ChatCall, base: seq<Label>, last: Option<LlmCall>)
    requires ShowsLlm(t, base, last)
    ensures ShowsLlm(ChatGauges(t, c), base, last)
  {
    GaugeNamesDiffer();
  }

  lemma ChatGaugesShow(t: Table, c: ChatCall, base: seq<Label>, last: Option<ChatCall>)
    requires ShowsChat(t, base, last)
    ensures ShowsChat(ChatGauges(t, c), base, if ChatLabels(c) == base then Some(c) else last)
  {
    GaugeNamesDiffer();
  }

  lemma LlmGaugesLeave(t: Table, c: LlmCall, base: seq<Label>, last: Option<ChatCall>)
    requires ShowsChat(t, base, last)
    ensures ShowsChat(LlmGauges(t, c), base, last)
  {
    GaugeNamesDiffer();
  }

  /** Every gauge shows the last call with its labels, and is absent if there was none. */
  lemma {:induction false} GaugesShowLastCall(calls: seq<Call>, base: seq<Label>)
    ensures ShowsLlm(Gauges(calls), base, LastLlm(calls, base))
    ensures ShowsChat(Gauges(calls), base, LastChat(calls, base))
    decreases |calls|
  {
    if calls != [] {
      var before, last := calls[..|calls| - 1], calls[|calls| - 1];
      GaugesShowLastCall(before, base);
      match last
      case Llm(c) =>
        LlmGaugesShow(Gauges(before), c, base, LastLlm(before, base));
        LlmGaugesLeave(Gauges(before), c, base, LastChat(before, base));
      case Chat(c) =>
        ChatGaugesLeave(Gauges(before), c, base, LastLlm(before, base));
        ChatGaugesShow(Gauges(before), c, base, LastChat(before, base));
    }
  }

  class Store {
    var gauges: Table
    var counters: Table
    ghost var calls: seq<Call>

    /** The tables are a function of the calls recorded since the last reset. */
    ghost predicate Valid() reads this {
      gauges == Gauges(calls) && counters == Counters(calls)
    }

    constructor ()
      ensures Valid() && calls == []
    {
      gauges, counters, calls := map[], map[], [];
    }

    method SetGauge(name: string, labels: seq<Label>, value: int)
      modifies this`gauges
      ensures gauges == old(gauges)[Series(name, labels) := value]
    {
      gauges := gauges[Series(name, labels) := value];
    }

    method IncCounter(name: string, labels: seq<Label>, amount: int)
      modifies this`counters
      ensures counters == Inc(old(counters), Increment(Series(name, labels), amount))
    {
      var key := Series(name, labels);
      var current := if key in counters then counters[key] else 0;
      counters := counters[key := current + amount];
    }

    method SetLlmGauges(c: LlmCall)
      modifies this`gauges
      ensures gauges == LlmGauges(old(gauges), c)
    {
      var labels := LlmLabels(c);
      SetGauge(PROMPT_CHARS, labels, c.promptChars);
      SetGauge(ESTIMATED_PROMPT_TOKENS, labels, EstimateTokenCount(c.promptChars));
      SetGauge(PROMPT_TOKENS, labels, OrZero(c.promptTokens));
      SetGauge(COMPLETION_TOKENS, labels, OrZero(c.completionTokens));
      SetGauge(TOTAL_TOKENS, labels, OrZero(c.totalTokens));
      SetGauge(LLM_LATENCY_LAST, labels, OrZero(c.latencyMs));
      SetGauge(LLM_TIMESTAMP, labels, c.now);
    }

    method IncLlmCounters(c: LlmCall)
      modifies this`counters
      ensures counters == IncAll(old(counters), LlmIncrements(c))
    {
      var labels := LlmLabels(c);
      ghost var was, incs := counters, LlmIncrements(c);
      IncCounter(LLM_LATENCY_SUM, labels, OrZero(c.latencyMs));
      IncCounter(LLM_REQUESTS, WithStatus(labels, c.status), 1);
      IncPair(was, incs[0], incs[1]);
      assert incs[..2] == [incs[0], incs[1]];
      if OrEmpty(c.errorType) != "" {
        IncCounter(LLM_FAILURES, WithError(labels, c.errorType.value), 1);
        assert incs[..|incs| - 1] == incs[..2];
      } else {
        assert incs == incs[..2];
      }
    }

    method RecordLlmRequestMetrics(c: LlmCall)
      requires Valid()
      modifies this
      ensures Valid() && calls == old(calls) + [Llm(c)]
    {
      CountersOfAppend(calls, Llm(c));
      assert (calls + [Llm(c)])[..|calls|] == calls;
      SetLlmGauges(c);
      IncLlmCounters(c);
      calls := calls + [Llm(c)];
    }

    method RecordChatResponseMetrics(c: ChatCall)
      requires Valid()
      modifies this
      ensures Valid() && calls == old(calls) + [Chat(c)]
    {
      var labels := ChatLabels(c);
      ghost var incs := ChatIncrements(c);
      CountersOfAppend(calls, Chat(c));
      assert (calls + [Chat(c)])[..|calls|] == calls;
      IncPair(counters, incs[0], incs[1]);
      assert incs == [incs[0], incs[1]];
      SetGauge(CHAT_LATENCY_LAST, labels, c.latencyMs);
      SetGauge(CHAT_TIMESTAMP, labels, c.now);
      IncCounter(CHAT_LATENCY_SUM, labels, c.latencyMs);
      IncCounter(CHAT_REQUESTS, WithStatus(labels, c.status), 1);
      calls := calls + [Chat(c)];
    }

    method Reset()
      modifies this
      ensures Valid() && calls == []
    {
      gauges, counters, calls := map[], map[], [];
    }
  }

  lemma IncPair(t: Table, a: Increment, b: Increment)
    ensures IncAll(t, [a, b]) == Inc(Inc(t, a), b)
  {
    assert [a, b][..1] == [a] && [a][..0] == [];
    assert IncAll(t, [a]) == Inc(t, a);
  }
}
