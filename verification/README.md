# AIOps platform: verified model

A Dafny model of the platform's stateful cores and of the text formats they depend on, with proofs of
what they promise. Each module follows one part of the program:

- `RcaProtocol`, `RcaInvariants`, `RcaEvidence`, `RcaService`: alert webhooks queue root-cause jobs, any number of
  runners list, claim and run them. The protocol is a transition system whose steps interleave freely
  and may stop at any point; the invariants hold over every run. `RcaService` is the store as a class
  whose methods run those steps; each method takes how its outside calls end as a parameter.
- `Outbox`, `NotificationDelivery`: notification rows under an idempotency key, with sends, stored
  updates, lost updates and crashes as separate steps, and the delivery loop as a class on those rows.
- `Json`, `JsonReader`, `CanonicalJson`, `ToolCache`, `Redaction`, `Dispatcher`: the tool dispatcher
  with its response cache. The cache key is a canonical JSON printing, proved injective through a
  parser. Response documents are heap objects, so that copying matters.
- `Orchestrator`, `Snapshot`: two-phase execution of a plan, the context bundle handed to snapshots, and what
  their requests say.
- `Compaction`, `CompactionBound`: trimming JSON payloads for a model prompt, with the real size bound and
  when it is attained.
- `RootCauseRanking`, `StableSort`: grouping findings into candidates and ranking them; the sort serves every module.
- `IndexAllowlist`, `ImageReference`, `Text`, `Options`: glob containment, the image-reference parser, and
  what all modules share.
- `BundleSelection`: the greedy budget filter, proved optimal by an exchange argument.
- `PrometheusText`, `MetricsStore`, `MetricsRendering`, `MetricsPage`: label escaping and reading, counters
  over every run of calls, the grouping of the rendered lines, and the page text and its reader.
- `PublicIds`: public identifiers and the checkout pair that uses them.

Conventions. Times are integers in the job protocol and exact reals in the cache. Clock readings,
outcomes of outside calls, lower-casing, the hash, the glob compiler and the help texts are parameters; a
predicate states what is known of the last four. Where the code and a natural reading of it differ, the model
follows the code:

- FAILED does not mean that no report exists (`RcaInvariants.FailedCanHaveReport`); an alert without
  `startsAt` may be analysed before its window ends, and exactly which (`RcaEvidence.EarlyStartIff`).
- The compaction budget is not met in the excerpt branch (`Compaction.CompactionSize`).
- The cache reads its clock before it takes the lock (`ToolCache.CacheAgreesIff`).
- A `?` in an allowlist entry can admit requests that reach outside the allowlist, and exactly when
  (`IndexAllowlist.SoundIff`).

## Model

| member | source | states |
|---|---|---|
| RcaInvariants.BodyStartsAtMostOnce | src/aiops_platform/infra_rca/service.py:190-216 | over every interleaving of webhooks and runners, with stale listings, no job body starts twice, and a job has left QUEUED exactly when its body was started |
| RcaInvariants.OutcomesMatchReports | src/aiops_platform/infra_rca/service.py:217-314 | in every reachable state SUCCEEDED implies a report for the job's incident and snapshot, a report implies the job is no longer QUEUED, and a FAILED job has a report exactly when its body raised after writing it |
| RcaInvariants.OneSnapshotAndReportPerJob | src/aiops_platform/infra_rca/service.py:217-314 | at most one snapshot per job and one report per snapshot, however many runners run |
| RcaInvariants.StartsAfterEvidenceWindow | src/aiops_platform/infra_rca/service.py:544-560 | when the alert carried `startsAt`, a body starts only for a due time at or after the end of its evidence window, and its snapshot ends exactly there |
| RcaInvariants.MissingStartWindow | src/aiops_platform/infra_rca/service.py:903-910 | without `startsAt` the stored window ends by the scheduled time if and only if the clock did not move between the separate readings |
| RcaInvariants.MissingStartCanStartEarly | src/aiops_platform/infra_rca/service.py:903-910 | a reachable run in which a job without `startsAt` starts before the end of the window its snapshot covers |
| RcaEvidence.NoGapNoEarlyStart | src/aiops_platform/infra_rca/service.py:544-560 | for every start and every snapshot of its job: if the schedule reaches the stored start plus the window, the body started only once the window had ended |
| RcaEvidence.QueuedCanStartWhenDue | src/aiops_platform/infra_rca/service.py:190-216 | from every state with a job queued, a run starts it for exactly its scheduled time, the jobs due earlier being claimed one by one |
| RcaEvidence.EarlyStartIff | src/aiops_platform/infra_rca/service.py:148-163 | in every reachable state, a queued job can still be started before its window ends if and only if its schedule falls short of its stored start plus the window |
| RcaEvidence.AnalyzedIncidentHasReport | src/aiops_platform/infra_rca/service.py:263-273 | in every reachable state an incident that shows ANALYZED has a report |
| RcaEvidence.JobHasIncident | src/aiops_platform/infra_rca/service.py:88-165 | in every reachable state the incident of every job has a row, so the statuses a body writes are stored |
| RcaInvariants.FailedCanHaveReport | src/aiops_platform/infra_rca/service.py:274-309 | a reachable run that ends FAILED with its report stored: the notification raised after SUCCEEDED and the except clause overwrote it |
| RcaInvariants.OneJobPerAlert | src/aiops_platform/infra_rca/service.py:113-165 | each (incident, fingerprint) pair has one job if the webhook that inserted its alert row was FIRING and its handler has completed, and none otherwise: not if that webhook was RESOLVED, nor while its handler is under way or dead, and never a second one |
| RcaInvariants.IncidentKeepsFirstStart | src/aiops_platform/infra_rca/repository.py:219 | an incident's stored start is always the first non-null one received for it |
| RcaInvariants.StepKeepsInv | src/aiops_platform/infra_rca/service.py:88-314 | every single step of a webhook handler or runner, deaths included, keeps the whole invariant |
| RcaInvariants.RunKeepsInv | src/aiops_platform/infra_rca/service.py:88-314 | ... and so does every run |
| RcaService.RcaStore.UpsertIncident | src/aiops_platform/infra_rca/repository.py:161-223 | insert, or overwrite all but the first known start |
| RcaService.RcaStore.UpsertIncidentAlert | src/aiops_platform/infra_rca/repository.py:260-341 | insert-or-update of the alert row; the flag says whether the row was there before |
| RcaService.RcaStore.NextDue | src/aiops_platform/infra_rca/repository.py:718-735 | finds the first due job not yet listed in (scheduled_at, created_at) order, or none when all are listed |
| RcaService.RcaStore.ListDueRcaJobs | src/aiops_platform/infra_rca/repository.py:718-754 | returns due QUEUED jobs only, once each, in (scheduled_at, created_at) order, all of them unless the limit cuts off later ones |
| RcaService.ListedOnce | src/aiops_platform/infra_rca/repository.py:718-754 | a listing names only due jobs, each once |
| RcaService.RcaStore.MarkRcaJobRunning | src/aiops_platform/infra_rca/repository.py:756-772 | claims exactly a QUEUED job and reports whether it did |
| RcaService.RcaStore.HandleAlertmanagerWebhook | src/aiops_platform/infra_rca/service.py:88-188 | a job is created exactly for a FIRING webhook whose alert row is new, for the webhook's own pair, start and schedule; incident and alert row show the webhook's status and end, every other row stays; a run of the protocol's handler steps |
| RcaService.RcaStore.RunScheduledRcaJob | src/aiops_platform/infra_rca/service.py:209-314 | for each place the body can raise or end, and for a raise of the except clause's own status write: the job's final status, the incident's (ANALYZED, INVESTIGATING or untouched), whether a snapshot and a report were written, whether the exception escapes, that no other job or incident changes, and that the state is a run of the protocol |
| RcaService.RcaStore.RunBody | src/aiops_platform/infra_rca/service.py:217-303 | the try block: which rows exist and which status job and incident show when it returns or raises, for each raise |
| RcaService.RcaStore.FinishRejected | src/aiops_platform/infra_rca/service.py:233-262 | the branch for a model run without success, with a raise of either status update or of the notification: what job and incident show |
| RcaService.RcaStore.FinishAfterRaise | src/aiops_platform/infra_rca/service.py:304-309 | the except clause stores FAILED over whatever status stands |
| RcaService.RcaStore.ProcessOne | src/aiops_platform/infra_rca/service.py:203-206 | claims the next listed job and runs its body, or changes nothing if the claim is lost |
| RcaService.RcaStore.RunListed | src/aiops_platform/infra_rca/service.py:202-206 | over a listing however stale, exactly the jobs still QUEUED are run, each once and in listing order, and the others are skipped, up to the first whose exception escapes |
| RcaService.RcaStore.RunDueRcaJobs | src/aiops_platform/infra_rca/service.py:190-207 | with nobody else moving, runs one clamped due listing in order, all of it unless an exception escapes, and leaves every other job as it was |
| Outbox.OutboxConservation | src/aiops_platform/infra_rca/service.py:367-427 | over every run, overlapping or not: one row per key, sends = stored SENT + lost SENT updates + sends in flight, and `retry_count` = stored FAILED updates |
| Outbox.SequentialOutboxBound | src/aiops_platform/infra_rca/service.py:367-427 | with sequential deliveries per key, successful sends number at most 1 + lost SENT updates |
| Outbox.SentIsFinal | src/aiops_platform/infra_rca/service.py:395-398 | with sequential deliveries a stored SENT is never left |
| Outbox.OverlapSendsTwice | src/aiops_platform/infra_rca/service.py:367-427 | two overlapping deliveries of one key can send twice with nothing lost |
| Outbox.OverlapUnsends | src/aiops_platform/infra_rca/service.py:367-427 | ... and can turn a stored SENT back into FAILED, so the sequential condition is needed |
| Outbox.IdempotencyKeyIsExact | src/aiops_platform/infra_rca/service.py:367 | two notifications share a key if and only if id, stage and recipient agree (ids and stages hold no colon) |
| Outbox.SlackKeyMeetsEmailKey | src/aiops_platform/infra_rca/service.py:456 | an e-mail key equals a Slack key if and only if the e-mail recipient is `slack:` followed by the Slack one |
| Outbox.Find | src/aiops_platform/llmops/repository.py:486-488 | the row that carries a key, or none when no row does |
| NotificationDelivery.NotificationOutbox.CreateNotification | src/aiops_platform/llmops/repository.py:450-517 | inserts a PENDING row, or returns the row that carries the key with its status untouched |
| NotificationDelivery.NotificationOutbox.UpdateNotificationStatus | src/aiops_platform/llmops/repository.py:555-600 | stores the status and adds one to the retry count exactly for FAILED; an id that names no row changes nothing and is reported |
| NotificationDelivery.NotificationOutbox.Deliver | src/aiops_platform/infra_rca/service.py:368-427 | one recipient: SENT is reported exactly if the row can be created and was SENT or the mail server takes the mail; what the row then holds, unless the swallowed update fails; the rows stay those of a sequential run |
| NotificationDelivery.NotificationOutbox.SendRcaNotifications | src/aiops_platform/infra_rca/service.py:345-427 | one status per recipient, each SENT exactly when its delivery should be; nothing is stored and all are FAILED when there is neither report nor incident |
| NotificationDelivery.NotificationOutbox.SendRcaReportEmail | src/aiops_platform/infra_rca/service.py:316-343 | nothing for an unknown report; otherwise delivers to the given recipients, or the configured ones if none are given, and is SENT if and only if there was a recipient and every one was reported SENT, which they are when nothing raises |
| NotificationDelivery.DeliveryReportsAndStores | src/aiops_platform/infra_rca/service.py:368-427 | SENT is reported if and only if creation did not raise and the row was SENT before or the send did not raise; a row that was not SENT is then stored FAILED exactly if the send raised, and every other row stays |
| NotificationDelivery.EveryStatusIsRight | src/aiops_platform/infra_rca/service.py:368-427 | the same for each of any number of deliveries in turn, on the rows the ones before it left |
| NotificationDelivery.NoRaiseAllSent | src/aiops_platform/infra_rca/service.py:345-427 | when no creation and no send raises, every recipient is reported SENT |
| NotificationDelivery.RedeliveryChangesNothing | src/aiops_platform/infra_rca/service.py:395-398 | delivering again what is stored SENT changes no row and reports SENT |
| NotificationDelivery.ReportedSentIsStored | src/aiops_platform/infra_rca/service.py:399-408 | a delivery that reports SENT with its update not lost leaves its row SENT and no other SENT row disturbed |
| NotificationDelivery.SecondSendIsSilent | src/aiops_platform/infra_rca/service.py:345-427 | after a fully reported send with no lost update, a second send changes nothing whatever the mail server would do |
| ToolCache.CacheKeyIsExact | src/aiops_platform/agent/dispatcher.py:430-442 | two calls have the same cache key if and only if server and tool are the same and the payloads are equal up to object key order |
| ToolCache.CachedNamesHaveNoColon | src/aiops_platform/agent/dispatcher.py:40-51 | no cached tool name or server name contains the key's separator |
| ToolCache.HitIsFresh | src/aiops_platform/agent/dispatcher.py:347-371 | over every interleaving of lookups and stores a hit is the last response stored under that key, still inside its time-to-live |
| ToolCache.PresentIff | src/aiops_platform/agent/dispatcher.py:347-371 | a key is in the cache exactly when it was stored and no lookup of it since found the entry stale |
| ToolCache.CacheAgreesIff | src/aiops_platform/agent/dispatcher.py:355-359 | for every run, key and clock reading: the cache answers as the history defines unless the entry is fresh for this reading but a lookup since the last store read a clock past its expiry |
| ToolCache.CacheIsItsHistory | src/aiops_platform/agent/dispatcher.py:347-371 | if no earlier lookup of the key read a later clock, the cache answers exactly as the history of stores defines |
| ToolCache.LateLookupCanEvict | src/aiops_platform/agent/dispatcher.py:347-359 | after any run, one lookup with a late clock reading evicts an entry that a slower thread would still be served |
| JsonReader.ReadValueOfDump | src/aiops_platform/agent/dispatcher.py:435-441 | a parser reads the compact printing of every JSON value back to that value, whatever follows it |
| JsonReader.DumpIsInjective | src/aiops_platform/agent/dispatcher.py:435-441 | the compact printing is equal exactly for equal values |
| CanonicalJson.CanonicalTextIffSame | src/aiops_platform/agent/dispatcher.py:435-441 | sorting keys at every level gives the same form exactly to values equal up to key order |
| Dispatcher.HitAnswersRequest | src/aiops_platform/agent/dispatcher.py:118-135 | a hit was returned by this tool's own operation for an equal sanitized payload less than its TTL ago, and nothing newer was stored for it |
| Dispatcher.JustStoredAnswers | src/aiops_platform/agent/dispatcher.py:347-371 | right after a store, only that response can answer the same request |
| Dispatcher.McpToolDispatcher.GetCachedToolResponse | src/aiops_platform/agent/dispatcher.py:347-359 | agrees with the cache on values, evicts only what expired, and returns a fresh copy |
| Dispatcher.McpToolDispatcher.SetCachedToolResponse | src/aiops_platform/agent/dispatcher.py:361-371 | stores a copy no caller holds, expiring at the time of storing plus the TTL |
| Dispatcher.McpToolDispatcher.CallOperation | src/aiops_platform/agent/dispatcher.py:136-160 | one operation call; its response is stored only when it returned and the tool has a TTL, and a raise becomes FAILED with the exception's class name; the result shows request and response masked, with the flags the status gives |
| Dispatcher.McpToolDispatcher.ExecuteRead | src/aiops_platform/agent/dispatcher.py:118-160 | either the operation ran once, or a response was served that it returned recently for an equal request; served or fetched, the response is shown masked |
| Dispatcher.McpToolDispatcher.Execute | src/aiops_platform/agent/dispatcher.py:83-160 | raises exactly for unregistered tools; nothing runs and the cache is untouched unless the tool is READ and connected; status, masking and sanitizing in each branch |
| Dispatcher.McpToolDispatcher.Decline | src/aiops_platform/agent/dispatcher.py:91-117 | a tool that may not run: BLOCKED if destructive, APPROVAL_REQUIRED if of any other permission but READ, with the dry-run response; FAILED with the fixed message if it is READ but not connected |
| Dispatcher.DumpPayloadWraps | src/aiops_platform/agent/dispatcher.py:404-407 | an object or a list is passed on as it is, anything else under `value` |
| Dispatcher.ExecuteThenScribble | src/aiops_platform/agent/dispatcher.py:118-160 | a caller may overwrite the response it was given; the dispatcher's state stays valid |
| Dispatcher.MutationDoesNotReachTheCache | src/aiops_platform/agent/dispatcher.py:347-371 | whatever a caller does to a response, a later hit returns it as stored |
| Redaction.SanitizeAtPath | src/aiops_platform/agent/dispatcher.py:445-458 | at every path: values under a listed key are gone, all others are found where they were |
| Redaction.SanitizeIdempotent | src/aiops_platform/agent/dispatcher.py:445-458 | sanitizing twice is sanitizing once |
| Redaction.SanitizeKeepsWellFormed | src/aiops_platform/agent/dispatcher.py:445-458 | sanitizing keeps object keys distinct |
| Redaction.SensitiveIff | src/aiops_platform/mcp/masking.py:19-21 | a key is sensitive if and only if one of the words occurs in its lower-cased text, dashes counting as underscores |
| Redaction.MaskAtPath | src/aiops_platform/mcp/masking.py:19-34 | at every path: the value at a sensitive key is masked, nothing below it is reachable, and everything else is unchanged, key sets and list lengths included |
| Redaction.MaskIdempotent | src/aiops_platform/mcp/masking.py:24-34 | masking twice is masking once |
| Redaction.MaskAndSanitizeCommute | src/aiops_platform/mcp/masking.py:24-34 | masking and sanitizing commute on every payload |
| Redaction.MaskRevealsExactlyNonSecrets | src/aiops_platform/mcp/masking.py:19-34 | two payloads mask to the same text exactly when they agree off the sensitive keys: masking hides the secrets and nothing else |
| Compaction.CompactionSize | src/aiops_platform/alertmanager_agent/service.py:3164-3200 | for every payload and budget B the printed size is at most 2B + 37, and at most B if and only if the excerpt branch is not taken |
| Compaction.CompactionReturns | src/aiops_platform/alertmanager_agent/service.py:3173-3200 | the full trim exactly when it fits, else the second trim if that fits, else the first B characters of the second trim's print |
| Compaction.CompactionIsIdentityIff | src/aiops_platform/alertmanager_agent/service.py:3173-3200 | a payload that fits and has no large field is returned as it is if and only if it is within the limits, or only the second trim fits and changes nothing |
| Compaction.CompactedAtPath | src/aiops_platform/alertmanager_agent/service.py:3173-3259 | when the full trim fits: at every kept path down to the depth limit the value that was there, a large one summarized, trimmed with the depth that is left |
| Compaction.CompactionBoundIsAttained | src/aiops_platform/alertmanager_agent/service.py:3164-3200 | 2B + 37 is attained for every budget, with a string limit large enough |
| CompactionBound.BoundIsAttainedIff | src/aiops_platform/alertmanager_agent/service.py:3164-3200 | for all limits: exactly which budgets let some payload attain 2B + 37 |
| CompactionBound.DefaultsAttainIff | src/aiops_platform/alertmanager_agent/service.py:3164-3171 | with the default limits some payload attains it if and only if B is at most 801 |
| CompactionBound.AttainsIffAllDouble | src/aiops_platform/alertmanager_agent/service.py:3190-3200 | a payload attains it exactly when the excerpt is taken and consists of quotes and backslashes only |
| Json.DumpHasNoControls | src/aiops_platform/alertmanager_agent/service.py:3164-3200 | printed JSON has no control characters, so escaping it again at most doubles it |
| Compaction.EscapeAtMostDoubles | src/aiops_platform/alertmanager_agent/service.py:3190-3200 | escaping text without control characters at most doubles its length |
| Compaction.RemoveLargeLlmFields | src/aiops_platform/alertmanager_agent/service.py:3203-3221 | the loop that builds the trimmed dictionary computes exactly the recursive removal |
| Compaction.RemoveLargeAtPath | src/aiops_platform/alertmanager_agent/service.py:3203-3221 | a value first reached through a large key is replaced by its summary; every other value stays where it was |
| Compaction.TrimNesting | src/aiops_platform/alertmanager_agent/service.py:3224-3259 | the output nests at most depth + 2 containers |
| Compaction.TrimNestingIsAttained | src/aiops_platform/alertmanager_agent/service.py:3224-3259 | ... and that many at every depth |
| Compaction.TrimBounds | src/aiops_platform/alertmanager_agent/service.py:3224-3275 | trimmed lists have at most L + 1 entries and strings at most max(S, 300) + 3 characters, except in the lists of key names, which occur only below the depth limit |
| Compaction.TrimmedListAccountsForAll | src/aiops_platform/alertmanager_agent/service.py:3244-3256 | a trimmed list keeps a prefix item by item, and kept plus `truncated_items` is the original length |
| Compaction.TrimIsIdentityIff | src/aiops_platform/alertmanager_agent/service.py:3224-3275 | trimming is the identity exactly on payloads within the limits without `raw_tool_results` |
| Compaction.TrimAtPath | src/aiops_platform/alertmanager_agent/service.py:3224-3259 | down to the depth limit every kept path leads to the value it led to, trimmed with the depth that is left |
| Compaction.TrimmedLeaf | src/aiops_platform/alertmanager_agent/service.py:3256-3281 | a string within its limit is unchanged, a longer one is its first characters and three dots |
| Compaction.TrimmedBelowDepth | src/aiops_platform/alertmanager_agent/service.py:3262-3275 | at the depth limit a list is its length and an object its first ten keys |
| StableSort.SortSorts | src/aiops_platform/alertmanager_agent/service.py:1365-1369 | the stable sort, for any total preorder, puts its input in order |
| StableSort.SortIsPermutation | src/aiops_platform/alertmanager_agent/service.py:1365-1369 | ... permutes its input |
| StableSort.SortIsStable | src/aiops_platform/alertmanager_agent/service.py:1365-1369 | ... and keeps the order of equal keys |
| RootCauseRanking.GroupFindings | src/aiops_platform/alertmanager_agent/service.py:1304-1308 | the grouping loop maps each type to exactly its findings, in order |
| RootCauseRanking.BuildFixedCandidates | src/aiops_platform/alertmanager_agent/service.py:1310-1340 | the loop over the fixed types builds one candidate for each type with findings |
| RootCauseRanking.RuntimeSignalShows | src/aiops_platform/alertmanager_agent/service.py:1343-1347 | some candidate is of a runtime type exactly when some finding is |
| RootCauseRanking.BuildApplicationRootCauseCandidates | src/aiops_platform/alertmanager_agent/service.py:1299-1378 | returns the three best visible candidates, best first, of those the alert's own finding and the given ones give rise to |
| RootCauseRanking.EveryCandidateFits | src/aiops_platform/alertmanager_agent/service.py:1310-1363 | every candidate has a finding of its type; a forced one is high; an inferred one is high if and only if two of its findings have different non-empty sections, medium if and only if not high and there are two, low otherwise; a deployment without a runtime signal is low; evidence and sources are those of the first findings |
| RootCauseRanking.CandidateKinds | src/aiops_platform/alertmanager_agent/service.py:1310-1363 | there is a candidate of a type if and only if there is a finding of it, unknown types apart |
| RootCauseRanking.InferredConfidence | src/aiops_platform/alertmanager_agent/service.py:1500-1508 | the confidence inferred from the findings of a type, stated on the findings themselves |
| RootCauseRanking.ReturnedRestsOnFindings | src/aiops_platform/alertmanager_agent/service.py:1299-1378 | a returned candidate that is not forced has two findings of its type, and a returned deployment a runtime finding beside it |
| RootCauseRanking.AlertAdds | src/aiops_platform/alertmanager_agent/service.py:1381-1448 | an alert adds one finding, of the first classifier that says yes in the order predictive, VPN, pod, saturation, PostgreSQL, and none if no one does |
| RootCauseRanking.RankingIsTopThree | src/aiops_platform/alertmanager_agent/service.py:1365-1378 | sort, filter and slice yield at most three visible candidates, in strict order of confidence and then fixed type order, and no omitted visible one comes before a returned one |
| RootCauseRanking.TopThreeIsUnique | src/aiops_platform/alertmanager_agent/service.py:1365-1378 | only one list meets that description |
| RootCauseRanking.TopThreeFacts | src/aiops_platform/alertmanager_agent/service.py:1365-1378 | no type twice, confidence never rising |
| RootCauseRanking.VisibleIsHighThenMedium | src/aiops_platform/alertmanager_agent/service.py:1365-1375 | what sorting and hiding leave is the high candidates and then the medium ones, each in the order built |
| RootCauseRanking.CandidatesInTypeOrder | src/aiops_platform/alertmanager_agent/service.py:1310-1363 | the candidates are built in strict type order |
| RootCauseRanking.ForcedPosition | src/aiops_platform/alertmanager_agent/service.py:1310-1340 | a forced type with a finding stands right after the forced types ahead of it, and is returned if and only if fewer than three of those have findings |
| RootCauseRanking.AlertCandidateIsShown | src/aiops_platform/alertmanager_agent/service.py:1381-1434 | a predictive, VPN, pod or saturation alert shows first, or second for a pod alert beside saturation signals, with high confidence |
| IndexAllowlist.AcceptedRequestsStayInside | src/aiops_platform/infraops/service.py:1854-1868 | when no class in an allowlist entry accepts `*`, every index that an accepted request reaches is matched by some allowlist entry |
| IndexAllowlist.PlainAllowlistIsSound | src/aiops_platform/infraops/service.py:1854-1868 | ... so in particular with an allowlist of literals and `*` |
| IndexAllowlist.SoundIff | src/aiops_platform/infraops/service.py:1854-1868 | for every parsed allowlist without classes: no accepted request reaches outside it if and only if every entry without path separator, its `?` read as `*`, matches only names that the allowlist matches |
| IndexAllowlist.ReachOfEntry | src/aiops_platform/infraops/service.py:1862-1865 | the names that requests matching an entry can reach are exactly those that match it with every `?` replaced by `*` |
| IndexAllowlist.Containment | src/aiops_platform/infraops/service.py:1862-1865 | if a pattern's text matches an entry no token of which accepts `*` as a character, every name the pattern reaches matches that entry |
| IndexAllowlist.ContainsIffTransparent | src/aiops_platform/infraops/service.py:1862-1865 | a glob contains all it lets through if and only if no class in it accepts `*` or it matches nothing at all |
| IndexAllowlist.PlainEntryContainsIff | src/aiops_platform/infraops/service.py:1862-1865 | an entry without classes does so if and only if it has no `?` |
| IndexAllowlist.OpaqueWitness | src/aiops_platform/infraops/service.py:1862-1865 | for any other satisfiable entry, a request it accepts and a name outside it that the request reaches |
| IndexAllowlist.QuestionMarkLeaks | src/aiops_platform/infraops/service.py:1854-1868 | an input where soundness fails: the entry `a?` accepts the request `a*`, which reaches `a` |
| IndexAllowlist.EntriesAreAccepted | src/aiops_platform/infraops/service.py:1854-1868 | any comma list of entries of a parsed allowlist without path separators and without `[` is itself accepted |
| IndexAllowlist.AllowlistEntriesAreClean | src/aiops_platform/infraops/service.py:1562-1566 | parsed entries are non-empty, stripped and comma-free |
| IndexAllowlist.EntriesAreTheParts | src/aiops_platform/infraops/service.py:1562-1566 | the entries are exactly the parts between commas that are not blank, stripped, in order; none at all is the error |
| IndexAllowlist.VerdictIff | src/aiops_platform/infraops/service.py:1854-1868 | for every request: accepted if and only if every part between commas is not blank, has no path separator and matches some entry; the first error applies if some part is blank, the second if none is but some has a separator |
| IndexAllowlist.MatchesIffDivided | src/aiops_platform/infraops/service.py:1862-1865 | a name matches a glob if and only if it can be divided into pieces, one for each token and fitting it |
| Text.SplitIsFree | src/aiops_platform/infraops/service.py:1855 | splitting at a separator loses nothing, and no part holds it |
| Text.SplitOfJoin | src/aiops_platform/infraops/service.py:1855 | splitting inverts joining parts without the separator |
| Text.Strip | src/aiops_platform/infraops/service.py:1855 | no space is left at either end, stripped text is unchanged, nothing but spaces goes |
| ImageReference.JoinRestoresImage | src/aiops_platform/infraops/service.py:2214-2226 | for every string, repository, `:tag` and `@digest` joined again restore it, an absent repository as empty |
| ImageReference.ParsedPartsAreUnambiguous | src/aiops_platform/infraops/service.py:2214-2226 | a returned tag has no `/`, `:` or `@`, and a repository without tag has no colon in its last segment |
| ImageReference.PrintThenParse | src/aiops_platform/infraops/service.py:2214-2226 | parts survive printing and parsing if and only if they are unambiguous |
| BundleSelection.FilterBundleByBudget | src/aiops_platform/farm_advisory/service.py:588-598 | the loop selects the affordable prefix of the price order that cannot be extended |
| BundleSelection.GreedyIsOptimal | src/aiops_platform/farm_advisory/service.py:588-598 | whenever the result fits the budget, it has the most items among all selections that fit and, at that size, the smallest total, negative totals and budgets included |
| BundleSelection.GreedyIsOptimalIff | src/aiops_platform/farm_advisory/service.py:588-598 | the result is optimal if and only if the budget is not negative, or some item alone fits it, or no selection does; so always for a budget the caller accepts |
| BundleSelection.GreedyFitsIff | src/aiops_platform/farm_advisory/service.py:588-598 | the result is within the budget if and only if the budget is not negative or some item alone fits it |
| BundleSelection.CheapestPrefix | src/aiops_platform/farm_advisory/service.py:592 | no selection of c items costs less than the first c in price order |
| BundleSelection.InsertPrefix | src/aiops_platform/farm_advisory/service.py:592 | the exchange step: one more item makes no prefix dearer, and the next prefix dearer by at most its price |
| BundleSelection.GreedyComesFromItems | src/aiops_platform/farm_advisory/service.py:588-598 | the selection is a sub-multiset of the items, ties in price going to the earlier item |
| BundleSelection.NegativeBudgetIsNotOptimal | src/aiops_platform/farm_advisory/service.py:588-598 | an input with a negative budget, which the caller rejects, where it is not optimal |
| BundleSelection.RecommendProductBundle | src/aiops_platform/farm_advisory/service.py:239-280 | a negative budget is rejected; otherwise the items are the priced recommendations, filtered when a budget is given, each with its recommendation's price times quantity as line total, and `estimated_budget` is the sum of price times quantity and within the budget |
| PrometheusText.LabelEscapeIsOnePass | src/aiops_platform/core/metrics.py:157-158 | the three chained replaces are one left-to-right escaping pass |
| PrometheusText.QueryEscapeIsOnePass | src/aiops_platform/infra_rca/service.py:1231-1242 | the five chained replaces are one pass too |
| PrometheusText.QueryValueReadsBack | src/aiops_platform/infra_rca/service.py:1231-1242 | a selector is built exactly for a value with a character that is not a space, and selects that value |
| PrometheusText.LabelValueReadsBack | src/aiops_platform/core/metrics.py:148-158 | an escaped value between quotes reads back as itself, whatever follows |
| PrometheusText.ReadPrintedLabels | src/aiops_platform/core/metrics.py:148-154 | a printed label set parses back to exactly its labels |
| PrometheusText.SampleReadsBack | src/aiops_platform/core/metrics.py:125 | a sample line determines series and value |
| PrometheusText.SampleIsOneLine | src/aiops_platform/core/metrics.py:125 | a line feed in a label value never splits a sample |
| MetricsStore.EstimateTokenCount | src/aiops_platform/core/metrics.py:39-40 | the count is the characters over four, rounded up, never below zero |
| MetricsStore.Store.RecordLlmRequestMetrics | src/aiops_platform/core/metrics.py:47-85 | after one more call the tables are those of the longer run |
| MetricsStore.Store.RecordChatResponseMetrics | src/aiops_platform/core/metrics.py:88-108 | ... likewise for a chat response |
| MetricsStore.LlmCountersAccountForRun | src/aiops_platform/core/metrics.py:76-85 | after every run, for fixed base labels: `requests_total` summed over the stored statuses is the number of calls, failures summed over error types are the failed calls, and never exceed the requests |
| MetricsStore.ChatCountersAccountForRun | src/aiops_platform/core/metrics.py:103-108 | the chat request counter summed over statuses is the number of responses |
| MetricsStore.LatencySumsAreExact | src/aiops_platform/core/metrics.py:74-75 | the latency counters hold the sum of the latencies of the calls with their labels |
| MetricsStore.GaugesShowLastCall | src/aiops_platform/core/metrics.py:66-102 | every gauge shows the value from the last call with its labels, and is absent if there was none |
| MetricsStore.LlmIncrementsSay | src/aiops_platform/core/metrics.py:55-85 | every series of one model request carries its provider, model, prompt key and chat type, empty ones as `unknown`; it counts its latency, one request with its status and one failure with its error type exactly if it has one |
| MetricsStore.ChatIncrementsSay | src/aiops_platform/core/metrics.py:96-108 | ... and those of a chat response its chat type, source, capability and status |
| MetricsStore.LlmLabelsSay | src/aiops_platform/core/metrics.py:60-65 | the gauges' labels carry the same four texts, each at its key |
| MetricsStore.Store.Reset | src/aiops_platform/core/metrics.py:129-132 | both tables are empty again, as after no call |
| MetricsStore.TableAccountsForRun | src/aiops_platform/core/metrics.py:139-141 | summing a counter table over the stored series a selector picks counts every increment it picks |
| MetricsStore.ListingExists | src/aiops_platform/core/metrics.py:139-141 | every table has a listing of the series a selector picks, so the sums over all stored series exist |
| MetricsRendering.SortedItems | src/aiops_platform/core/metrics.py:113-117 | whatever order a dictionary is visited in, its entries come out sorted, each once |
| MetricsRendering.RenderItems | src/aiops_platform/core/metrics.py:118-125 | the loop with its set of seen names yields well-grouped lines with all samples in order and no other metric |
| MetricsPage.RenderPrometheusMetrics | src/aiops_platform/core/metrics.py:111-127 | after any run of calls and with any one-line help texts, the page text splits into well-grouped lines; reading it gives back exactly the stored series and values, each once, sorted, gauges first, and every stored metric's help text and type, `gauge` or `counter` by its table, and no other |
| MetricsRendering.SamplesAreOneGroup | src/aiops_platform/core/metrics.py:118-125 | on a well-grouped page all samples of a metric are contiguous after its one HELP and one TYPE line |
| MetricsPage.PageReadsBack | src/aiops_platform/core/metrics.py:127 | joined lines split back into exactly themselves, and their samples read back, for any label values |
| MetricsPage.SampleTextIsFaithful | src/aiops_platform/core/metrics.py:125 | the text of a sample is one line and reads back as its series and value |
| MetricsPage.PageSaysHelp | src/aiops_platform/core/metrics.py:121-121 | the page has a HELP line for a name with these words if and only if the name has a header and they are its help text |
| MetricsPage.PageSaysType | src/aiops_platform/core/metrics.py:122-122 | ... and a TYPE line with this word if and only if the header has that kind |
| MetricsPage.RenderedAreLinesOf | src/aiops_platform/core/metrics.py:113-125 | exactly the stored metrics have headers, gauges as gauges and counters as counters |
| MetricsPage.StoredSeriesAreReadable | src/aiops_platform/core/metrics.py:135-145 | after any run every stored series has a plain name and labels sorted by plain keys |
| MetricsPage.LlmLabelsAreNormalized | src/aiops_platform/core/metrics.py:144-145 | the label sets of one model request are sorted by key with readable names |
| MetricsPage.ChatLabelsAreNormalized | src/aiops_platform/core/metrics.py:144-145 | ... and so are those of one chat response |
| PublicIds.NormalizedIsClean | src/aiops_platform/farmer_bnpl/service.py:422-425 | a normalized part is non-empty, of `[a-z0-9-]`, with no leading, trailing or doubled dash |
| PublicIds.NormalizeFixesExactlyClean | src/aiops_platform/farmer_bnpl/service.py:422-425 | normalizing leaves exactly the clean texts alone, so it is idempotent |
| PublicIds.NormalizeKeepsWords | src/aiops_platform/farmer_bnpl/service.py:422-425 | in any text: the letters and digits of its lower-cased form stay, in order, and between two of them stands a break exactly if anything else stood there; a text without any gives `id` |
| PublicIds.CleanByMarks | src/aiops_platform/farmer_bnpl/service.py:422-425 | a clean text is determined by its letters and digits and by which of them a break precedes, so what normalizing gives is fixed for every input |
| PublicIds.PublicIdParts | src/aiops_platform/farmer_bnpl/service.py:405-419 | an id is the cut normalized prefix, the cut normalized user id and the hash, joined by dashes |
| PublicIds.CutPartIsClean | src/aiops_platform/farmer_bnpl/service.py:415-418 | cutting and stripping a clean part keeps it clean and within the limit; the fallback text is never needed |
| PublicIds.PublicIdIsValid | src/aiops_platform/farmer_bnpl/service.py:405-419 | for all non-empty prefix and user id: at most 120 characters, clean, accepted by `validate_identifier`, ending in the user's hash; otherwise the matching error |
| PublicIds.EqualIdsHaveEqualHashes | src/aiops_platform/farmer_bnpl/service.py:405-419 | equal ids imply equal short hashes of the users |
| PublicIds.ShortPrefixIsKept | src/aiops_platform/farmer_bnpl/service.py:415-419 | a normalized prefix of at most 109 characters is there in full |
| PublicIds.IntentIsAccepted | src/aiops_platform/farmer_bnpl/service.py:308-370 | the intent id handed out by one call is never why the checkout call rejects |
| Orchestrator.ScheduleIsPermutation | src/aiops_platform/agent/orchestrator.py:32-59 | the order of execution is a permutation of the plans |
| Orchestrator.ScheduleMembers | src/aiops_platform/agent/orchestrator.py:32-43 | a plan runs in the second phase if and only if the chat is `sre_copilot` and the tool is `infraops-mcp`'s `create_rca_snapshot` |
| Orchestrator.PhasesKeepOrder | src/aiops_platform/agent/orchestrator.py:32-43 | within each phase plans keep their order |
| Orchestrator.RunImmediate | src/aiops_platform/agent/orchestrator.py:32-43 | the first phase answers the other plans in order and sets the snapshots aside in order, unless an unregistered tool raises |
| Orchestrator.ExecuteSnapshot | src/aiops_platform/agent/orchestrator.py:45-59 | a snapshot's request carries a bundle that summarizes all results before it |
| Snapshot.SnapshotCounts | src/aiops_platform/agent/orchestrator.py:45-59 | read back by path, a snapshot's request says how many tools ran before it, how many succeeded, and the names of exactly the others; the two numbers add up |
| Snapshot.SnapshotSections | src/aiops_platform/agent/orchestrator.py:45-59 | ... which sections have a result and which expected ones have none |
| Snapshot.SnapshotEntries | src/aiops_platform/agent/orchestrator.py:45-59 | ... and for every earlier result its server, tool and masked request, without its response |
| Snapshot.SnapshotKeepsPayload | src/aiops_platform/agent/orchestrator.py:45-59 | at every other path the request is what the plan's own payload would have given |
| Snapshot.CompactShows | src/aiops_platform/agent/context_bundle.py:375-403 | an entry shows server, tool, status and masked request, an error message if there is one, and the masked response or none at all |
| Orchestrator.RunDeferred | src/aiops_platform/agent/orchestrator.py:45-59 | the second phase answers the snapshots in order after everything else |
| Orchestrator.Run | src/aiops_platform/agent/orchestrator.py:20-69 | one result per plan in schedule order; raises exactly when some tool is unregistered; no operation ever runs for a non-READ tool |
| Orchestrator.BuildIncidentContextBundle | src/aiops_platform/agent/context_bundle.py:280-372 | total, success and failure counts add up, each slot holds the results filed under it, oldest first, and available and missing sections are those with and without a result |
| Orchestrator.SectionsAreRight | src/aiops_platform/agent/context_bundle.py:420-451 | a section is available exactly if some result was filed under it (the cross-domain one always), an expected one missing exactly if none was, in the fixed order |
| Orchestrator.FileEntry | src/aiops_platform/agent/context_bundle.py:280-372 | one result goes under each of its slots and no other |
| Orchestrator.AppendEntry | src/aiops_platform/agent/context_bundle.py:406-407 | appends to the list under a key, creating it if needed |
| Orchestrator.FailuresAndSuccesses | src/aiops_platform/agent/context_bundle.py:410-453 | failures and successes add up to the number of results |

## Left out

- Routers, MCP transport, SQL text, HTTP, Slack, SMTP, boto3 and Kubernetes clients: input and output only; the database is maps and sequences with the stated insert, update and claim transitions.
- Model calls, prompts and message and HTML builders: text assembly. The evidence wording of alert findings is an empty string in the ranking.
- The planner, keyword detection of findings and alert classification: findings and alert kinds are inputs of the ranking. That the detector never reports the predictive, VPN and pod types is the condition `FromDetector`.
- Scenario inference and failure boundaries in the context bundle: the scenario and its candidates are not in the summary; the rendered bundle carries its raw results and the other summary fields.
- Slack and alert-agent deliveries: they follow the same create, send, update steps as the e-mail delivery.
- Other writers of outbox and job rows, such as the alert agent and the dashboard: the theorems are about the writers named here.
- Other values of the `job_type` column: the model holds root-cause jobs only.
- UUID checks in the repositories: ids are positions or keys that exist.
- Stored job context is taken to be well formed, because it is parsed before the `try`.
- Interference inside one call of a class method: `RcaService.RcaStore.RunListed` takes the listing however stale, and the protocol interleaves every step.
- Liveness: a runner that dies leaves its job RUNNING, and nothing in the code queues it again.
- `[`...`]` classes in globs: how the library parses them is not modelled; the containment theorems cover any class as a set of characters, and the text-level ones entries without `[`.
- Search-engine pattern syntax other than `*` (exclusions, date math) and index names that the engine forbids.
- Floating point: metric values are integers, so the formatting of fractions is not modelled.
- JSON values that are not strings, integers, booleans, null, lists or objects with string keys (floats, `default=str` values).
- Quantities, areas and scores of the farm advisory: a recommendation carries its quantity and price; unknown catalog products are not modelled.
- The cart part of checkout: products, totals and credit limits.
- Limits given as negative numbers to compaction: budgets and limits are naturals.
- Concurrent calls of `Dispatcher.McpToolDispatcher.Execute`: the class runs one call at a time; interleavings of its locked sections are covered on values in `ToolCache`.
- Outbox.SequentialOutboxBound: stated for sequential deliveries per key, because it is false for overlapping ones; `Outbox.OverlapSendsTwice` gives the run.
- Rollout status, VPN tunnel reading, admin summaries, policy tables beyond the execution gate, the inspection watcher: single-branch or finite facts.
