/** What every interleaving of the RCA protocol keeps. */
module RcaInvariants {
  import opened Options
  import opened RcaProtocol

  // ---------- Webhook side ----------

  /** The alert row of `p` was inserted by a FIRING webhook, and that webhook's handler completed. */
  predicate FirstCompleted(s: State, p: Pair) {
    && p in s.h.firsts && s.h.firsts[p].status == FIRING
    && s.h.firsts[p].handler in s.handlers && s.handlers[s.h.firsts[p].handler].Replied?
  }

  ghost predicate InvHandlers(s: State) {
    && (forall p :: p in s.h.firsts <==> p in s.db.alerts)
    && (forall p :: p in s.h.firsts ==>
          && s.h.firsts[p].handler in s.handlers
          && PairOf(s.handlers[s.h.firsts[p].handler].w) == p
          && s.handlers[s.h.firsts[p].handler].w.status == s.h.firsts[p].status
          && !s.handlers[s.h.firsts[p].handler].StoringAlert?)
    && (forall id :: id in s.handlers && s.handlers[id].CreatingJob? ==>
          && PairOf(s.handlers[id].w) in s.h.firsts
          && s.h.firsts[PairOf(s.handlers[id].w)] == First(FIRING, id))
  }

  ghost predicate InvJobOf(s: State) {
    && (forall p :: p in s.h.jobOf <==> FirstCompleted(s, p))
    && (forall p :: p in s.h.jobOf ==> s.h.jobOf[p] < |s.db.jobs|)
    && (forall j :: 0 <= j < |s.db.jobs| ==>
          s.db.jobs[j].pair in s.h.jobOf && s.h.jobOf[s.db.jobs[j].pair] == j)
    && (forall p :: p in s.h.jobOf ==> s.db.jobs[s.h.jobOf[p]].pair == p)
  }

  /** The first start that was not missing among the webhooks received for an incident. */
  function FirstStart(received: seq<Webhook>, incident: string): Option<Time> {
    if received == [] then None
    else
      var n := |received| - 1;
      Coalesce(FirstStart(received[..n], incident),
               if received[n].dedupKey == incident then received[n].startsAt else None)
  }

  ghost predicate InvIncidents(s: State) {
    && (forall i :: i in s.db.incidents ==> s.db.incidents[i].startsAt == FirstStart(s.h.received, i))
    && (forall k :: 0 <= k < |s.h.received| ==> s.h.received[k].dedupKey in s.db.incidents)
  }

  // ---------- Runner side ----------

  /** A job that has left QUEUED was started, by its holder, at a due time not before its schedule. */
  ghost predicate InvStarts(s: State) {
    && |s.h.phases| == |s.h.holders| == |s.db.jobs|
    && (forall j :: 0 <= j < |s.db.jobs| ==>
          && (s.h.phases[j].NotStarted? <==> s.db.jobs[j].status == QUEUED)
          && (s.h.phases[j].NotStarted? <==> s.h.holders[j].None?))
    && (forall k :: 0 <= k < |s.h.starts| ==>
          var st := s.h.starts[k];
          st.job < |s.db.jobs| && !s.h.phases[st.job].NotStarted? && s.db.jobs[st.job].scheduledAt <= st.dueAt)
    && (forall i, k :: 0 <= i < k < |s.h.starts| ==> s.h.starts[i].job != s.h.starts[k].job)
    && (forall j :: 0 <= j < |s.db.jobs| && !s.h.phases[j].NotStarted? ==> WasStarted(s.h.starts, j))
  }

  ghost predicate WasStarted(starts: seq<Start>, j: nat) {
    exists k :: 0 <= k < |starts| && starts[k].job == j
  }

  ghost predicate SnapshotOf(s: State, cfg: Config, j: nat, k: nat) {
    && j < |s.db.jobs| && k < |s.db.snapshots|
    && s.db.snapshots[k] == Snapshot(s.db.jobs[j].pair.incident, j,
         s.db.jobs[j].alertStartsAt - cfg.before, s.db.jobs[j].alertStartsAt + cfg.after)
  }

  ghost predicate ReportOf(s: State, j: nat, k: nat, r: nat) {
    j < |s.db.jobs| && r < |s.db.reports| && s.db.reports[r] == Report(s.db.jobs[j].pair.incident, k)
  }

  /** Snapshots and reports are exactly those the phases record: at most one of each per job. */
  ghost predicate InvRows(s: State, cfg: Config) {
    && |s.h.phases| == |s.db.jobs|
    && (forall k :: 0 <= k < |s.db.snapshots| ==>
          var j := s.db.snapshots[k].job;
          j < |s.db.jobs| && (s.h.phases[j].HasSnapshot? || s.h.phases[j].HasReport?) && s.h.phases[j].snapshot == k)
    && (forall r :: 0 <= r < |s.db.reports| ==>
          var k := s.db.reports[r].snapshot;
          && k < |s.db.snapshots| && s.db.snapshots[k].job < |s.db.jobs|
          && s.h.phases[s.db.snapshots[k].job] == HasReport(k, r))
    && (forall j :: 0 <= j < |s.db.jobs| && (s.h.phases[j].HasSnapshot? || s.h.phases[j].HasReport?) ==>
          SnapshotOf(s, cfg, j, s.h.phases[j].snapshot))
    && (forall j :: 0 <= j < |s.db.jobs| && s.h.phases[j].HasReport? ==>
          ReportOf(s, j, s.h.phases[j].snapshot, s.h.phases[j].report))
  }

  /** What a participant at `pc` knows about its job. */
  predicate PcFits(pc: Pc, status: JobStatus, phase: Phase, late: bool) {
    match pc
    case Idle => true
    case RunnerDead => true
    case Started(_) => status == RUNNING && phase == Begun
    case Snapshotted(_, k) => status == RUNNING && phase == HasSnapshot(k)
    case LlmFailed(_) => status == RUNNING && phase.HasSnapshot?
    case FailureStored(_) => status == FAILED && phase.HasSnapshot?
    case Reported(_, k) => status == RUNNING && phase.HasReport? && phase.snapshot == k
    case AnalyzedStored(_, k) => status == RUNNING && phase.HasReport? && phase.snapshot == k
    case SuccessStored(_, k) => status == SUCCEEDED && phase.HasReport? && phase.snapshot == k
    case Handling(_, reported) => !late && !phase.NotStarted? && (reported <==> phase.HasReport?)
  }

  ghost predicate InvRunners(s: State) {
    && |s.h.phases| == |s.h.holders| == |s.db.jobs|
    && (forall r :: r in s.runners ==> forall i :: 0 <= i < |s.runners[r].todo| ==>
          && s.runners[r].todo[i] < |s.db.jobs|
          && s.db.jobs[s.runners[r].todo[i]].scheduledAt <= s.runners[r].dueAt)
    && (forall r :: r in s.runners && (InBody(s.runners[r].pc) || s.runners[r].pc.Handling?) ==>
          var j := s.runners[r].pc.job;
          && j < |s.db.jobs| && s.h.holders[j] == Some(r)
          && PcFits(s.runners[r].pc, s.db.jobs[j].status, s.h.phases[j], j in s.h.late))
  }

  /** The status a finished job may show, given what exists for it. */
  ghost predicate InvOutcomes(s: State) {
    && |s.h.phases| == |s.db.jobs|
    && (forall j :: j in s.h.late ==> j < |s.db.jobs|)
    && (forall j :: 0 <= j < |s.db.jobs| ==>
          && (s.db.jobs[j].status == SUCCEEDED ==> s.h.phases[j].HasReport?)
          && (j in s.h.late <==> s.db.jobs[j].status == FAILED && s.h.phases[j].HasReport?))
  }

  ghost predicate InvSchedule(s: State, cfg: Config) {
    forall j :: 0 <= j < |s.db.jobs| ==> WellScheduled(s.db.jobs[j], cfg)
  }

  ghost predicate WellScheduled(job: Job, cfg: Config) {
    && job.scheduledAt <= job.alertStartsAt + cfg.after <= job.windowEnd
    && (job.reportedStart.Some? ==>
          && job.alertStartsAt == job.reportedStart.value
          && job.scheduledAt == job.windowEnd == job.reportedStart.value + cfg.after)
  }

  ghost predicate InvWebhooks(s: State) { InvHandlers(s) && InvJobOf(s) && InvIncidents(s) }

  ghost predicate InvJobs(s: State, cfg: Config) {
    InvStarts(s) && InvRows(s, cfg) && InvRunners(s) && InvOutcomes(s) && InvSchedule(s, cfg)
  }

  ghost predicate Inv(s: State, cfg: Config) { InvWebhooks(s) && InvJobs(s, cfg) }

  // ---------- Frames: what the other side's steps leave alone ----------

  /** `t` differs from `s` only in what the webhook side never looks at. */
  ghost predicate SameWebhookSide(s: State, t: State) {
    && t.db.alerts == s.db.alerts && t.handlers == s.handlers
    && t.h.firsts == s.h.firsts && t.h.jobOf == s.h.jobOf && t.h.received == s.h.received
    && |t.db.jobs| == |s.db.jobs| && (forall j :: 0 <= j < |s.db.jobs| ==> t.db.jobs[j].pair == s.db.jobs[j].pair)
    && t.db.incidents.Keys == s.db.incidents.Keys
    && (forall i :: i in s.db.incidents ==> t.db.incidents[i].startsAt == s.db.incidents[i].startsAt)
  }

  lemma WebhookSideFrame(s: State, t: State)
    requires InvWebhooks(s) && SameWebhookSide(s, t)
    ensures InvWebhooks(t)
  {
    assert forall p :: FirstCompleted(t, p) == FirstCompleted(s, p);
  }

  lemma JobSideFrame(s: State, t: State, cfg: Config)
    requires InvJobs(s, cfg)
    requires t.db.jobs == s.db.jobs && t.db.snapshots == s.db.snapshots && t.db.reports == s.db.reports
    requires t.runners == s.runners && t.h.phases == s.h.phases && t.h.holders == s.h.holders
    requires t.h.starts == s.h.starts && t.h.late == s.h.late
    ensures InvJobs(t, cfg)
  {
  }

  // ---------- Webhook steps ----------

  lemma ArriveKeeps(s: State, id: nat, w: Webhook)
    requires InvWebhooks(s) && id !in s.handlers
    ensures InvWebhooks(Arrive(s, id, w))
  {
    var t := Arrive(s, id, w);
    assert InvHandlers(t);
    assert forall p :: FirstCompleted(t, p) == FirstCompleted(s, p);
    assert t.h.received[..|s.h.received|] == s.h.received;
    if w.dedupKey !in s.db.incidents { NoWebhookNoStart(s.h.received, w.dedupKey); }
  }

  lemma {:induction false} NoWebhookNoStart(received: seq<Webhook>, incident: string)
    requires forall k :: 0 <= k < |received| ==> received[k].dedupKey != incident
    ensures FirstStart(received, incident) == None
  {
    if received != [] { NoWebhookNoStart(received[..|received| - 1], incident); }
  }

  lemma StoreAlertKeeps(s: State, id: nat)
    requires InvWebhooks(s) && id in s.handlers && s.handlers[id].StoringAlert?
    ensures InvWebhooks(StoreAlert(s, id))
  {
    var t := StoreAlert(s, id);
    assert InvHandlers(t);
    assert forall p :: FirstCompleted(t, p) == FirstCompleted(s, p);
  }

  function Bury(s: State, id: nat): State
    requires id in s.handlers
  {
    s.(handlers := s.handlers[id := HandlerDead(s.handlers[id].w)])
  }

  lemma BuryKeepsHandlers(s: State, id: nat)
    requires InvHandlers(s) && id in s.handlers && !s.handlers[id].Replied?
    ensures InvHandlers(Bury(s, id))
  {
  }

  lemma BuryCreatesNothing(s: State, id: nat)
    requires id in s.handlers && !s.handlers[id].Replied?
    ensures forall p :: FirstCompleted(Bury(s, id), p) == FirstCompleted(s, p)
  {
  }

  lemma HandlerDeathKeeps(s: State, id: nat)
    requires InvWebhooks(s) && id in s.handlers && !s.handlers[id].Replied?
    ensures InvWebhooks(Bury(s, id))
  {
    BuryKeepsHandlers(s, id);
    BuryCreatesNothing(s, id);
  }

  lemma StoreJobKeepsHandlers(s: State, cfg: Config, id: nat, now: Readings)
    requires InvHandlers(s) && id in s.handlers && s.handlers[id].CreatingJob?
    ensures InvHandlers(StoreJob(s, cfg, id, now))
  {
  }

  lemma StoreJobCompletes(s: State, cfg: Config, id: nat, now: Readings)
    requires InvHandlers(s) && id in s.handlers && s.handlers[id].CreatingJob?
    ensures var p := PairOf(s.handlers[id].w);
      && !FirstCompleted(s, p)
      && forall q :: FirstCompleted(StoreJob(s, cfg, id, now), q) <==> q == p || FirstCompleted(s, q)
  {
  }

  lemma StoreJobKeepsJobOf(s: State, cfg: Config, id: nat, now: Readings)
    requires InvHandlers(s) && InvJobOf(s) && id in s.handlers && s.handlers[id].CreatingJob?
    ensures InvJobOf(StoreJob(s, cfg, id, now))
  {
    StoreJobCompletes(s, cfg, id, now);
  }

  lemma StoreJobKeepsWebhooks(s: State, cfg: Config, id: nat, now: Readings)
    requires InvWebhooks(s) && id in s.handlers && s.handlers[id].CreatingJob?
    ensures InvWebhooks(StoreJob(s, cfg, id, now))
  {
    StoreJobKeepsHandlers(s, cfg, id, now);
    StoreJobKeepsJobOf(s, cfg, id, now);
  }

  lemma NewJobKeepsStarts(s: State, cfg: Config, id: nat, now: Readings)
    requires InvStarts(s) && id in s.handlers
    ensures InvStarts(StoreJob(s, cfg, id, now))
  {
  }

  lemma NewJobKeepsRows(s: State, cfg: Config, id: nat, now: Readings)
    requires InvRows(s, cfg) && id in s.handlers
    ensures InvRows(StoreJob(s, cfg, id, now), cfg)
  {
  }

  lemma NewJobKeepsRunners(s: State, cfg: Config, id: nat, now: Readings)
    requires InvRunners(s) && id in s.handlers
    ensures InvRunners(StoreJob(s, cfg, id, now))
  {
  }

  lemma StoreJobKeepsJobs(s: State, cfg: Config, id: nat, now: Readings)
    requires InvJobs(s, cfg) && id in s.handlers
    requires now.schedule <= now.stored <= now.windowStart <= now.windowEnd
    ensures InvJobs(StoreJob(s, cfg, id, now), cfg)
  {
    NewJobKeepsStarts(s, cfg, id, now);
    NewJobKeepsRows(s, cfg, id, now);
    NewJobKeepsRunners(s, cfg, id, now);
  }

  // ---------- Runner steps ----------

  function Enlist(s: State, r: nat, dueAt: Time, listing: seq<nat>): State {
    s.(runners := s.runners[r := Runner(dueAt, listing, Idle)])
  }

  lemma EnlistKeepsRunners(s: State, r: nat, dueAt: Time, limit: nat, listing: seq<nat>)
    requires InvRunners(s) && r !in s.runners && IsDueListing(s.db, dueAt, limit, listing)
    ensures InvRunners(Enlist(s, r, dueAt, listing))
  {
    assert forall i :: 0 <= i < |listing| ==> IsDue(s.db, listing[i], dueAt);
  }

  lemma EnlistKeepsRows(s: State, cfg: Config, r: nat, dueAt: Time, listing: seq<nat>)
    requires InvRows(s, cfg)
    ensures InvRows(Enlist(s, r, dueAt, listing), cfg)
  {
    var t := Enlist(s, r, dueAt, listing);
    forall j, k | SnapshotOf(s, cfg, j, k) ensures SnapshotOf(t, cfg, j, k) {}
    forall j, k, q | ReportOf(s, j, k, q) ensures ReportOf(t, j, k, q) {}
  }

  lemma ListKeeps(s: State, cfg: Config, r: nat, dueAt: Time, limit: nat, listing: seq<nat>)
    requires InvJobs(s, cfg) && r !in s.runners && IsDueListing(s.db, dueAt, limit, listing)
    ensures InvJobs(Enlist(s, r, dueAt, listing), cfg)
  {
    EnlistKeepsRunners(s, r, dueAt, limit, listing);
    EnlistKeepsRows(s, cfg, r, dueAt, listing);
  }

  lemma ClaimKeeps(s: State, cfg: Config, r: nat)
    requires InvJobs(s, cfg) && r in s.runners && s.runners[r].pc.Idle? && s.runners[r].todo != []
    ensures InvJobs(Claim(s, r), cfg)
  {
    ClaimKeepsStarts(s, cfg, r);
    ClaimKeepsRows(s, cfg, r);
    ClaimKeepsRunners(s, cfg, r);
    ClaimKeepsOutcomes(s, r);
  }

  /** A job that begins has no snapshot or report yet, so the rows still match. */
  lemma BeginKeepsRows(s: State, t: State, cfg: Config, j: nat)
    requires InvRows(s, cfg) && j < |s.db.jobs| && s.h.phases[j].NotStarted?
    requires t.db == SetStatus(s.db, j, RUNNING) && t.h.phases == s.h.phases[j := Begun]
    ensures InvRows(t, cfg)
  {
    forall i | 0 <= i < |t.db.jobs| && (t.h.phases[i].HasSnapshot? || t.h.phases[i].HasReport?)
      ensures SnapshotOf(t, cfg, i, t.h.phases[i].snapshot)
    {
      assert SnapshotOf(s, cfg, i, s.h.phases[i].snapshot);
    }
    forall i | 0 <= i < |t.db.jobs| && t.h.phases[i].HasReport?
      ensures ReportOf(t, i, t.h.phases[i].snapshot, t.h.phases[i].report)
    {
      assert ReportOf(s, i, s.h.phases[i].snapshot, s.h.phases[i].report);
    }
  }

  lemma ClaimKeepsRows(s: State, cfg: Config, r: nat)
    requires InvRows(s, cfg) && InvStarts(s) && r in s.runners && s.runners[r].todo != []
    ensures InvRows(Claim(s, r), cfg)
  {
    var j := s.runners[r].todo[0];
    if j < |s.db.jobs| && s.db.jobs[j].status == QUEUED {
      BeginKeepsRows(s, Claim(s, r), cfg, j);
    }
  }

  lemma ClaimKeepsRunners(s: State, cfg: Config, r: nat)
    requires InvRunners(s) && InvStarts(s) && r in s.runners && s.runners[r].pc.Idle? && s.runners[r].todo != []
    ensures InvRunners(Claim(s, r))
  {
  }

  lemma ClaimKeepsOutcomes(s: State, r: nat)
    requires InvOutcomes(s) && InvStarts(s) && r in s.runners && s.runners[r].todo != []
    ensures InvOutcomes(Claim(s, r))
  {
  }

  lemma ClaimKeepsStarts(s: State, cfg: Config, r: nat)
    requires InvStarts(s) && InvRunners(s) && r in s.runners && s.runners[r].todo != []
    ensures InvStarts(Claim(s, r))
  {
    var t := Claim(s, r);
    var n := |s.h.starts|;
    if |t.h.starts| > n {
      assert t.h.starts[n].job == s.runners[r].todo[0];
      forall j | 0 <= j < |t.db.jobs| && !t.h.phases[j].NotStarted? ensures WasStarted(t.h.starts, j) {
        if !s.h.phases[j].NotStarted? {
          var k :| 0 <= k < n && s.h.starts[k].job == j;
          assert t.h.starts[k].job == j;
        }
      }
    }
  }

  lemma MoveKeepsRunners(s: State, r: nat, pc: Pc)
    requires InvRunners(s) && r in s.runners
    requires InBody(pc) || pc.Handling? ==>
      && Working(s, r) && pc.job == s.runners[r].pc.job
      && PcFits(pc, s.db.jobs[pc.job].status, s.h.phases[pc.job], pc.job in s.h.late)
    ensures InvRunners(s.(runners := Move(s, r, pc)))
  {
  }

  /** Runner `r` moves to a pc that fits its job, or leaves the job; nothing else changes. */
  lemma MoveKeeps(s: State, cfg: Config, r: nat, pc: Pc)
    requires InvJobs(s, cfg) && r in s.runners
    requires InBody(pc) || pc.Handling? ==>
      && Working(s, r) && pc.job == s.runners[r].pc.job
      && PcFits(pc, s.db.jobs[pc.job].status, s.h.phases[pc.job], pc.job in s.h.late)
    ensures InvJobs(s.(runners := Move(s, r, pc)), cfg)
  {
    MoveKeepsRunners(s, r, pc);
    StatusKeepsRows(s, s.(runners := Move(s, r, pc)), cfg);
  }

  /** `t` rewrites the status and the phase of the started job `j`, and possibly whether it is late. */
  ghost predicate Updates(s: State, t: State, j: nat, status: JobStatus, phase: Phase) {
    && j < |s.db.jobs| && j < |s.h.phases|
    && t.db.jobs == s.db.jobs[j := s.db.jobs[j].(status := status)]
    && t.h.phases == s.h.phases[j := phase]
    && t.h.holders == s.h.holders && t.h.starts == s.h.starts
    && (t.h.late == s.h.late || t.h.late == s.h.late + {j})
    && !s.h.phases[j].NotStarted? && !phase.NotStarted? && status != QUEUED
  }

  lemma UpdateKeepsStarts(s: State, t: State, j: nat, status: JobStatus, phase: Phase)
    requires InvStarts(s) && Updates(s, t, j, status, phase)
    ensures InvStarts(t)
  {
  }

  lemma UpdateKeepsRunners(s: State, t: State, r: nat, j: nat, status: JobStatus, phase: Phase, pc: Pc)
    requires InvRunners(s) && Updates(s, t, j, status, phase)
    requires r in s.runners && s.h.holders[j] == Some(r) && t.runners == Move(s, r, pc)
    requires pc.Idle? || (InBody(pc) && pc.job == j && PcFits(pc, status, phase, j in t.h.late))
    ensures InvRunners(t)
  {
  }

  lemma UpdateKeepsOutcomes(s: State, t: State, j: nat, status: JobStatus, phase: Phase)
    requires InvOutcomes(s) && Updates(s, t, j, status, phase)
    requires status == SUCCEEDED ==> phase.HasReport?
    requires j in t.h.late <==> status == FAILED && phase.HasReport?
    ensures InvOutcomes(t)
  {
  }

  lemma SnapshotKeepsRows(s: State, cfg: Config, r: nat)
    requires InvRows(s, cfg) && Working(s, r) && s.h.phases[s.runners[r].pc.job] == Begun
    ensures InvRows(TakeSnapshot(s, cfg, r), cfg)
  {
  }

  lemma TakeSnapshotKeeps(s: State, cfg: Config, r: nat)
    requires InvJobs(s, cfg) && Working(s, r) && s.runners[r].pc.Started?
    ensures InvJobs(TakeSnapshot(s, cfg, r), cfg)
  {
    var t, j, n := TakeSnapshot(s, cfg, r), s.runners[r].pc.job, |s.db.snapshots|;
    SnapshotKeepsRows(s, cfg, r);
    assert t.db.jobs == s.db.jobs[j := s.db.jobs[j].(status := RUNNING)];
    UpdateKeepsStarts(s, t, j, RUNNING, HasSnapshot(n));
    UpdateKeepsRunners(s, t, r, j, RUNNING, HasSnapshot(n), Snapshotted(j, n));
    UpdateKeepsOutcomes(s, t, j, RUNNING, HasSnapshot(n));
  }

  lemma ReportKeepsRows(s: State, cfg: Config, r: nat)
    requires InvRows(s, cfg) && Working(s, r) && s.runners[r].pc.Snapshotted?
    requires s.h.phases[s.runners[r].pc.job] == HasSnapshot(s.runners[r].pc.snapshot)
    ensures InvRows(StoreReport(s, r), cfg)
  {
    var t, j := StoreReport(s, r), s.runners[r].pc.job;
    assert SnapshotOf(s, cfg, j, s.h.phases[j].snapshot);
    assert forall i :: 0 <= i < |s.db.jobs| && s.h.phases[i].HasReport? ==>
      ReportOf(s, i, s.h.phases[i].snapshot, s.h.phases[i].report);
  }

  lemma StoreReportKeeps(s: State, cfg: Config, r: nat)
    requires InvJobs(s, cfg) && Working(s, r) && s.runners[r].pc.Snapshotted?
    ensures InvJobs(StoreReport(s, r), cfg)
  {
    var t, j, k := StoreReport(s, r), s.runners[r].pc.job, s.runners[r].pc.snapshot;
    var phase := HasReport(k, |s.db.reports|);
    ReportKeepsRows(s, cfg, r);
    assert t.db.jobs == s.db.jobs[j := s.db.jobs[j].(status := RUNNING)];
    UpdateKeepsStarts(s, t, j, RUNNING, phase);
    UpdateKeepsRunners(s, t, r, j, RUNNING, phase, Reported(j, k));
    UpdateKeepsOutcomes(s, t, j, RUNNING, phase);
  }

  lemma StatusKeepsRows(s: State, t: State, cfg: Config)
    requires InvRows(s, cfg)
    requires t.db.snapshots == s.db.snapshots && t.db.reports == s.db.reports && t.h.phases == s.h.phases
    requires |t.db.jobs| == |s.db.jobs|
    requires forall j :: 0 <= j < |s.db.jobs| ==> t.db.jobs[j] == s.db.jobs[j].(status := t.db.jobs[j].status)
    ensures InvRows(t, cfg)
  {
    assert forall j, k :: SnapshotOf(s, cfg, j, k) ==> SnapshotOf(t, cfg, j, k);
    assert forall j, k, r :: ReportOf(s, j, k, r) ==> ReportOf(t, j, k, r);
  }

  lemma StoreJobStatusKeeps(s: State, cfg: Config, r: nat, status: JobStatus, pc: Pc)
    requires InvJobs(s, cfg) && Working(s, r) && InBody(s.runners[r].pc) && InBody(pc) && pc.job == s.runners[r].pc.job
    requires status != QUEUED && PcFits(pc, status, s.h.phases[pc.job], false)
    requires s.db.jobs[pc.job].status == RUNNING && !s.h.phases[pc.job].NotStarted?
    requires status == SUCCEEDED ==> s.h.phases[pc.job].HasReport?
    requires status == FAILED ==> !s.h.phases[pc.job].HasReport?
    ensures InvJobs(StoreJobStatus(s, r, status, pc), cfg)
  {
    var t, j := StoreJobStatus(s, r, status, pc), pc.job;
    var phase := s.h.phases[j];
    assert t.h.phases == s.h.phases[j := phase];
    StatusKeepsRows(s, t, cfg);
    UpdateKeepsStarts(s, t, j, status, phase);
    UpdateKeepsRunners(s, t, r, j, status, phase, pc);
    UpdateKeepsOutcomes(s, t, j, status, phase);
  }

  lemma MarkFailedKeeps(s: State, cfg: Config, r: nat)
    requires InvJobs(s, cfg) && Working(s, r) && s.runners[r].pc.Handling?
    ensures InvJobs(MarkFailed(s, r), cfg)
  {
    var t, j := MarkFailed(s, r), s.runners[r].pc.job;
    var phase := s.h.phases[j];
    assert t.h.phases == s.h.phases[j := phase];
    StatusKeepsRows(s, t, cfg);
    UpdateKeepsStarts(s, t, j, FAILED, phase);
    UpdateKeepsRunners(s, t, r, j, FAILED, phase, Idle);
    UpdateKeepsOutcomes(s, t, j, FAILED, phase);
  }

  // ---------- Every step, every run ----------

  predicate IsWebhookStep(step: Step) {
    step.WebhookArrives? || step.WebhookStoresAlert? || step.WebhookCreatesJob? || step.HandlerDies?
  }

  lemma WebhookStepKeeps(s: State, cfg: Config, step: Step)
    requires Inv(s, cfg) && Enabled(s, step) && IsWebhookStep(step)
    ensures Inv(Next(s, cfg, step), cfg)
  {
    var t := Next(s, cfg, step);
    match step
    case WebhookArrives(id, w) => ArriveKeeps(s, id, w); JobSideFrame(s, t, cfg);
    case WebhookStoresAlert(id) => StoreAlertKeeps(s, id); JobSideFrame(s, t, cfg);
    case WebhookCreatesJob(id, now) => StoreJobKeepsWebhooks(s, cfg, id, now); StoreJobKeepsJobs(s, cfg, id, now);
    case HandlerDies(id) => HandlerDeathKeeps(s, id); JobSideFrame(s, t, cfg);
  }

  lemma RunnerStepsLeaveWebhooks(s: State, cfg: Config, step: Step)
    requires Enabled(s, step) && !IsWebhookStep(step)
    ensures SameWebhookSide(s, Next(s, cfg, step))
  {
  }

  lemma RunnerStepKeepsJobs(s: State, cfg: Config, step: Step)
    requires InvJobs(s, cfg) && Enabled(s, step) && !IsWebhookStep(step)
    ensures InvJobs(Next(s, cfg, step), cfg)
  {
    match step
    case RunnerLists(r, dueAt, limit, listing) => ListKeeps(s, cfg, r, dueAt, Clamp(limit), listing);
    case RunnerClaims(r) => ClaimKeeps(s, cfg, r);
    case RunnerSnapshots(r) => TakeSnapshotKeeps(s, cfg, r);
    case LlmRunFails(r) => IncidentStepKeeps(s, cfg, r, INVESTIGATING, LlmFailed(s.runners[r].pc.job));
    case RunnerStoresFailure(r) => StoreJobStatusKeeps(s, cfg, r, FAILED, FailureStored(s.runners[r].pc.job));
    case RunnerReports(r) => StoreReportKeeps(s, cfg, r);
    case RunnerAnalyzed(r) =>
      IncidentStepKeeps(s, cfg, r, ANALYZED, AnalyzedStored(s.runners[r].pc.job, s.runners[r].pc.snapshot));
    case RunnerStoresSuccess(r) =>
      StoreJobStatusKeeps(s, cfg, r, SUCCEEDED, SuccessStored(s.runners[r].pc.job, s.runners[r].pc.snapshot));
    case RunnerNotifies(r) => MoveKeeps(s, cfg, r, Idle);
    case BodyRaises(r) => MoveKeeps(s, cfg, r, Handling(s.runners[r].pc.job, HasReported(s.runners[r].pc)));
    case RunnerMarksFailed(r) => MarkFailedKeeps(s, cfg, r);
    case RunnerDies(r) => MoveKeeps(s, cfg, r, RunnerDead);
    case _ =>
  }

  lemma IncidentStepKeeps(s: State, cfg: Config, r: nat, status: IncidentStatus, pc: Pc)
    requires InvJobs(s, cfg) && Working(s, r) && InBody(pc) && pc.job == s.runners[r].pc.job
    requires PcFits(pc, s.db.jobs[pc.job].status, s.h.phases[pc.job], pc.job in s.h.late)
    ensures InvJobs(StoreIncidentStatus(s, r, status, pc), cfg)
  {
    MoveKeeps(s, cfg, r, pc);
    JobSideFrame(s.(runners := Move(s, r, pc)), StoreIncidentStatus(s, r, status, pc), cfg);
  }

  /** Every step of every participant keeps the whole invariant. */
  lemma {:induction false} StepKeepsInv(s: State, cfg: Config, step: Step)
    requires Inv(s, cfg) && Enabled(s, step)
    ensures Inv(Next(s, cfg, step), cfg)
  {
    if IsWebhookStep(step) {
      WebhookStepKeeps(s, cfg, step);
    } else {
      RunnerStepKeepsJobs(s, cfg, step);
      RunnerStepsLeaveWebhooks(s, cfg, step);
      WebhookSideFrame(s, Next(s, cfg, step));
    }
  }

  lemma {:induction false} RunKeepsInv(s: State, cfg: Config, steps: seq<Step>, t: State)
    requires Inv(s, cfg) && IsRun(s, cfg, steps, t)
    ensures Inv(t, cfg)
    decreases |steps|
  {
    if steps != [] {
      StepKeepsInv(s, cfg, steps[0]);
      RunKeepsInv(Next(s, cfg, steps[0]), cfg, steps[1..], t);
    }
  }

  lemma ReachableInv(s: State, cfg: Config)
    requires Reachable(s, cfg)
    ensures Inv(s, cfg)
  {
    var steps :| IsRun(INIT, cfg, steps, s);
    RunKeepsInv(INIT, cfg, steps, s);
  }

  // ---------- The promises ----------

  /** No job body is started twice, whatever stale listings the runners hold, and a job has left
      QUEUED exactly when its body was started. */
  lemma BodyStartsAtMostOnce(s: State, cfg: Config)
    requires Reachable(s, cfg)
    ensures forall i, k :: 0 <= i < k < |s.h.starts| ==> s.h.starts[i].job != s.h.starts[k].job
    ensures forall j :: 0 <= j < |s.db.jobs| ==> (s.db.jobs[j].status != QUEUED <==> WasStarted(s.h.starts, j))
  {
    ReachableInv(s, cfg);
  }

  /** Some report was written for job `j`: its incident, and a snapshot that job `j` took. */
  ghost predicate HasReportRow(s: State, j: nat) {
    && j < |s.db.jobs|
    && exists r :: 0 <= r < |s.db.reports| && s.db.reports[r].incident == s.db.jobs[j].pair.incident
         && s.db.reports[r].snapshot < |s.db.snapshots|
         && s.db.snapshots[s.db.reports[r].snapshot].job == j
         && s.db.snapshots[s.db.reports[r].snapshot].incident == s.db.jobs[j].pair.incident
  }

  lemma HasReportRowIffPhase(s: State, cfg: Config, j: nat)
    requires Inv(s, cfg) && j < |s.db.jobs|
    ensures HasReportRow(s, j) <==> s.h.phases[j].HasReport?
  {
    if s.h.phases[j].HasReport? {
      assert SnapshotOf(s, cfg, j, s.h.phases[j].snapshot);
      assert ReportOf(s, j, s.h.phases[j].snapshot, s.h.phases[j].report);
    }
  }

  /** SUCCEEDED implies a report; FAILED with a report happens exactly when the body raised after
      writing it, so FAILED alone does not mean that there is none. */
  lemma OutcomesMatchReports(s: State, cfg: Config, j: nat)
    requires Reachable(s, cfg) && j < |s.db.jobs|
    ensures s.db.jobs[j].status == SUCCEEDED ==> HasReportRow(s, j)
    ensures HasReportRow(s, j) ==> s.db.jobs[j].status != QUEUED
    ensures s.db.jobs[j].status == FAILED ==> (HasReportRow(s, j) <==> j in s.h.late)
  {
    ReachableInv(s, cfg);
    HasReportRowIffPhase(s, cfg, j);
  }

  /** At most one snapshot and one report per job, however many runners ran. */
  lemma OneSnapshotAndReportPerJob(s: State, cfg: Config)
    requires Reachable(s, cfg)
    ensures forall i, k :: 0 <= i < k < |s.db.snapshots| ==> s.db.snapshots[i].job != s.db.snapshots[k].job
    ensures forall i, k :: 0 <= i < k < |s.db.reports| ==> s.db.reports[i].snapshot != s.db.reports[k].snapshot
  {
    ReachableInv(s, cfg);
  }

  /** When the alert carried its start, the body starts only for a due time at or after the end of
      its evidence window, and the snapshot it takes spans exactly that window. */
  lemma StartsAfterEvidenceWindow(s: State, cfg: Config, k: nat)
    requires Reachable(s, cfg) && k < |s.h.starts|
    ensures var st := s.h.starts[k];
      && st.job < |s.db.jobs|
      && var job := s.db.jobs[st.job];
      && job.scheduledAt <= st.dueAt
      && (job.reportedStart.Some? ==>
           && job.windowEnd == job.reportedStart.value + cfg.after <= st.dueAt
           && forall i :: 0 <= i < |s.db.snapshots| && s.db.snapshots[i].job == st.job ==>
                s.db.snapshots[i].timeEnd == job.windowEnd)
  {
    ReachableInv(s, cfg);
    var j := s.h.starts[k].job;
    assert WellScheduled(s.db.jobs[j], cfg);
    forall i | 0 <= i < |s.db.snapshots| && s.db.snapshots[i].job == j
      ensures s.db.snapshots[i].timeEnd == s.db.jobs[j].alertStartsAt + cfg.after
    {
      assert SnapshotOf(s, cfg, j, s.h.phases[j].snapshot);
    }
  }

  /** Without a start in the alert the clock is read again for every field, and the window a job may
      start after covers its evidence exactly when the clock did not move between two readings. */
  lemma MissingStartWindow(cfg: Config, w: Webhook, now: Readings)
    requires now.schedule <= now.stored <= now.windowStart <= now.windowEnd
    ensures var job := NewJob(cfg, w, now);
      && (job.alertStartsAt + cfg.after <= job.scheduledAt <==> w.startsAt.Some? || now.schedule == now.stored)
      && (job.windowEnd <= job.scheduledAt <==> w.startsAt.Some? || now.schedule == now.windowEnd)
  {
  }

  /** The jobs of one (incident, fingerprint) pair. */
  ghost function JobsOf(s: State, p: Pair): set<nat> {
    set j: nat | j < |s.db.jobs| && s.db.jobs[j].pair == p
  }

  /** Each pair has at most one job: exactly one once the handler of the webhook that inserted its
      alert row has completed and that webhook was FIRING, none if it was RESOLVED, none while the
      handler is on its way or if it died; duplicates never add one. */
  lemma OneJobPerAlert(s: State, cfg: Config, p: Pair)
    requires Reachable(s, cfg)
    ensures |JobsOf(s, p)| == if FirstCompleted(s, p) then 1 else 0
    ensures p in s.h.firsts <==> p in s.db.alerts
    ensures p in s.h.firsts ==>
      && s.h.firsts[p].handler in s.handlers
      && PairOf(s.handlers[s.h.firsts[p].handler].w) == p
      && s.handlers[s.h.firsts[p].handler].w.status == s.h.firsts[p].status
  {
    ReachableInv(s, cfg);
    if FirstCompleted(s, p) {
      assert JobsOf(s, p) == {s.h.jobOf[p]};
    } else {
      assert JobsOf(s, p) == {};
    }
  }

  /** An incident's stored start is the first one any of its webhooks carried. */
  lemma IncidentKeepsFirstStart(s: State, cfg: Config, incident: string)
    requires Reachable(s, cfg) && incident in s.db.incidents
    ensures s.db.incidents[incident].startsAt == FirstStart(s.h.received, incident)
  {
    ReachableInv(s, cfg);
  }

  // ---------- Two runs that show what the code does not promise ----------

  lemma {:induction false} RunExtends(s: State, cfg: Config, steps: seq<Step>, t: State, step: Step)
    requires IsRun(s, cfg, steps, t) && Enabled(t, step)
    ensures IsRun(s, cfg, steps + [step], Next(t, cfg, step))
    decreases |steps|
  {
    if steps == [] {
      assert steps + [step] == [step];
      assert IsRun(Next(s, cfg, step), cfg, [], Next(t, cfg, step));
      assert [step][1..] == [];
    } else {
      assert (steps + [step])[1..] == steps[1..] + [step];
      RunExtends(Next(s, cfg, steps[0]), cfg, steps[1..], t, step);
    }
  }

  lemma ReachableNext(s: State, cfg: Config, step: Step)
    requires Reachable(s, cfg) && Enabled(s, step)
    ensures Reachable(Next(s, cfg, step), cfg)
  {
    var steps :| IsRun(INIT, cfg, steps, s);
    RunExtends(INIT, cfg, steps, s, step);
  }

  const STARTLESS := Webhook("k", "f", FIRING, None, None)
  const TICKING := Readings(0, 1, 1, 1)

  /** One alert without a start has queued its job. */
  lemma QueuedJob(cfg: Config) returns (s: State)
    ensures Reachable(s, cfg) && s.runners == map[]
    ensures s.db.jobs == [NewJob(cfg, STARTLESS, TICKING)] && s.db.snapshots == [] && s.db.reports == []
    ensures s.h.starts == [] && |s.h.phases| == |s.h.holders| == 1
  {
    assert IsRun(INIT, cfg, [], INIT);
    ReachableNext(INIT, cfg, WebhookArrives(0, STARTLESS));
    var s1 := Next(INIT, cfg, WebhookArrives(0, STARTLESS));
    ReachableNext(s1, cfg, WebhookStoresAlert(0));
    var s2 := StoreAlert(s1, 0);
    assert s2.handlers[0] == CreatingJob(STARTLESS);
    ReachableNext(s2, cfg, WebhookCreatesJob(0, TICKING));
    s := StoreJob(s2, cfg, 0, TICKING);
  }

  /** A runner lists the job the moment it falls due and claims it. */
  lemma StartedJob(cfg: Config) returns (s: State)
    ensures Reachable(s, cfg) && 0 in s.runners && s.runners[0].pc == Started(0)
    ensures |s.db.jobs| == 1 && s.db.jobs[0] == NewJob(cfg, STARTLESS, TICKING).(status := RUNNING)
    ensures s.db.snapshots == [] && s.db.reports == []
    ensures s.h.starts == [Start(0, cfg.after)]
  {
    var s1 := QueuedJob(cfg);
    assert IsDueListing(s1.db, cfg.after, Clamp(10), [0]);
    ReachableNext(s1, cfg, RunnerLists(0, cfg.after, 10, [0]));
    var s2 := s1.(runners := s1.runners[0 := Runner(cfg.after, [0], Idle)]);
    ReachableNext(s2, cfg, RunnerClaims(0));
    s := Claim(s2, 0);
  }

  lemma SnapshottedJob(cfg: Config) returns (s: State)
    ensures Reachable(s, cfg) && 0 in s.runners && s.runners[0].pc == Snapshotted(0, 0)
    ensures |s.db.jobs| == 1 && s.db.reports == [] && s.h.starts == [Start(0, cfg.after)]
    ensures s.db.snapshots == [Snapshot("k", 0, 1 - cfg.before, 1 + cfg.after)] && s.db.jobs[0].pair.incident == "k"
  {
    var s1 := StartedJob(cfg);
    ReachableNext(s1, cfg, RunnerSnapshots(0));
    s := TakeSnapshot(s1, cfg, 0);
  }

  lemma ReportedJob(cfg: Config) returns (s: State)
    ensures Reachable(s, cfg) && 0 in s.runners && s.runners[0].pc == Reported(0, 0)
    ensures |s.db.jobs| == 1 && HasReportRow(s, 0)
  {
    var s1 := SnapshottedJob(cfg);
    ReachableNext(s1, cfg, RunnerReports(0));
    s := StoreReport(s1, 0);
    assert s.db.reports[0] == Report("k", 0);
  }

  lemma SucceededJob(cfg: Config) returns (s: State)
    ensures Reachable(s, cfg) && 0 in s.runners && s.runners[0].pc == SuccessStored(0, 0)
    ensures |s.db.jobs| == 1 && s.db.jobs[0].status == SUCCEEDED && HasReportRow(s, 0)
  {
    var s1 := ReportedJob(cfg);
    ReachableNext(s1, cfg, RunnerAnalyzed(0));
    var s2 := StoreIncidentStatus(s1, 0, ANALYZED, AnalyzedStored(0, 0));
    ReachableNext(s2, cfg, RunnerStoresSuccess(0));
    s := StoreJobStatus(s2, 0, SUCCEEDED, SuccessStored(0, 0));
    assert s.db.reports == s1.db.reports && s.db.snapshots == s1.db.snapshots;
  }

  /** A job of an alert that carried no start can start before the window of its evidence ends. */
  lemma MissingStartCanStartEarly(cfg: Config)
    ensures exists s :: (
      && Reachable(s, cfg) && |s.h.starts| == 1 && |s.db.snapshots| == 1
      && s.db.snapshots[0].job == s.h.starts[0].job
      && s.h.starts[0].dueAt < s.db.snapshots[0].timeEnd)
  {
    var s := SnapshottedJob(cfg);
  }

  /** A job can end FAILED although its report exists: the dashboard notification raised after
      SUCCEEDED was stored, and the except clause overwrote it. */
  lemma FailedCanHaveReport(cfg: Config)
    ensures exists s :: Reachable(s, cfg) && |s.db.jobs| == 1 && s.db.jobs[0].status == FAILED && HasReportRow(s, 0)
  {
    var s1 := SucceededJob(cfg);
    ReachableNext(s1, cfg, BodyRaises(0));
    var s2 := s1.(runners := Move(s1, 0, Handling(0, true)));
    ReachableNext(s2, cfg, RunnerMarksFailed(0));
    var s := MarkFailed(s2, 0);
    assert s.db.reports == s1.db.reports && s.db.snapshots == s1.db.snapshots;
    assert HasReportRow(s, 0);
  }
}
