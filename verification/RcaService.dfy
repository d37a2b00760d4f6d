/** The repository and the service as they run: a store whose tables are updated in place, the
    webhook handler, the due-job loop and the body of one job.  The ghost field `st` follows the
    protocol, so every state the store passes through is one the protocol can reach. */
module RcaService {
  import opened Options
  import opened RcaProtocol
  import opened RcaInvariants
  import opened RcaEvidence

  /** Where the body of a job raises, or how it ends. */
  datatype BodyOutcome =
    | Completes
    | LlmRejected(stop: RejectedStop)
    | SnapshotRaises
    | LlmRaises
    | ReportRaises
    | AnalyzedRaises
    | FinishRaises
    | NotificationRaises

  /** The branch for a model run that did not succeed: where it raises, if it does. */
  datatype RejectedStop = NoRaise | InvestigatingRaises | FinishFailedRaises | DashboardRaises

  predicate WritesSnapshot(o: BodyOutcome) { !o.SnapshotRaises? }

  predicate WritesReport(o: BodyOutcome) {
    o.Completes? || o.AnalyzedRaises? || o.FinishRaises? || o.NotificationRaises?
  }

  /** Whether the body leaves the try block by raising. */
  predicate Raises(o: BodyOutcome) { !o.Completes? && o != LlmRejected(NoRaise) }

  /** The status that stands when the try block is left. */
  function BodyStatus(o: BodyOutcome): JobStatus {
    if o.Completes? || o.NotificationRaises? then SUCCEEDED
    else if o == LlmRejected(NoRaise) || o == LlmRejected(DashboardRaises) then FAILED
    else RUNNING
  }

  /** One job: how its body ends, and whether the except clause's own status write raises. */
  datatype JobOutcome = JobOutcome(body: BodyOutcome, markRaises: bool)

  /** The exception leaves the whole run of the runner. */
  predicate Escapes(o: JobOutcome) { Raises(o.body) && o.markRaises }

  function FinalStatus(o: JobOutcome): JobStatus {
    if Raises(o.body) && !o.markRaises then FAILED else BodyStatus(o.body)
  }

  predicate OnlyStatusChanged(before: seq<Job>, after: seq<Job>, j: nat) {
    && |after| == |before|
    && (forall i :: 0 <= i < |before| && i != j ==> after[i] == before[i])
    && (j < |before| ==> after[j] == before[j].(status := after[j].status))
  }

  /** The jobs as the loop leaves them: those processed carry the status their run ended with. */
  predicate Processed(before: seq<Job>, after: seq<Job>, processed: seq<nat>, outcomes: nat -> JobOutcome) {
    && |after| == |before|
    && forall j :: 0 <= j < |before| ==>
         after[j] == before[j].(status := if j in processed then FinalStatus(outcomes(j)) else before[j].status)
  }

  /** The jobs run are the first of those there are, all of them unless an exception escapes; only the
      last one run can let it escape. */
  predicate RunInOrder(processed: seq<nat>, claimable: seq<nat>, outcomes: nat -> JobOutcome, escaped: bool) {
    && processed <= claimable
    && (!escaped ==> processed == claimable)
    && (forall i :: 0 <= i < |processed| - 1 ==> !Escapes(outcomes(processed[i])))
    && (escaped <==> processed != [] && Escapes(outcomes(processed[|processed| - 1])))
  }

  /** Only this incident's row may change, and only its status. */
  predicate OnlyIncidentStatus(before: map<string, Incident>, after: map<string, Incident>, incident: string) {
    && after.Keys == before.Keys
    && (forall i :: i in before && i != incident ==> after[i] == before[i])
    && (incident in before ==> after[incident] == before[incident].(status := after[incident].status))
  }

  /** What the incident shows after a body: ANALYZED once that write was reached, INVESTIGATING once the
      other one was, and its old status if neither was. */
  predicate IncidentShows(before: map<string, Incident>, after: map<string, Incident>, incident: string, o: BodyOutcome)
  {
    && incident in before
    && OnlyIncidentStatus(before, after, incident)
    && (o.Completes? || o.FinishRaises? || o.NotificationRaises? ==> after[incident].status == ANALYZED)
    && (o.LlmRejected? && !o.stop.InvestigatingRaises? ==> after[incident].status == INVESTIGATING)
    && (o.SnapshotRaises? || o.LlmRaises? || o.ReportRaises? || o.AnalyzedRaises? ==> after == before)
    && (o == LlmRejected(InvestigatingRaises) ==> after == before)
  }

  /** The status a job is left with, outcome by outcome. */
  predicate JobShows(status: JobStatus, o: JobOutcome) {
    && (o.body.Completes? ==> status == SUCCEEDED)
    && (o.body == LlmRejected(NoRaise) ==> status == FAILED)
    && (!o.body.Completes? && o.body != LlmRejected(NoRaise) && !o.markRaises ==> status == FAILED)
    && (o.body.NotificationRaises? && o.markRaises ==> status == SUCCEEDED)
    && (o.body == LlmRejected(DashboardRaises) ==> status == FAILED)
    && (o.body.SnapshotRaises? || o.body.LlmRaises? || o.body.ReportRaises? || o.body.AnalyzedRaises? ==>
          status == if o.markRaises then RUNNING else FAILED)
    && (o.body in {FinishRaises, LlmRejected(InvestigatingRaises), LlmRejected(FinishFailedRaises)} ==>
          status == if o.markRaises then RUNNING else FAILED)
  }

  class RcaStore {
    const cfg: Config
    var incidents: map<string, Incident>
    var alerts: map<Pair, AlertRow>
    var jobs: seq<Job>
    var snapshots: seq<Snapshot>
    var reports: seq<Report>

    ghost var st: State

    ghost function Contents(): Db
      reads this
    {
      Db(incidents, alerts, jobs, snapshots, reports)
    }

    ghost predicate Valid()
      reads this
    {
      Contents() == st.db && Reachable(st, cfg)
    }

    constructor (cfg: Config)
      ensures Valid() && this.cfg == cfg && Contents() == EMPTY_DB && st == INIT
    {
      this.cfg := cfg;
      incidents, alerts, jobs, snapshots, reports := map[], map[], [], [], [];
      st := INIT;
      new;
      assert IsRun(INIT, cfg, [], INIT);
    }

    // ---------- Repository statements ----------

    method UpsertIncident(w: Webhook)
      modifies this`incidents
      ensures Contents() == RcaProtocol.UpsertIncident(old(Contents()), w)
    {
      var status := if w.status == RESOLVED then INC_RESOLVED else INC_FIRING;
      if w.dedupKey in incidents {
        var row := incidents[w.dedupKey];
        if row.startsAt.None? { row := row.(startsAt := w.startsAt); }
        incidents := incidents[w.dedupKey := row.(status := status, endsAt := w.endsAt)];
      } else {
        incidents := incidents[w.dedupKey := Incident(status, w.startsAt, w.endsAt)];
      }
    }

    method UpsertIncidentAlert(w: Webhook) returns (wasExisting: bool)
      modifies this`alerts
      ensures (Contents(), wasExisting) == UpsertAlert(old(Contents()), w)
    {
      wasExisting := PairOf(w) in alerts;
      if !wasExisting {
        alerts := alerts[PairOf(w) := AlertRow(w.status, w.startsAt, w.endsAt)];
      } else {
        var row := alerts[PairOf(w)];
        alerts := alerts[PairOf(w) := row.(status := w.status, startsAt := w.startsAt, endsAt := w.endsAt)];
      }
    }

    /** The earliest due job not yet listed, if any. */
    method NextDue(dueAt: Time, listed: seq<nat>) returns (best: int)
      ensures best == -1 || (0 <= best && best !in listed && IsDue(Contents(), best, dueAt))
      ensures best == -1 ==> forall j: nat :: IsDue(Contents(), j, dueAt) ==> j in listed
      ensures best != -1 ==> forall j: nat ::
        IsDue(Contents(), j, dueAt) && j !in listed && j != best ==> Before(Contents(), best, j)
    {
      best := -1;
      for j := 0 to |jobs|
        invariant best == -1 || (0 <= best < j && best !in listed && IsDue(Contents(), best, dueAt))
        invariant best == -1 ==> forall k: nat :: k < j && IsDue(Contents(), k, dueAt) ==> k in listed
        invariant best != -1 ==> forall k: nat ::
          k < j && IsDue(Contents(), k, dueAt) && k !in listed && k != best ==> Before(Contents(), best, k)
      {
        if jobs[j].status == QUEUED && jobs[j].scheduledAt <= dueAt && j !in listed
           && (best == -1 || jobs[j].scheduledAt < jobs[best].scheduledAt) {
          best := j;
        }
      }
    }

    method ListDueRcaJobs(dueAt: Time, limit: nat) returns (listing: seq<nat>)
      ensures IsDueListing(Contents(), dueAt, limit, listing)
    {
      listing := [];
      while |listing| < limit
        invariant |listing| <= limit
        invariant forall i :: 0 <= i < |listing| ==> IsDue(Contents(), listing[i], dueAt)
        invariant forall i, k :: 0 <= i < k < |listing| ==> Before(Contents(), listing[i], listing[k])
        invariant forall j: nat, i :: IsDue(Contents(), j, dueAt) && j !in listing && 0 <= i < |listing| ==>
          Before(Contents(), listing[i], j)
      {
        var best := NextDue(dueAt, listing);
        if best == -1 { return; }
        listing := listing + [best];
      }
    }

    method MarkRcaJobRunning(j: nat) returns (claimed: bool)
      modifies this`jobs
      ensures (Contents(), claimed) == MarkRunning(old(Contents()), j)
    {
      claimed := j < |jobs| && jobs[j].status == QUEUED;
      if claimed { jobs := jobs[j := jobs[j].(status := RUNNING)]; }
    }

    // ---------- Webhook handler ----------

    ghost method Advance(step: Step)
      requires Reachable(st, cfg) && Enabled(st, step)
      modifies this`st
      ensures st == Next(old(st), cfg, step) && Reachable(st, cfg)
    {
      ReachableNext(st, cfg, step);
      st := Next(st, cfg, step);
    }

    /** `id` names this invocation. */
    method HandleAlertmanagerWebhook(ghost id: nat, w: Webhook, now: Readings)
      returns (duplicate: bool, job: Option<nat>)
      requires Valid() && id !in st.handlers
      requires now.schedule <= now.stored <= now.windowStart <= now.windowEnd
      modifies this
      ensures Valid()
      ensures duplicate <==> Pair(w.dedupKey, w.fingerprint) in old(alerts)
      ensures job == if w.status == FIRING && !duplicate then Some(|old(jobs)|) else None
      ensures jobs == old(jobs) + if job.Some? then [NewJob(cfg, w, now)] else []
      ensures job.Some? ==>
        var queued := jobs[|old(jobs)|];
        && queued.status == QUEUED
        && queued.pair == Pair(w.dedupKey, w.fingerprint) && queued.reportedStart == w.startsAt
        && queued.scheduledAt == (if w.startsAt.Some? then w.startsAt.value else now.schedule) + cfg.after
        && queued.alertStartsAt == (if w.startsAt.Some? then w.startsAt.value else now.stored)
        && queued.windowStart == (if w.startsAt.Some? then w.startsAt.value else now.windowStart) - cfg.before
        && queued.windowEnd == (if w.startsAt.Some? then w.startsAt.value else now.windowEnd) + cfg.after
      // The incident and the alert row show this webhook, except for an incident's first known start.
      ensures w.dedupKey in incidents
        && incidents[w.dedupKey].status == (if w.status == RESOLVED then INC_RESOLVED else INC_FIRING)
        && incidents[w.dedupKey].endsAt == w.endsAt
        && incidents[w.dedupKey].startsAt ==
          if w.dedupKey in old(incidents) && old(incidents)[w.dedupKey].startsAt.Some?
          then old(incidents)[w.dedupKey].startsAt else w.startsAt
      ensures Pair(w.dedupKey, w.fingerprint) in alerts
        && alerts[Pair(w.dedupKey, w.fingerprint)] == AlertRow(w.status, w.startsAt, w.endsAt)
      ensures incidents == old(incidents)[w.dedupKey := incidents[w.dedupKey]]
      ensures alerts == old(alerts)[Pair(w.dedupKey, w.fingerprint) := alerts[Pair(w.dedupKey, w.fingerprint)]]
      ensures snapshots == old(snapshots) && reports == old(reports)
    {
      UpsertIncident(w);
      Advance(WebhookArrives(id, w));
      duplicate := UpsertIncidentAlert(w);
      Advance(WebhookStoresAlert(id));
      job := None;
      if w.status == RESOLVED || duplicate { return; }
      job := Some(|jobs|);
      jobs := jobs + [NewJob(cfg, w, now)];
      Advance(WebhookCreatesJob(id, now));
    }

    // ---------- One statement of a runner each, with the protocol step it is ----------

    /** Runner `r` stands at `pc`, working on job `j`. */
    ghost predicate Standing(r: nat, j: nat, pc: Pc)
      reads this
    {
      Valid() && r in st.runners && st.runners[r].pc == pc && (InBody(pc) || pc.Handling?) && pc.job == j < |jobs|
    }

    ghost method Raise(r: nat, j: nat)
      requires r in st.runners && Standing(r, j, st.runners[r].pc) && InBody(st.runners[r].pc)
      modifies this`st
      ensures Standing(r, j, Handling(j, HasReported(old(st.runners[r].pc))))
      ensures st.runners[r] == old(st.runners[r]).(pc := st.runners[r].pc)
    {
      Advance(BodyRaises(r));
    }

    ghost method Notified(r: nat, j: nat)
      requires r in st.runners && Standing(r, j, st.runners[r].pc)
      requires st.runners[r].pc.SuccessStored? || st.runners[r].pc.FailureStored?
      modifies this`st
      ensures Valid() && r in st.runners && st.runners[r] == old(st.runners[r]).(pc := Idle)
    {
      Advance(RunnerNotifies(r));
    }

    method ClaimNext(ghost r: nat, j: nat) returns (claimed: bool)
      requires Valid() && r in st.runners && st.runners[r].pc.Idle?
      requires st.runners[r].todo != [] && st.runners[r].todo[0] == j
      modifies this`jobs, this`st
      ensures Valid() && r in st.runners && claimed == (j < |old(jobs)| && old(jobs)[j].status == QUEUED)
      ensures claimed ==> Standing(r, j, Started(j))
      ensures st.runners[r] ==
        Runner(old(st.runners[r].dueAt), old(st.runners[r].todo[1..]), if claimed then Started(j) else Idle)
      ensures jobs == if claimed then old(jobs)[j := old(jobs)[j].(status := RUNNING)] else old(jobs)
    {
      claimed := MarkRcaJobRunning(j);
      Advance(RunnerClaims(r));
    }

    method CreateObservabilitySnapshot(ghost r: nat, j: nat) returns (k: nat)
      requires Standing(r, j, Started(j))
      modifies this`snapshots, this`st
      ensures k == |old(snapshots)| && Standing(r, j, Snapshotted(j, k))
      ensures st.runners[r] == old(st.runners[r]).(pc := st.runners[r].pc)
      ensures Contents() == CreateSnapshot(old(Contents()), cfg, j)
      ensures snapshots == old(snapshots) + [Snapshot(jobs[j].pair.incident, j,
        jobs[j].alertStartsAt - cfg.before, jobs[j].alertStartsAt + cfg.after)]
    {
      k := |snapshots|;
      var job := jobs[j];
      snapshots := snapshots +
        [Snapshot(job.pair.incident, j, job.alertStartsAt - cfg.before, job.alertStartsAt + cfg.after)];
      Advance(RunnerSnapshots(r));
    }

    method UpdateIncidentStatus(incident: string, status: IncidentStatus)
      modifies this`incidents
      ensures Contents() == SetIncidentStatus(old(Contents()), incident, status)
      ensures OnlyIncidentStatus(old(incidents), incidents, incident)
      ensures incident in old(incidents) ==> incidents[incident].status == status
    {
      if incident in incidents { incidents := incidents[incident := incidents[incident].(status := status)]; }
    }

    method MarkInvestigating(ghost r: nat, j: nat, ghost k: nat)
      requires Standing(r, j, Snapshotted(j, k))
      modifies this`incidents, this`st
      ensures Standing(r, j, LlmFailed(j))
      ensures st.runners[r] == old(st.runners[r]).(pc := st.runners[r].pc)
      ensures OnlyIncidentStatus(old(incidents), incidents, jobs[j].pair.incident)
      ensures jobs[j].pair.incident in old(incidents) ==> incidents[jobs[j].pair.incident].status == INVESTIGATING
    {
      UpdateIncidentStatus(jobs[j].pair.incident, INVESTIGATING);
      Advance(LlmRunFails(r));
    }

    method FinishFailed(ghost r: nat, j: nat)
      requires Standing(r, j, LlmFailed(j))
      modifies this`jobs, this`st
      ensures Standing(r, j, FailureStored(j))
      ensures st.runners[r] == old(st.runners[r]).(pc := st.runners[r].pc)
      ensures jobs == old(jobs)[j := old(jobs)[j].(status := FAILED)]
    {
      jobs := jobs[j := jobs[j].(status := FAILED)];
      Advance(RunnerStoresFailure(r));
    }

    method CreateRcaReport(ghost r: nat, j: nat, k: nat)
      requires Standing(r, j, Snapshotted(j, k))
      modifies this`reports, this`st
      ensures Standing(r, j, Reported(j, k))
      ensures st.runners[r] == old(st.runners[r]).(pc := st.runners[r].pc)
      ensures reports == old(reports) + [Report(jobs[j].pair.incident, k)]
    {
      reports := reports + [Report(jobs[j].pair.incident, k)];
      Advance(RunnerReports(r));
    }

    method MarkAnalyzed(ghost r: nat, j: nat, ghost k: nat)
      requires Standing(r, j, Reported(j, k))
      modifies this`incidents, this`st
      ensures Standing(r, j, AnalyzedStored(j, k))
      ensures st.runners[r] == old(st.runners[r]).(pc := st.runners[r].pc)
      ensures OnlyIncidentStatus(old(incidents), incidents, jobs[j].pair.incident)
      ensures jobs[j].pair.incident in old(incidents) ==> incidents[jobs[j].pair.incident].status == ANALYZED
    {
      UpdateIncidentStatus(jobs[j].pair.incident, ANALYZED);
      Advance(RunnerAnalyzed(r));
    }

    method FinishSucceeded(ghost r: nat, j: nat, ghost k: nat)
      requires Standing(r, j, AnalyzedStored(j, k))
      modifies this`jobs, this`st
      ensures Standing(r, j, SuccessStored(j, k))
      ensures st.runners[r] == old(st.runners[r]).(pc := st.runners[r].pc)
      ensures jobs == old(jobs)[j := old(jobs)[j].(status := SUCCEEDED)]
    {
      jobs := jobs[j := jobs[j].(status := SUCCEEDED)];
      Advance(RunnerStoresSuccess(r));
    }

    method FinishAfterRaise(ghost r: nat, j: nat, ghost reported: bool)
      requires Standing(r, j, Handling(j, reported))
      modifies this`jobs, this`st
      ensures Valid() && r in st.runners && st.runners[r] == old(st.runners[r]).(pc := Idle)
      ensures jobs == old(jobs)[j := old(jobs)[j].(status := FAILED)]
    {
      jobs := jobs[j := jobs[j].(status := FAILED)];
      Advance(RunnerMarksFailed(r));
    }

    // ---------- Due jobs ----------

    /** The body of one claimed job, try and except clause together. */
    method RunScheduledRcaJob(ghost r: nat, j: nat, o: JobOutcome) returns (escaped: bool)
      requires Standing(r, j, Started(j))
      modifies this
      ensures Valid() && escaped == Escapes(o)
      ensures r in st.runners && st.runners[r] == old(st.runners[r]).(pc := if escaped then RunnerDead else Idle)
      ensures jobs == old(jobs)[j := old(jobs)[j].(status := FinalStatus(o))]
      ensures JobShows(jobs[j].status, o)
      ensures IncidentShows(old(incidents), incidents, jobs[j].pair.incident, o.body) && alerts == old(alerts)
      ensures snapshots == old(snapshots) + if o.body.SnapshotRaises? then [] else [Snapshot(jobs[j].pair.incident, j,
        jobs[j].alertStartsAt - cfg.before, jobs[j].alertStartsAt + cfg.after)]
      ensures reports == old(reports) +
        if WritesReport(o.body) then [Report(jobs[j].pair.incident, |old(snapshots)|)] else []
    {
      var raised := RunBody(r, j, o.body);
      escaped := raised && o.markRaises;
      if escaped {
        Advance(RunnerDies(r));
      } else if raised {
        FinishAfterRaise(r, j, WritesReport(o.body));
      }
    }

    /** Inside the try: stops at the first raise. */
    method RunBody(ghost r: nat, j: nat, o: BodyOutcome) returns (raised: bool)
      requires Standing(r, j, Started(j))
      modifies this
      ensures raised <==> Raises(o)
      ensures raised ==> Standing(r, j, Handling(j, WritesReport(o)))
      ensures Valid() && r in st.runners
      ensures st.runners[r] == old(st.runners[r]).(pc := if raised then Handling(j, WritesReport(o)) else Idle)
      ensures OnlyStatusChanged(old(jobs), jobs, j)
      ensures jobs[j].status == BodyStatus(o)
      ensures IncidentShows(old(incidents), incidents, jobs[j].pair.incident, o) && alerts == old(alerts)
      ensures snapshots == old(snapshots) + if o.SnapshotRaises? then [] else [Snapshot(jobs[j].pair.incident, j,
        jobs[j].alertStartsAt - cfg.before, jobs[j].alertStartsAt + cfg.after)]
      ensures reports == old(reports) +
        if WritesReport(o) then [Report(jobs[j].pair.incident, |old(snapshots)|)] else []
    {
      raised := Raises(o);
      StartedIsRunning(st, cfg, r);
      JobHasIncident(st, cfg, j);
      if o.SnapshotRaises? { Raise(r, j); return; }
      var k := CreateObservabilitySnapshot(r, j);
      FinishWithSnapshot(r, j, k, o);
    }

    /** The rest of the body once the snapshot is stored. */
    method FinishWithSnapshot(ghost r: nat, j: nat, k: nat, o: BodyOutcome)
      requires Standing(r, j, Snapshotted(j, k)) && WritesSnapshot(o)
      modifies this`incidents, this`jobs, this`reports, this`st
      ensures Raises(o) ==> Standing(r, j, Handling(j, WritesReport(o)))
      ensures Valid() && r in st.runners
      ensures st.runners[r] == old(st.runners[r]).(pc := if Raises(o) then Handling(j, WritesReport(o)) else Idle)
      ensures OnlyStatusChanged(old(jobs), jobs, j)
      ensures jobs[j].status == if BodyStatus(o) == RUNNING then old(jobs)[j].status else BodyStatus(o)
      ensures reports == old(reports) + if WritesReport(o) then [Report(jobs[j].pair.incident, k)] else []
      ensures jobs[j].pair.incident in old(incidents) ==>
        IncidentShows(old(incidents), incidents, jobs[j].pair.incident, o)
    {
      if o.LlmRaises? || o.ReportRaises? { Raise(r, j); return; }
      if o.LlmRejected? {
        FinishRejected(r, j, k, o.stop);
        return;
      }
      CreateRcaReport(r, j, k);
      FinishBody(r, j, k, o);
    }

    /** No report: incident INVESTIGATING, job FAILED, dashboard notification. */
    method FinishRejected(ghost r: nat, j: nat, ghost k: nat, stop: RejectedStop)
      requires Standing(r, j, Snapshotted(j, k))
      modifies this`incidents, this`jobs, this`st
      ensures !stop.NoRaise? ==> Standing(r, j, Handling(j, false))
      ensures Valid() && r in st.runners
      ensures st.runners[r] == old(st.runners[r]).(pc := if stop.NoRaise? then Idle else Handling(j, false))
      ensures OnlyStatusChanged(old(jobs), jobs, j)
      ensures stop.NoRaise? || stop.DashboardRaises? ==> jobs[j].status == FAILED
      ensures stop.InvestigatingRaises? || stop.FinishFailedRaises? ==> jobs == old(jobs)
      ensures jobs[j].pair.incident in old(incidents) ==>
        IncidentShows(old(incidents), incidents, jobs[j].pair.incident, LlmRejected(stop))
    {
      if stop.InvestigatingRaises? { Raise(r, j); return; }
      MarkInvestigating(r, j, k);
      if stop.FinishFailedRaises? { Raise(r, j); return; }
      FinishFailed(r, j);
      if stop.DashboardRaises? { Raise(r, j); } else { Notified(r, j); }
    }

    /** After the report: incident ANALYZED, job SUCCEEDED, notifications. */
    method FinishBody(ghost r: nat, j: nat, ghost k: nat, o: BodyOutcome)
      requires Standing(r, j, Reported(j, k)) && WritesReport(o)
      modifies this`incidents, this`jobs, this`st
      ensures !o.Completes? ==> Standing(r, j, Handling(j, true))
      ensures Valid() && r in st.runners
      ensures st.runners[r] == old(st.runners[r]).(pc := if o.Completes? then Idle else Handling(j, true))
      ensures OnlyStatusChanged(old(jobs), jobs, j)
      ensures jobs[j].status == if BodyStatus(o) == RUNNING then old(jobs)[j].status else BodyStatus(o)
      ensures jobs[j].pair.incident in old(incidents) ==>
        IncidentShows(old(incidents), incidents, jobs[j].pair.incident, o)
    {
      if o.AnalyzedRaises? { Raise(r, j); return; }
      MarkAnalyzed(r, j, k);
      if o.FinishRaises? { Raise(r, j); return; }
      FinishSucceeded(r, j, k);
      if o.NotificationRaises? { Raise(r, j); } else { Notified(r, j); }
    }

    /** Lists once, then claims and runs job after job; `outcomes` says how each ends. */
    method RunDueRcaJobs(ghost r: nat, dueAt: Time, limit: int, outcomes: nat -> JobOutcome)
      returns (processed: seq<nat>, escaped: bool, ghost listing: seq<nat>)
      requires Valid() && r !in st.runners
      modifies this
      ensures Valid()
      ensures IsDueListing(old(Contents()), dueAt, Clamp(limit), listing)
      ensures RunInOrder(processed, listing, outcomes, escaped)
      ensures Processed(old(jobs), jobs, processed, outcomes)
    {
      var due := ListForRunner(r, dueAt, limit);
      FreshListingIsClaimable(Contents(), dueAt, Clamp(limit), due);
      processed, escaped := RunListed(r, due, outcomes);
      listing := due;
    }

    /** The loop over a listing that may be stale: whatever happened since it was made, exactly the jobs
        still QUEUED are run, each once and in order, and the others are skipped, until one escapes. */
    method RunListed(ghost r: nat, listing: seq<nat>, outcomes: nat -> JobOutcome)
      returns (processed: seq<nat>, escaped: bool)
      requires Valid() && r in st.runners && st.runners[r].pc.Idle? && st.runners[r].todo == listing
      modifies this
      ensures Valid()
      ensures RunInOrder(processed, Claimable(old(jobs), listing, |listing|), outcomes, escaped)
      ensures Processed(old(jobs), jobs, processed, outcomes)
    {
      processed, escaped := [], false;
      ghost var dueAt := st.runners[r].dueAt;
      for i := 0 to |listing|
        invariant Valid() && !escaped
        invariant r in st.runners && st.runners[r] == Runner(dueAt, listing[i..], Idle)
        invariant Midway(old(jobs), jobs, listing, i, processed, outcomes)
        invariant NoneEscapes(processed, outcomes)
      {
        var j := listing[i];
        assert listing[i..][1..] == listing[i + 1..];
        ghost var before := jobs;
        var claimed;
        claimed, escaped := ProcessOne(r, j, outcomes(j));
        MidwayNext(old(jobs), before, jobs, listing, i, processed, claimed, outcomes);
        if claimed { processed := processed + [j]; }
        if escaped {
          ClaimableGrows(old(jobs), listing, i + 1, |listing|);
          return;
        }
      }
    }

    /** Claims the next listed job and runs its body, or skips it if the claim is lost. */
    method ProcessOne(ghost r: nat, j: nat, o: JobOutcome) returns (claimed: bool, escaped: bool)
      requires Valid() && r in st.runners && st.runners[r].pc.Idle?
      requires st.runners[r].todo != [] && st.runners[r].todo[0] == j
      modifies this
      ensures Valid() && r in st.runners && claimed == (j < |old(jobs)| && old(jobs)[j].status == QUEUED)
      ensures escaped == (claimed && Escapes(o))
      ensures st.runners[r] ==
        Runner(old(st.runners[r].dueAt), old(st.runners[r].todo[1..]), if escaped then RunnerDead else Idle)
      ensures jobs == if claimed then old(jobs)[j := old(jobs)[j].(status := FinalStatus(o))] else old(jobs)
      ensures !claimed ==> Contents() == old(Contents())
    {
      claimed := ClaimNext(r, j);
      escaped := false;
      if claimed { escaped := RunScheduledRcaJob(r, j, o); }
    }

    method ListForRunner(ghost r: nat, dueAt: Time, limit: int) returns (listing: seq<nat>)
      requires Valid() && r !in st.runners
      modifies this`st
      ensures Valid() && r in st.runners && st.runners[r] == Runner(dueAt, listing, Idle)
      ensures IsDueListing(Contents(), dueAt, Clamp(limit), listing)
    {
      listing := ListDueRcaJobs(dueAt, Clamp(limit));
      Advance(RunnerLists(r, dueAt, limit, listing));
    }
  }

  /** Of the first `n` listed jobs, those still there to be claimed. */
  function Claimable(jobs: seq<Job>, listing: seq<nat>, n: nat): seq<nat>
    requires n <= |listing|
  {
    if n == 0 then []
    else
      var j := listing[n - 1];
      Claimable(jobs, listing, n - 1)
        + if j < |jobs| && jobs[j].status == QUEUED && j !in listing[..n - 1] then [j] else []
  }

  lemma {:induction false} ClaimableMembers(jobs: seq<Job>, listing: seq<nat>, n: nat, j: nat)
    requires n <= |listing|
    ensures j in Claimable(jobs, listing, n) <==> j in listing[..n] && j < |jobs| && jobs[j].status == QUEUED
  {
    if n > 0 {
      ClaimableMembers(jobs, listing, n - 1, j);
      assert listing[..n] == listing[..n - 1] + [listing[n - 1]];
    }
  }

  lemma StartedIsRunning(s: State, cfg: Config, r: nat)
    requires Reachable(s, cfg) && r in s.runners && s.runners[r].pc.Started?
    ensures s.runners[r].pc.job < |s.db.jobs| && s.db.jobs[s.runners[r].pc.job].status == RUNNING
  {
    ReachableInv(s, cfg);
  }

  predicate NoneEscapes(processed: seq<nat>, outcomes: nat -> JobOutcome) {
    forall k :: 0 <= k < |processed| ==> !Escapes(outcomes(processed[k]))
  }

  /** The loop after `i` listed jobs. */
  predicate Midway(before: seq<Job>, now: seq<Job>, listing: seq<nat>, i: nat, processed: seq<nat>,
                   outcomes: nat -> JobOutcome)
    requires i <= |listing|
  {
    processed == Claimable(before, listing, i) && Processed(before, now, processed, outcomes)
  }

  lemma MidwayNext(before: seq<Job>, now: seq<Job>, next: seq<Job>, listing: seq<nat>, i: nat, processed: seq<nat>,
                   claimed: bool, outcomes: nat -> JobOutcome)
    requires i < |listing| && Midway(before, now, listing, i, processed, outcomes)
    requires var j := listing[i];
      && claimed == (j < |now| && now[j].status == QUEUED)
      && next == if claimed then now[j := now[j].(status := FinalStatus(outcomes(j)))] else now
    ensures Midway(before, next, listing, i + 1, processed + if claimed then [listing[i]] else [], outcomes)
  {
    var j := listing[i];
    ClaimableMembers(before, listing, i, j);
    assert j < |before| && j in processed ==> now[j].status == FinalStatus(outcomes(j)) != QUEUED;
    assert !claimed ==> processed + [] == processed;
  }

  lemma {:induction false} ClaimableGrows(jobs: seq<Job>, listing: seq<nat>, n: nat, m: nat)
    requires n <= m <= |listing|
    ensures Claimable(jobs, listing, n) <= Claimable(jobs, listing, m)
    decreases m
  {
    if n < m { ClaimableGrows(jobs, listing, n, m - 1); }
  }

  /** A listing names a due job once only. */
  lemma ListedOnce(db: Db, dueAt: Time, limit: nat, listing: seq<nat>, i: nat)
    requires IsDueListing(db, dueAt, limit, listing) && i < |listing|
    ensures IsDue(db, listing[i], dueAt) && listing[i] !in listing[..i]
  {
    assert IsDue(db, listing[i], dueAt);
    forall k | 0 <= k < i ensures listing[k] != listing[i] {
      assert Before(db, listing[k], listing[i]);
    }
  }

  predicate QueuedOnce(jobs: seq<Job>, listing: seq<nat>, i: nat)
    requires i < |listing|
  {
    listing[i] < |jobs| && jobs[listing[i]].status == QUEUED && listing[i] !in listing[..i]
  }

  lemma {:induction false} QueuedPrefixIsClaimable(jobs: seq<Job>, listing: seq<nat>, n: nat)
    requires n <= |listing| && forall i :: 0 <= i < |listing| ==> QueuedOnce(jobs, listing, i)
    ensures Claimable(jobs, listing, n) == listing[..n]
  {
    if n > 0 {
      QueuedPrefixIsClaimable(jobs, listing, n - 1);
      assert QueuedOnce(jobs, listing, n - 1);
      assert listing[..n] == listing[..n - 1] + [listing[n - 1]];
    }
  }

  /** While nobody else moves, everything listed can be claimed. */
  lemma FreshListingIsClaimable(db: Db, dueAt: Time, limit: nat, listing: seq<nat>)
    requires IsDueListing(db, dueAt, limit, listing)
    ensures Claimable(db.jobs, listing, |listing|) == listing
  {
    forall i | 0 <= i < |listing| ensures QueuedOnce(db.jobs, listing, i) {
      ListedOnce(db, dueAt, limit, listing, i);
    }
    QueuedPrefixIsClaimable(db.jobs, listing, |listing|);
    assert listing[..|listing|] == listing;
  }
}
