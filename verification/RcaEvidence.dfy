/** What a job's evidence is worth: an analysed incident has a report, and exactly which jobs can be
    started before the window their snapshot covers has ended. */
module RcaEvidence {
  import opened Options
  import opened RcaProtocol
  import opened RcaInvariants

  // ---------- Analysed incidents ----------

  ghost predicate ReportedOn(db: Db, incident: string) {
    exists r :: 0 <= r < |db.reports| && db.reports[r].incident == incident
  }

  ghost predicate AnalyzedAreReported(db: Db) {
    forall i :: i in db.incidents && db.incidents[i].status == ANALYZED ==> ReportedOn(db, i)
  }

  lemma ReportsStay(db: Db, after: Db, incident: string)
    requires db.reports <= after.reports && ReportedOn(db, incident)
    ensures ReportedOn(after, incident)
  {
    var r :| 0 <= r < |db.reports| && db.reports[r].incident == incident;
    assert after.reports[r].incident == incident;
  }

  /** No step but `RunnerAnalyzed` makes an incident ANALYZED, and no step removes a report. */
  lemma OthersAnalyzeNothing(s: State, cfg: Config, step: Step)
    requires Enabled(s, step) && !step.RunnerAnalyzed?
    ensures var t := Next(s, cfg, step);
      && s.db.reports <= t.db.reports
      && forall i :: i in t.db.incidents && t.db.incidents[i].status == ANALYZED ==>
           i in s.db.incidents && s.db.incidents[i].status == ANALYZED
  {
  }

  lemma AnalyzingIsReported(s: State, cfg: Config, r: nat)
    requires InvJobs(s, cfg) && Working(s, r) && s.runners[r].pc.Reported?
    ensures ReportedOn(s.db, s.db.jobs[s.runners[r].pc.job].pair.incident)
  {
    var j := s.runners[r].pc.job;
    assert ReportOf(s, j, s.h.phases[j].snapshot, s.h.phases[j].report);
  }

  lemma StepKeepsAnalyzed(s: State, cfg: Config, step: Step)
    requires Inv(s, cfg) && AnalyzedAreReported(s.db) && Enabled(s, step)
    ensures AnalyzedAreReported(Next(s, cfg, step).db)
  {
    var t := Next(s, cfg, step);
    if step.RunnerAnalyzed? {
      AnalyzingIsReported(s, cfg, step.runner);
      forall i | ReportedOn(s.db, i) ensures ReportedOn(t.db, i) { ReportsStay(s.db, t.db, i); }
    } else {
      OthersAnalyzeNothing(s, cfg, step);
      forall i | ReportedOn(s.db, i) ensures ReportedOn(t.db, i) { ReportsStay(s.db, t.db, i); }
    }
  }

  lemma {:induction false} RunKeepsAnalyzed(s: State, cfg: Config, steps: seq<Step>, t: State)
    requires Inv(s, cfg) && AnalyzedAreReported(s.db) && IsRun(s, cfg, steps, t)
    ensures AnalyzedAreReported(t.db)
    decreases |steps|
  {
    if steps != [] {
      StepKeepsInv(s, cfg, steps[0]);
      StepKeepsAnalyzed(s, cfg, steps[0]);
      RunKeepsAnalyzed(Next(s, cfg, steps[0]), cfg, steps[1..], t);
    }
  }

  /** In every reachable state an incident that shows ANALYZED has a report. */
  lemma AnalyzedIncidentHasReport(s: State, cfg: Config)
    requires Reachable(s, cfg)
    ensures AnalyzedAreReported(s.db)
  {
    var steps :| IsRun(INIT, cfg, steps, s);
    RunKeepsAnalyzed(INIT, cfg, steps, s);
  }

  // ---------- Every job's incident exists ----------

  predicate HandlersKnown(s: State) {
    forall id :: id in s.handlers ==> s.handlers[id].w.dedupKey in s.db.incidents
  }

  lemma StepKeepsKnown(s: State, cfg: Config, step: Step)
    requires HandlersKnown(s) && Enabled(s, step)
    ensures HandlersKnown(Next(s, cfg, step))
  {
  }

  lemma {:induction false} RunKeepsKnown(s: State, cfg: Config, steps: seq<Step>, t: State)
    requires HandlersKnown(s) && IsRun(s, cfg, steps, t)
    ensures HandlersKnown(t)
    decreases |steps|
  {
    if steps != [] {
      StepKeepsKnown(s, cfg, steps[0]);
      RunKeepsKnown(Next(s, cfg, steps[0]), cfg, steps[1..], t);
    }
  }

  lemma JobHasIncident(s: State, cfg: Config, j: nat)
    requires Reachable(s, cfg) && j < |s.db.jobs|
    ensures s.db.jobs[j].pair.incident in s.db.incidents
  {
    var steps :| IsRun(INIT, cfg, steps, s);
    RunKeepsKnown(INIT, cfg, steps, s);
    ReachableInv(s, cfg);
    assert FirstCompleted(s, s.db.jobs[j].pair);
  }

  // ---------- Later states ----------

  ghost predicate Follows(s: State, t: State, cfg: Config) { exists steps :: IsRun(s, cfg, steps, t) }

  lemma FollowsNext(s: State, t: State, cfg: Config, step: Step)
    requires Follows(s, t, cfg) && Enabled(t, step)
    ensures Follows(s, Next(t, cfg, step), cfg)
  {
    var steps :| IsRun(s, cfg, steps, t);
    RunExtends(s, cfg, steps, t, step);
  }

  lemma {:induction false} RunReaches(s: State, cfg: Config, steps: seq<Step>, t: State)
    requires Reachable(s, cfg) && IsRun(s, cfg, steps, t)
    ensures Reachable(t, cfg)
    decreases |steps|
  {
    if steps != [] {
      ReachableNext(s, cfg, steps[0]);
      RunReaches(Next(s, cfg, steps[0]), cfg, steps[1..], t);
    }
  }

  lemma {:induction false} RunJoins(s: State, cfg: Config, first: seq<Step>, m: State, second: seq<Step>, t: State)
    requires IsRun(s, cfg, first, m) && IsRun(m, cfg, second, t)
    ensures IsRun(s, cfg, first + second, t)
    decreases |first|
  {
    if first == [] {
      assert first + second == second;
    } else {
      assert (first + second)[1..] == first[1..] + second;
      RunJoins(Next(s, cfg, first[0]), cfg, first[1..], m, second, t);
    }
  }

  lemma FollowsJoins(s: State, m: State, t: State, cfg: Config)
    requires Follows(s, m, cfg) && Follows(m, t, cfg)
    ensures Follows(s, t, cfg)
  {
    var first :| IsRun(s, cfg, first, m);
    var second :| IsRun(m, cfg, second, t);
    RunJoins(s, cfg, first, m, second, t);
  }

  /** Jobs are only added, and of a job only the status ever changes. */
  predicate SameJobs(s: Db, t: Db) {
    && |s.jobs| <= |t.jobs|
    && forall j :: 0 <= j < |s.jobs| ==> t.jobs[j] == s.jobs[j].(status := t.jobs[j].status)
  }

  lemma StatusKeepsJobs(db: Db, j: nat, status: JobStatus)
    ensures SameJobs(db, SetStatus(db, j, status))
  {
  }

  lemma StepKeepsJobs(s: State, cfg: Config, step: Step)
    requires Enabled(s, step)
    ensures SameJobs(s.db, Next(s, cfg, step).db)
  {
    var t := Next(s, cfg, step);
    match step
    case WebhookCreatesJob(id, now) =>
    case RunnerClaims(r) => StatusKeepsJobs(s.db, s.runners[r].todo[0], RUNNING);
    case RunnerStoresFailure(r) => StatusKeepsJobs(s.db, s.runners[r].pc.job, FAILED);
    case RunnerStoresSuccess(r) => StatusKeepsJobs(s.db, s.runners[r].pc.job, SUCCEEDED);
    case RunnerMarksFailed(r) => StatusKeepsJobs(s.db, s.runners[r].pc.job, FAILED);
    case _ => assert t.db.jobs == s.db.jobs;
  }

  lemma {:induction false} RunKeepsJobs(s: State, cfg: Config, steps: seq<Step>, t: State)
    requires IsRun(s, cfg, steps, t)
    ensures SameJobs(s.db, t.db)
    decreases |steps|
  {
    if steps != [] {
      StepKeepsJobs(s, cfg, steps[0]);
      RunKeepsJobs(Next(s, cfg, steps[0]), cfg, steps[1..], t);
    }
  }

  // ---------- A queued job can be started the moment it falls due ----------

  lemma {:induction false} FreshId(ids: set<nat>) returns (id: nat)
    ensures forall i :: i in ids ==> i < id
  {
    if ids == {} { return 0; }
    var i :| i in ids;
    var rest := FreshId(ids - {i});
    id := if rest <= i then i + 1 else rest;
    forall k | k in ids ensures k < id { assert k == i || k in ids - {i}; }
  }

  /** The first due job among the first `n`. */
  lemma {:induction false} EarliestDue(db: Db, dueAt: Time, n: nat) returns (e: int)
    requires n <= |db.jobs|
    ensures -1 <= e < n && (e >= 0 ==> IsDue(db, e, dueAt))
    ensures forall j: nat :: j < n && IsDue(db, j, dueAt) && j != e ==> e >= 0 && Before(db, e, j)
  {
    if n == 0 { return -1; }
    e := EarliestDue(db, dueAt, n - 1);
    if IsDue(db, n - 1, dueAt) && (e == -1 || db.jobs[n - 1].scheduledAt < db.jobs[e].scheduledAt) { e := n - 1; }
  }

  function QueuedCount(jobs: seq<Job>): nat {
    if jobs == [] then 0 else (if jobs[0].status == QUEUED then 1 else 0) + QueuedCount(jobs[1..])
  }

  lemma {:induction false} FewerQueued(jobs: seq<Job>, j: nat, job: Job)
    requires j < |jobs| && jobs[j].status == QUEUED && job.status != QUEUED
    ensures QueuedCount(jobs[j := job]) < QueuedCount(jobs)
  {
    var after := jobs[j := job];
    if j == 0 {
      assert after[1..] == jobs[1..];
    } else {
      assert after[1..] == jobs[1..][j - 1 := job];
      FewerQueued(jobs[1..], j - 1, job);
    }
  }

  /** A new runner lists at `dueAt` with limit one and claims the first due job. */
  lemma ClaimEarliest(s: State, cfg: Config, dueAt: Time, e: nat) returns (r: nat, t: State)
    requires IsDueListing(s.db, dueAt, 1, [e])
    ensures Follows(s, t, cfg) && r in t.runners && t.runners[r] == Runner(dueAt, [], Started(e))
    ensures t.db == SetStatus(s.db, e, RUNNING) && t.h.starts == s.h.starts + [Start(e, dueAt)]
  {
    r := FreshId(s.runners.Keys);
    assert IsRun(s, cfg, [], s);
    assert IsDue(s.db, [e][0], dueAt);
    FollowsNext(s, s, cfg, RunnerLists(r, dueAt, 1, [e]));
    var listed := Next(s, cfg, RunnerLists(r, dueAt, 1, [e]));
    FollowsNext(s, listed, cfg, RunnerClaims(r));
    t := Claim(listed, r);
    assert [e][1..] == [];
  }

  /** Some body of `j` started for `dueAt`, and its snapshot was taken. */
  ghost predicate StartedFor(s: State, j: nat, dueAt: Time) {
    && (exists k :: 0 <= k < |s.h.starts| && s.h.starts[k] == Start(j, dueAt))
    && (exists i :: 0 <= i < |s.db.snapshots| && s.db.snapshots[i].job == j)
  }

  lemma SnapshotNext(s: State, t: State, cfg: Config, r: nat, j: nat, dueAt: Time) returns (u: State)
    requires Follows(s, t, cfg) && r in t.runners && t.runners[r].pc == Started(j) && j < |t.db.jobs|
    requires Start(j, dueAt) in t.h.starts
    ensures Follows(s, u, cfg) && StartedFor(u, j, dueAt)
  {
    FollowsNext(s, t, cfg, RunnerSnapshots(r));
    u := TakeSnapshot(t, cfg, r);
    assert u.h.starts == t.h.starts;
    assert u.db.snapshots[|t.db.snapshots|].job == j;
  }

  /** From every state with job `j` queued there is a run that starts it for exactly its scheduled
      time: the jobs due before it are claimed first, one by one. */
  lemma {:induction false} QueuedCanStartWhenDue(s: State, cfg: Config, j: nat) returns (t: State)
    requires j < |s.db.jobs| && s.db.jobs[j].status == QUEUED
    ensures Follows(s, t, cfg) && StartedFor(t, j, s.db.jobs[j].scheduledAt)
    decreases QueuedCount(s.db.jobs)
  {
    var dueAt := s.db.jobs[j].scheduledAt;
    var e := EarliestDue(s.db, dueAt, |s.db.jobs|);
    assert IsDue(s.db, j, dueAt);
    assert forall i: nat :: IsDue(s.db, i, dueAt) ==> i < |s.db.jobs|;
    assert IsDueListing(s.db, dueAt, 1, [e]);
    var r, m := ClaimEarliest(s, cfg, dueAt, e);
    if e == j {
      assert m.h.starts[|s.h.starts|] == Start(j, dueAt);
      t := SnapshotNext(s, m, cfg, r, j, dueAt);
    } else {
      FewerQueued(s.db.jobs, e, s.db.jobs[e].(status := RUNNING));
      t := QueuedCanStartWhenDue(m, cfg, j);
      FollowsJoins(s, m, t, cfg);
    }
  }

  // ---------- Early starts ----------

  /** A body of `j` started for a due time before the end of the window its snapshot covers. */
  ghost predicate StartedEarly(s: State, j: nat) {
    exists k, i :: 0 <= k < |s.h.starts| && 0 <= i < |s.db.snapshots|
      && s.h.starts[k].job == j && s.db.snapshots[i].job == j && s.h.starts[k].dueAt < s.db.snapshots[i].timeEnd
  }

  /** The two clock readings of the job's schedule and of its stored start lie apart. */
  predicate HasGap(job: Job, cfg: Config) { job.scheduledAt < job.alertStartsAt + cfg.after }

  lemma SnapshotCoversWindow(s: State, cfg: Config, i: nat)
    requires Reachable(s, cfg) && i < |s.db.snapshots|
    ensures var j := s.db.snapshots[i].job;
      j < |s.db.jobs| && s.db.snapshots[i].timeEnd == s.db.jobs[j].alertStartsAt + cfg.after
  {
    ReachableInv(s, cfg);
    var j := s.db.snapshots[i].job;
    assert SnapshotOf(s, cfg, j, s.h.phases[j].snapshot);
  }

  /** For every start and every snapshot of its job: without a gap the window had ended. */
  lemma NoGapNoEarlyStart(s: State, cfg: Config, j: nat)
    requires Reachable(s, cfg) && StartedEarly(s, j)
    ensures j < |s.db.jobs| && HasGap(s.db.jobs[j], cfg)
  {
    var k, i :| 0 <= k < |s.h.starts| && 0 <= i < |s.db.snapshots|
      && s.h.starts[k].job == j && s.db.snapshots[i].job == j && s.h.starts[k].dueAt < s.db.snapshots[i].timeEnd;
    ReachableInv(s, cfg);
    SnapshotCoversWindow(s, cfg, i);
  }

  ghost predicate CanStartEarly(s: State, cfg: Config, j: nat) {
    exists t :: Follows(s, t, cfg) && StartedEarly(t, j)
  }

  /** Exactly which queued jobs can be started early. */
  lemma EarlyStartIff(s: State, cfg: Config, j: nat)
    requires Reachable(s, cfg) && j < |s.db.jobs| && s.db.jobs[j].status == QUEUED
    ensures CanStartEarly(s, cfg, j) <==> HasGap(s.db.jobs[j], cfg)
  {
    forall t | Follows(s, t, cfg)
      ensures Reachable(t, cfg) && SameJobs(s.db, t.db)
    {
      var steps :| IsRun(s, cfg, steps, t);
      RunReaches(s, cfg, steps, t);
      RunKeepsJobs(s, cfg, steps, t);
    }
    if CanStartEarly(s, cfg, j) {
      var t :| Follows(s, t, cfg) && StartedEarly(t, j);
      NoGapNoEarlyStart(t, cfg, j);
    }
    if HasGap(s.db.jobs[j], cfg) {
      var t := QueuedCanStartWhenDue(s, cfg, j);
      var k :| 0 <= k < |t.h.starts| && t.h.starts[k] == Start(j, s.db.jobs[j].scheduledAt);
      var i :| 0 <= i < |t.db.snapshots| && t.db.snapshots[i].job == j;
      SnapshotCoversWindow(t, cfg, i);
      assert StartedEarly(t, j);
    }
  }
}
