/** The root-cause-analysis job protocol: the tables, and the atomic database steps that webhook
    handlers and job runners interleave.  One step is one committed statement of one participant;
    between two steps of a participant any other participant may move, or it may die. */
module RcaProtocol {
  import opened Options

  /** Clock ticks, as fine as the clock resolves, since some epoch. */
  type Time = int

  datatype AlertStatus = FIRING | RESOLVED
  datatype IncidentStatus = INC_FIRING | INC_RESOLVED | INVESTIGATING | ANALYZED
  datatype JobStatus = QUEUED | RUNNING | SUCCEEDED | FAILED

  /** `rca_default_before_minutes` and `rca_default_after_minutes` in ticks; both are validated to be
      >= 0. */
  datatype Config = Config(before: nat, after: nat)

  /** What `handle_alertmanager_webhook` extracts from one request. */
  datatype Webhook = Webhook(dedupKey: string, fingerprint: string, status: AlertStatus,
                             startsAt: Option<Time>, endsAt: Option<Time>)

  // ---------- Tables ----------

  /** `dedup_key` is unique, so it names the incident; (incident, fingerprint) names the alert row. */
  datatype Incident = Incident(status: IncidentStatus, startsAt: Option<Time>, endsAt: Option<Time>)
  datatype Pair = Pair(incident: string, fingerprint: string)
  datatype AlertRow = AlertRow(status: AlertStatus, startsAt: Option<Time>, endsAt: Option<Time>)

  /** A row of `job_runs` with the parts of its context that the runner reads. */
  datatype Job = Job(status: JobStatus, pair: Pair, scheduledAt: Time,
                     reportedStart: Option<Time>, alertStartsAt: Time, windowStart: Time, windowEnd: Time)
  datatype Snapshot = Snapshot(incident: string, job: nat, timeStart: Time, timeEnd: Time)
  datatype Report = Report(incident: string, snapshot: nat)

  /** Rows of the last three tables are named by their position, in creation order. */
  datatype Db = Db(incidents: map<string, Incident>, alerts: map<Pair, AlertRow>,
                   jobs: seq<Job>, snapshots: seq<Snapshot>, reports: seq<Report>)

  const EMPTY_DB := Db(map[], map[], [], [], [])

  function PairOf(w: Webhook): Pair { Pair(w.dedupKey, w.fingerprint) }

  function Coalesce<T>(a: Option<T>, b: Option<T>): Option<T> { if a.Some? then a else b }

  /** Insert, or overwrite everything except the first known start. */
  function UpsertIncident(db: Db, w: Webhook): Db {
    var known := if w.dedupKey in db.incidents then db.incidents[w.dedupKey].startsAt else None;
    var status := if w.status == RESOLVED then INC_RESOLVED else INC_FIRING;
    var row := Incident(status, Coalesce(known, w.startsAt), w.endsAt);
    db.(incidents := db.incidents[w.dedupKey := row])
  }

  /** Insert-or-update of the alert row; the flag says whether the row was there before. */
  function UpsertAlert(db: Db, w: Webhook): (Db, bool) {
    (db.(alerts := db.alerts[PairOf(w) := AlertRow(w.status, w.startsAt, w.endsAt)]), PairOf(w) in db.alerts)
  }

  /** The clock readings taken while a job is built, in program order; they matter only when the
      alert carried no start. */
  datatype Readings = Readings(schedule: Time, stored: Time, windowStart: Time, windowEnd: Time)

  function Or(a: Option<Time>, fallback: Time): Time { if a.Some? then a.value else fallback }

  function NewJob(cfg: Config, w: Webhook, now: Readings): Job {
    Job(QUEUED, PairOf(w),
      Or(w.startsAt, now.schedule) + cfg.after,
      w.startsAt,
      Or(w.startsAt, now.stored),
      Or(w.startsAt, now.windowStart) - cfg.before,
      Or(w.startsAt, now.windowEnd) + cfg.after)
  }

  function CreateJob(db: Db, job: Job): Db { db.(jobs := db.jobs + [job]) }

  predicate IsDue(db: Db, j: nat, dueAt: Time) {
    j < |db.jobs| && db.jobs[j].status == QUEUED && db.jobs[j].scheduledAt <= dueAt
  }

  /** `order by scheduled_at, created_at`. */
  predicate Before(db: Db, i: nat, j: nat)
    requires i < |db.jobs| && j < |db.jobs|
  {
    db.jobs[i].scheduledAt < db.jobs[j].scheduledAt || (db.jobs[i].scheduledAt == db.jobs[j].scheduledAt && i < j)
  }

  function Clamp(limit: int): (r: nat)
    ensures 1 <= r <= 50 && (1 <= limit <= 50 ==> r == limit)
    ensures (limit < 1 ==> r == 1) && (limit > 50 ==> r == 50)
  {
    if limit < 1 then 1 else if limit > 50 then 50 else limit
  }

  /** The first `limit` due jobs in order. */
  ghost predicate IsDueListing(db: Db, dueAt: Time, limit: nat, listing: seq<nat>) {
    && |listing| <= limit
    && (forall i :: 0 <= i < |listing| ==> IsDue(db, listing[i], dueAt))
    && (forall i, k :: 0 <= i < k < |listing| ==> Before(db, listing[i], listing[k]))
    && (forall j: nat :: IsDue(db, j, dueAt) && j !in listing ==>
          |listing| == limit && forall i :: 0 <= i < |listing| ==> Before(db, listing[i], j))
  }

  /** The compare-and-swap QUEUED -> RUNNING. */
  function MarkRunning(db: Db, j: nat): (Db, bool) {
    if j < |db.jobs| && db.jobs[j].status == QUEUED
    then (SetStatus(db, j, RUNNING), true)
    else (db, false)
  }

  function SetStatus(db: Db, j: nat, status: JobStatus): Db {
    if j < |db.jobs| then db.(jobs := db.jobs[j := db.jobs[j].(status := status)]) else db
  }

  function CreateSnapshot(db: Db, cfg: Config, j: nat): Db
    requires j < |db.jobs|
  {
    var job := db.jobs[j];
    db.(snapshots := db.snapshots +
      [Snapshot(job.pair.incident, j, job.alertStartsAt - cfg.before, job.alertStartsAt + cfg.after)])
  }

  function CreateReport(db: Db, incident: string, snapshot: nat): Db {
    db.(reports := db.reports + [Report(incident, snapshot)])
  }

  function SetIncidentStatus(db: Db, incident: string, status: IncidentStatus): Db {
    if incident in db.incidents
    then db.(incidents := db.incidents[incident := db.incidents[incident].(status := status)])
    else db
  }

  // ---------- Participants ----------

  datatype Handler =
    | StoringAlert(w: Webhook)   // incident upserted
    | CreatingJob(w: Webhook)    // first FIRING alert: notified, the job comes next
    | Replied(w: Webhook)        // the response has been sent
    | HandlerDead(w: Webhook)

  datatype Pc =
    | Idle
    | Started(job: nat)                        // claimed; inside the try
    | Snapshotted(job: nat, snapshot: nat)
    | LlmFailed(job: nat)                      // incident INVESTIGATING
    | FailureStored(job: nat)                  // FAILED written; dashboard notification next
    | Reported(job: nat, snapshot: nat)
    | AnalyzedStored(job: nat, snapshot: nat)  // incident ANALYZED
    | SuccessStored(job: nat, snapshot: nat)   // SUCCEEDED written; notifications next
    | Handling(job: nat, reported: bool)       // in the except clause
    | RunnerDead

  datatype Runner = Runner(dueAt: Time, todo: seq<nat>, pc: Pc)

  // ---------- History: what a run has done so far, never read by the code ----------

  datatype First = First(status: AlertStatus, handler: nat)
  datatype Start = Start(job: nat, dueAt: Time)
  datatype Phase = NotStarted | Begun | HasSnapshot(snapshot: nat) | HasReport(snapshot: nat, report: nat)

  datatype History = History(
    received: seq<Webhook>,          // webhooks in the order their incident was upserted
    firsts: map<Pair, First>,        // who inserted each alert row, and with which status
    jobOf: map<Pair, nat>,
    starts: seq<Start>,              // job bodies started
    phases: seq<Phase>,              // per job
    holders: seq<Option<nat>>,       // per job, the runner that claimed it
    late: set<nat>)                  // jobs marked FAILED by the except clause after their report

  datatype State = State(db: Db, handlers: map<nat, Handler>, runners: map<nat, Runner>, h: History)

  const INIT := State(EMPTY_DB, map[], map[], History([], map[], map[], [], [], [], {}))

  datatype Step =
    | WebhookArrives(handler: nat, w: Webhook)
    | WebhookStoresAlert(handler: nat)
    | WebhookCreatesJob(handler: nat, now: Readings)
    | HandlerDies(handler: nat)
    | RunnerLists(runner: nat, dueAt: Time, limit: int, listing: seq<nat>)
    | RunnerClaims(runner: nat)
    | RunnerSnapshots(runner: nat)
    | LlmRunFails(runner: nat)
    | RunnerStoresFailure(runner: nat)
    | RunnerReports(runner: nat)
    | RunnerAnalyzed(runner: nat)
    | RunnerStoresSuccess(runner: nat)
    | RunnerNotifies(runner: nat)
    | BodyRaises(runner: nat)
    | RunnerMarksFailed(runner: nat)
    | RunnerDies(runner: nat)

  /** Inside the try block. */
  predicate InBody(pc: Pc) { !pc.Idle? && !pc.Handling? && !pc.RunnerDead? }

  predicate HasReported(pc: Pc) { pc.Reported? || pc.AnalyzedStored? || pc.SuccessStored? }

  /** Runner `r` works on an existing job. */
  predicate Working(s: State, r: nat) {
    && r in s.runners && (InBody(s.runners[r].pc) || s.runners[r].pc.Handling?)
    && s.runners[r].pc.job < |s.db.jobs|
  }

  ghost predicate Enabled(s: State, step: Step) {
    match step
    case WebhookArrives(id, w) => id !in s.handlers
    case WebhookStoresAlert(id) => id in s.handlers && s.handlers[id].StoringAlert?
    case WebhookCreatesJob(id, now) =>
      && id in s.handlers && s.handlers[id].CreatingJob?
      && now.schedule <= now.stored <= now.windowStart <= now.windowEnd
    case HandlerDies(id) => id in s.handlers && !s.handlers[id].Replied?
    case RunnerLists(r, dueAt, limit, listing) => r !in s.runners && IsDueListing(s.db, dueAt, Clamp(limit), listing)
    case RunnerClaims(r) => r in s.runners && s.runners[r].pc.Idle? && s.runners[r].todo != []
    case RunnerSnapshots(r) => Working(s, r) && s.runners[r].pc.Started?
    case LlmRunFails(r) => Working(s, r) && s.runners[r].pc.Snapshotted?
    case RunnerStoresFailure(r) => Working(s, r) && s.runners[r].pc.LlmFailed?
    case RunnerReports(r) => Working(s, r) && s.runners[r].pc.Snapshotted?
    case RunnerAnalyzed(r) => Working(s, r) && s.runners[r].pc.Reported?
    case RunnerStoresSuccess(r) => Working(s, r) && s.runners[r].pc.AnalyzedStored?
    case RunnerNotifies(r) => Working(s, r) && (s.runners[r].pc.SuccessStored? || s.runners[r].pc.FailureStored?)
    case BodyRaises(r) => Working(s, r) && InBody(s.runners[r].pc)
    case RunnerMarksFailed(r) => Working(s, r) && s.runners[r].pc.Handling?
    case RunnerDies(r) => r in s.runners
  }

  function Move(s: State, r: nat, pc: Pc): map<nat, Runner>
    requires r in s.runners
  {
    s.runners[r := s.runners[r].(pc := pc)]
  }

  function SetPhase(h: History, j: nat, phase: Phase): History {
    if j < |h.phases| then h.(phases := h.phases[j := phase]) else h
  }

  function SetHolder(h: History, j: nat, r: nat): History {
    if j < |h.holders| then h.(holders := h.holders[j := Some(r)]) else h
  }

  // ---------- Effects ----------

  function Arrive(s: State, id: nat, w: Webhook): State {
    s.(db := UpsertIncident(s.db, w), handlers := s.handlers[id := StoringAlert(w)],
       h := s.h.(received := s.h.received + [w]))
  }

  function StoreAlert(s: State, id: nat): State
    requires id in s.handlers
  {
    var w := s.handlers[id].w;
    var (db, duplicate) := UpsertAlert(s.db, w);
    s.(db := db,
       handlers := s.handlers[id := if w.status == RESOLVED || duplicate then Replied(w) else CreatingJob(w)],
       h := if duplicate then s.h else s.h.(firsts := s.h.firsts[PairOf(w) := First(w.status, id)]))
  }

  function StoreJob(s: State, cfg: Config, id: nat, now: Readings): State
    requires id in s.handlers
  {
    var w := s.handlers[id].w;
    s.(db := CreateJob(s.db, NewJob(cfg, w, now)), handlers := s.handlers[id := Replied(w)],
       h := s.h.(jobOf := s.h.jobOf[PairOf(w) := |s.db.jobs|],
                 phases := s.h.phases + [NotStarted], holders := s.h.holders + [None]))
  }

  function Claim(s: State, r: nat): State
    requires r in s.runners && s.runners[r].todo != []
  {
    var me := s.runners[r];
    var j := me.todo[0];
    var (db, won) := MarkRunning(s.db, j);
    var rest := me.(todo := me.todo[1..]);
    if !won then s.(runners := s.runners[r := rest])
    else s.(db := db, runners := s.runners[r := rest.(pc := Started(j))],
            h := SetHolder(SetPhase(s.h, j, Begun), j, r).(starts := s.h.starts + [Start(j, me.dueAt)]))
  }

  function TakeSnapshot(s: State, cfg: Config, r: nat): State
    requires Working(s, r)
  {
    var j := s.runners[r].pc.job;
    s.(db := CreateSnapshot(s.db, cfg, j), runners := Move(s, r, Snapshotted(j, |s.db.snapshots|)),
       h := SetPhase(s.h, j, HasSnapshot(|s.db.snapshots|)))
  }

  function StoreReport(s: State, r: nat): State
    requires Working(s, r) && s.runners[r].pc.Snapshotted?
  {
    var pc := s.runners[r].pc;
    s.(db := CreateReport(s.db, s.db.jobs[pc.job].pair.incident, pc.snapshot),
       runners := Move(s, r, Reported(pc.job, pc.snapshot)),
       h := SetPhase(s.h, pc.job, HasReport(pc.snapshot, |s.db.reports|)))
  }

  function StoreIncidentStatus(s: State, r: nat, status: IncidentStatus, pc: Pc): State
    requires Working(s, r)
  {
    s.(db := SetIncidentStatus(s.db, s.db.jobs[s.runners[r].pc.job].pair.incident, status), runners := Move(s, r, pc))
  }

  function StoreJobStatus(s: State, r: nat, status: JobStatus, pc: Pc): State
    requires Working(s, r)
  {
    s.(db := SetStatus(s.db, s.runners[r].pc.job, status), runners := Move(s, r, pc))
  }

  function MarkFailed(s: State, r: nat): State
    requires Working(s, r) && s.runners[r].pc.Handling?
  {
    var pc := s.runners[r].pc;
    StoreJobStatus(s, r, FAILED, Idle).(h := if pc.reported then s.h.(late := s.h.late + {pc.job}) else s.h)
  }

  ghost function Next(s: State, cfg: Config, step: Step): State
    requires Enabled(s, step)
  {
    match step
    case WebhookArrives(id, w) => Arrive(s, id, w)
    case WebhookStoresAlert(id) => StoreAlert(s, id)
    case WebhookCreatesJob(id, now) => StoreJob(s, cfg, id, now)
    case HandlerDies(id) => s.(handlers := s.handlers[id := HandlerDead(s.handlers[id].w)])
    case RunnerLists(r, dueAt, limit, listing) => s.(runners := s.runners[r := Runner(dueAt, listing, Idle)])
    case RunnerClaims(r) => Claim(s, r)
    case RunnerSnapshots(r) => TakeSnapshot(s, cfg, r)
    case LlmRunFails(r) => StoreIncidentStatus(s, r, INVESTIGATING, LlmFailed(s.runners[r].pc.job))
    case RunnerStoresFailure(r) => StoreJobStatus(s, r, FAILED, FailureStored(s.runners[r].pc.job))
    case RunnerReports(r) => StoreReport(s, r)
    case RunnerAnalyzed(r) =>
      StoreIncidentStatus(s, r, ANALYZED, AnalyzedStored(s.runners[r].pc.job, s.runners[r].pc.snapshot))
    case RunnerStoresSuccess(r) =>
      StoreJobStatus(s, r, SUCCEEDED, SuccessStored(s.runners[r].pc.job, s.runners[r].pc.snapshot))
    case RunnerNotifies(r) => s.(runners := Move(s, r, Idle))
    case BodyRaises(r) =>
      s.(runners := Move(s, r, Handling(s.runners[r].pc.job, HasReported(s.runners[r].pc))))
    case RunnerMarksFailed(r) => MarkFailed(s, r)
    case RunnerDies(r) => s.(runners := Move(s, r, RunnerDead))
  }

  /** `steps` leads from `s` to `t`. */
  ghost predicate IsRun(s: State, cfg: Config, steps: seq<Step>, t: State)
    decreases |steps|
  {
    if steps == [] then s == t
    else Enabled(s, steps[0]) && IsRun(Next(s, cfg, steps[0]), cfg, steps[1..], t)
  }

  ghost predicate Reachable(s: State, cfg: Config) {
    exists steps :: IsRun(INIT, cfg, steps, s)
  }
}
