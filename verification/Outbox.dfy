/** The notification outbox: rows keyed by an idempotency key, and the deliveries that create (or
    find) a row, send, and then store what happened.  Storing is best effort: the update may be lost,
    because `_safe_update_notification_status` swallows whatever it raises. */
module Outbox {
  import opened Options
  import opened Text

  datatype SendStatus = PENDING | SENT | FAILED

  datatype Row = Row(key: Option<string>, status: SendStatus, retryCount: nat)

  /** A row is named by its position. */
  function Find(rows: seq<Row>, key: Option<string>): (i: int)
    ensures i == -1 || (0 <= i < |rows| && key.Some? && rows[i].key == key)
    ensures i == -1 && key.Some? ==> forall k :: 0 <= k < |rows| ==> rows[k].key != key
  {
    if rows == [] || key.None? then -1
    else
      var n := |rows| - 1;
      if rows[n].key == key then n else Find(rows[..n], key)
  }

  /** Insert a PENDING row, or return the row that already carries the key, unchanged. */
  function CreateRow(rows: seq<Row>, key: Option<string>): (r: (seq<Row>, nat))
    ensures r.1 < |r.0|
  {
    var i := Find(rows, key);
    if i >= 0 then (rows, i) else (rows + [Row(key, PENDING, 0)], |rows|)
  }

  function UpdateRow(rows: seq<Row>, id: nat, status: SendStatus): seq<Row> {
    if id >= |rows| then rows
    else rows[id := Row(rows[id].key, status, rows[id].retryCount + if status == FAILED then 1 else 0)]
  }

  // ---------- Deliveries as interleaved steps ----------

  datatype Courier = Ready(row: nat) | SentPending(row: nat) | FailedPending(row: nat)

  /** Per row, what happened so far; never read by the code. */
  datatype Tally = Tally(sends: nat, sentStores: nat, lostSent: nat, failedStores: nat)

  datatype State = State(rows: seq<Row>, couriers: map<nat, Courier>, tallies: seq<Tally>)

  const INIT := State([], map[], [])

  datatype Step =
    | Create(courier: nat, key: Option<string>)
    | Send(courier: nat, ok: bool)
    | Store(courier: nat, lost: bool)
    | Die(courier: nat)

  predicate Enabled(s: State, step: Step) {
    match step
    case Create(c, _) => c !in s.couriers
    case Send(c, _) => c in s.couriers && s.couriers[c].Ready?
    case Store(c, _) => c in s.couriers && !s.couriers[c].Ready?
    case Die(c) => c in s.couriers
  }

  function SetTally(s: State, i: nat, t: Tally): seq<Tally> {
    if i < |s.tallies| then s.tallies[i := t] else s.tallies
  }

  function TallyOf(s: State, i: nat): Tally { if i < |s.tallies| then s.tallies[i] else Tally(0, 0, 0, 0) }

  function CreateStep(s: State, c: nat, key: Option<string>): State {
    var (rows, i) := CreateRow(s.rows, key);
    State(rows,
      if rows[i].status == SENT then s.couriers else s.couriers[c := Ready(i)],
      if |rows| == |s.rows| then s.tallies else s.tallies + [Tally(0, 0, 0, 0)])
  }

  function SendStep(s: State, c: nat, ok: bool): State
    requires c in s.couriers
  {
    var i := s.couriers[c].row;
    var t := TallyOf(s, i);
    if ok then s.(couriers := s.couriers[c := SentPending(i)], tallies := SetTally(s, i, t.(sends := t.sends + 1)))
    else s.(couriers := s.couriers[c := FailedPending(i)])
  }

  /** The courier is done; an update that never reached the table, or a death, loses its outcome. */
  function LoseStep(s: State, c: nat): State
    requires c in s.couriers
  {
    var i := s.couriers[c].row;
    var t := TallyOf(s, i);
    s.(couriers := s.couriers - {c},
       tallies := if s.couriers[c].SentPending? then SetTally(s, i, t.(lostSent := t.lostSent + 1)) else s.tallies)
  }

  function StoreStep(s: State, c: nat): State
    requires c in s.couriers
  {
    var i := s.couriers[c].row;
    var t := TallyOf(s, i);
    var sent := s.couriers[c].SentPending?;
    State(UpdateRow(s.rows, i, if sent then SENT else FAILED), s.couriers - {c},
      SetTally(s, i, if sent then t.(sentStores := t.sentStores + 1) else t.(failedStores := t.failedStores + 1)))
  }

  function Next(s: State, step: Step): State
    requires Enabled(s, step)
  {
    match step
    case Create(c, key) => CreateStep(s, c, key)
    case Send(c, ok) => SendStep(s, c, ok)
    case Store(c, lost) => if lost then LoseStep(s, c) else StoreStep(s, c)
    case Die(c) => LoseStep(s, c)
  }

  /** No other delivery of the same row is under way when a delivery begins. */
  ghost predicate Sequential(s: State, step: Step) {
    step.Create? ==> forall c :: c in s.couriers ==> s.couriers[c].row != CreateRow(s.rows, step.key).1
  }

  ghost predicate IsRun(s: State, steps: seq<Step>, t: State, sequential: bool)
    decreases |steps|
  {
    if steps == [] then s == t
    else
      && Enabled(s, steps[0]) && (sequential ==> Sequential(s, steps[0]))
      && IsRun(Next(s, steps[0]), steps[1..], t, sequential)
  }

  // ---------- Kept by every run, however deliveries interleave ----------

  ghost function InFlight(s: State, i: nat): set<nat> {
    set c | c in s.couriers && s.couriers[c] == SentPending(i)
  }

  ghost predicate OneRowPerKey(rows: seq<Row>) {
    forall i, k :: 0 <= i < k < |rows| && rows[i].key.Some? ==> rows[i].key != rows[k].key
  }

  ghost predicate Accounted(s: State, i: nat) {
    && i < |s.rows| && i < |s.tallies|
    && s.tallies[i].sends == s.tallies[i].sentStores + s.tallies[i].lostSent + |InFlight(s, i)|
    && s.rows[i].retryCount == s.tallies[i].failedStores
    && (s.rows[i].status == PENDING <==> s.tallies[i].sentStores + s.tallies[i].failedStores == 0)
    && (s.rows[i].status == SENT ==> s.tallies[i].sentStores > 0)
  }

  ghost predicate Inv(s: State) {
    && |s.tallies| == |s.rows|
    && OneRowPerKey(s.rows)
    && (forall c :: c in s.couriers ==> s.couriers[c].row < |s.rows|)
    && (forall i :: 0 <= i < |s.rows| ==> Accounted(s, i))
  }

  lemma CreateKeeps(s: State, c: nat, key: Option<string>)
    requires Inv(s) && c !in s.couriers
    ensures Inv(CreateStep(s, c, key))
  {
    var t := CreateStep(s, c, key);
    forall i | 0 <= i < |t.rows| ensures Accounted(t, i) {
      assert InFlight(t, i) == InFlight(s, i);
      if i < |s.rows| { assert Accounted(s, i); } else { assert InFlight(s, i) == {}; }
    }
  }

  lemma SendKeeps(s: State, c: nat, ok: bool)
    requires Inv(s) && c in s.couriers && s.couriers[c].Ready?
    ensures Inv(SendStep(s, c, ok))
  {
    var t, row := SendStep(s, c, ok), s.couriers[c].row;
    forall i | 0 <= i < |t.rows| ensures Accounted(t, i) {
      assert Accounted(s, i);
      assert InFlight(t, i) == InFlight(s, i) + if ok && i == row then {c} else {};
    }
  }

  lemma LoseKeeps(s: State, c: nat)
    requires Inv(s) && c in s.couriers
    ensures Inv(LoseStep(s, c))
  {
    var t, row := LoseStep(s, c), s.couriers[c].row;
    forall i | 0 <= i < |t.rows| ensures Accounted(t, i) {
      assert Accounted(s, i);
      assert InFlight(t, i) == InFlight(s, i) - {c};
    }
  }

  lemma StoreKeeps(s: State, c: nat)
    requires Inv(s) && c in s.couriers && !s.couriers[c].Ready?
    ensures Inv(StoreStep(s, c))
  {
    var t, row := StoreStep(s, c), s.couriers[c].row;
    forall i | 0 <= i < |t.rows| ensures Accounted(t, i) {
      assert Accounted(s, i);
      assert InFlight(t, i) == InFlight(s, i) - {c};
    }
  }

  lemma StepKeeps(s: State, step: Step)
    requires Inv(s) && Enabled(s, step)
    ensures Inv(Next(s, step))
  {
    match step
    case Create(c, key) => CreateKeeps(s, c, key);
    case Send(c, ok) => SendKeeps(s, c, ok);
    case Store(c, lost) => if lost { LoseKeeps(s, c); } else { StoreKeeps(s, c); }
    case Die(c) => LoseKeeps(s, c);
  }

  lemma {:induction false} RunKeeps(s: State, steps: seq<Step>, t: State, sequential: bool)
    requires Inv(s) && IsRun(s, steps, t, sequential)
    ensures Inv(t)
    decreases |steps|
  {
    if steps != [] {
      StepKeeps(s, steps[0]);
      RunKeeps(Next(s, steps[0]), steps[1..], t, sequential);
    }
  }

  /** Over every run, overlapping deliveries included: one row per key, every send ended as a stored
      SENT, a lost one or is still in flight, and the retry count is the number of stored failures. */
  lemma OutboxConservation(steps: seq<Step>, s: State)
    requires IsRun(INIT, steps, s, false)
    ensures OneRowPerKey(s.rows) && |s.tallies| == |s.rows|
    ensures forall i :: 0 <= i < |s.rows| ==>
      && s.tallies[i].sends == s.tallies[i].sentStores + s.tallies[i].lostSent + |InFlight(s, i)|
      && s.rows[i].retryCount == s.tallies[i].failedStores
  {
    RunKeeps(INIT, steps, s, false);
    forall i | 0 <= i < |s.rows|
      ensures s.tallies[i].sends == s.tallies[i].sentStores + s.tallies[i].lostSent + |InFlight(s, i)|
      ensures s.rows[i].retryCount == s.tallies[i].failedStores
    {
      assert Accounted(s, i);
    }
  }

  // ---------- Sequential deliveries per row ----------

  ghost predicate InvSequential(s: State) {
    && |s.tallies| == |s.rows|
    && (forall c :: c in s.couriers ==> s.couriers[c].row < |s.rows|)
    && (forall c, d :: c in s.couriers && d in s.couriers && c != d ==> s.couriers[c].row != s.couriers[d].row)
    && (forall i :: 0 <= i < |s.rows| ==> s.tallies[i].sentStores == if s.rows[i].status == SENT then 1 else 0)
    && (forall c :: c in s.couriers ==> s.rows[s.couriers[c].row].status != SENT)
  }

  lemma SequentialCreateKeeps(s: State, c: nat, key: Option<string>)
    requires InvSequential(s) && c !in s.couriers && Sequential(s, Create(c, key))
    ensures InvSequential(CreateStep(s, c, key))
  {
  }

  lemma SequentialSendKeeps(s: State, c: nat, ok: bool)
    requires InvSequential(s) && c in s.couriers && s.couriers[c].Ready?
    ensures InvSequential(SendStep(s, c, ok))
  {
  }

  lemma SequentialEndKeeps(s: State, c: nat)
    requires InvSequential(s) && c in s.couriers
    ensures InvSequential(LoseStep(s, c))
    ensures !s.couriers[c].Ready? ==> InvSequential(StoreStep(s, c))
  {
  }

  lemma SequentialStepKeeps(s: State, step: Step)
    requires InvSequential(s) && Enabled(s, step) && Sequential(s, step)
    ensures InvSequential(Next(s, step)) && |s.rows| <= |Next(s, step).rows|
    ensures forall i :: 0 <= i < |s.rows| && s.rows[i].status == SENT ==> Next(s, step).rows[i] == s.rows[i]
  {
    match step
    case Create(c, key) => SequentialCreateKeeps(s, c, key);
    case Send(c, ok) => SequentialSendKeeps(s, c, ok);
    case Store(c, lost) => SequentialEndKeeps(s, c);
    case Die(c) => SequentialEndKeeps(s, c);
  }

  lemma {:induction false} SequentialRunKeeps(s: State, steps: seq<Step>, t: State)
    requires InvSequential(s) && IsRun(s, steps, t, true)
    ensures InvSequential(t) && |s.rows| <= |t.rows|
    ensures forall i :: 0 <= i < |s.rows| && s.rows[i].status == SENT ==> t.rows[i] == s.rows[i]
    decreases |steps|
  {
    if steps != [] {
      SequentialStepKeeps(s, steps[0]);
      SequentialRunKeeps(Next(s, steps[0]), steps[1..], t);
    }
  }

  /** With one delivery per row at a time, a message is sent at most once more than its SENT updates
      were lost: exactly the lost ones, plus one if SENT is stored, plus one if an update is pending,
      and never both. */
  lemma SequentialOutboxBound(steps: seq<Step>, s: State, i: nat)
    requires IsRun(INIT, steps, s, true) && i < |s.rows|
    ensures |s.tallies| == |s.rows|
    ensures s.tallies[i].sends <= 1 + s.tallies[i].lostSent
    ensures s.tallies[i].sends ==
      s.tallies[i].lostSent + (if s.rows[i].status == SENT || InFlight(s, i) != {} then 1 else 0)
  {
    SequentialRunKeeps(INIT, steps, s);
    RunKeeps(INIT, steps, s, true);
    assert Accounted(s, i);
    if c :| c in InFlight(s, i) {
      assert InFlight(s, i) == {c};
    }
  }

  /** A stored SENT is never left, whatever follows sequentially. */
  lemma SentIsFinal(before: seq<Step>, s: State, after: seq<Step>, t: State, i: nat)
    requires IsRun(INIT, before, s, true) && IsRun(s, after, t, true)
    requires i < |s.rows| && s.rows[i].status == SENT
    ensures i < |t.rows| && t.rows[i] == s.rows[i]
  {
    SequentialRunKeeps(INIT, before, s);
    SequentialRunKeeps(s, after, t);
  }

  const KEY_ROW := (key: string) => Row(Some(key), PENDING, 0)

  /** Two couriers hold the same unsent row. */
  function BothReady(key: string): State {
    State([KEY_ROW(key)], map[0 := Ready(0), 1 := Ready(0)], [Tally(0, 0, 0, 0)])
  }

  lemma Overlap(key: string)
    ensures var one := State([KEY_ROW(key)], map[0 := Ready(0)], [Tally(0, 0, 0, 0)]);
      && Enabled(INIT, Create(0, Some(key))) && Next(INIT, Create(0, Some(key))) == one
      && Enabled(one, Create(1, Some(key))) && Next(one, Create(1, Some(key))) == BothReady(key)
  {
  }

  /** Two overlapping deliveries of one key can send twice with nothing lost. */
  lemma OverlapSendsTwice(key: string)
    ensures exists steps, s :: (
      && IsRun(INIT, steps, s, false) && |s.tallies| == 1 && s.tallies[0].sends == 2 && s.tallies[0].lostSent == 0)
  {
    Overlap(key);
    var k, both := Some(key), BothReady(key);
    var last := Next(Next(both, Send(0, true)), Send(1, true));
    Four(INIT, Create(0, k), Create(1, k), Send(0, true), Send(1, true), last);
    assert last.tallies == [Tally(2, 0, 0, 0)];
  }

  lemma OverlapUnsendsFrom(key: string)
    ensures exists steps, s :: (
      && IsRun(BothReady(key), steps, s, false) && |s.rows| == 1 && |s.tallies| == 1
      && s.tallies[0].sentStores == 1 && s.rows[0].status == FAILED)
  {
    var k, both := Some(key), BothReady(key);
    var c3 := Next(Next(both, Send(0, true)), Store(0, false));
    assert c3 == State([Row(k, SENT, 0)], map[1 := Ready(0)], [Tally(1, 1, 0, 0)]);
    var c4 := Next(c3, Send(1, false));
    var c5 := Next(c4, Store(1, false));
    assert c5.rows == [Row(k, FAILED, 1)] && c5.tallies == [Tally(1, 1, 0, 1)];
    Four(both, Send(0, true), Store(0, false), Send(1, false), Store(1, false), c5);
  }

  /** ... and turn a stored SENT back into FAILED. So both promises need the sequential condition. */
  lemma OverlapUnsends(key: string)
    ensures exists steps, s :: (
      && IsRun(INIT, steps, s, false) && |s.rows| == 1 && |s.tallies| == 1
      && s.tallies[0].sentStores == 1 && s.rows[0].status == FAILED)
  {
    OverlapUnsendsFrom(key);
    var steps, s :| IsRun(BothReady(key), steps, s, false) && |s.rows| == 1 && |s.tallies| == 1
      && s.tallies[0].sentStores == 1 && s.rows[0].status == FAILED;
    Overlap(key);
    var k := Some(key);
    var one := Next(INIT, Create(0, k));
    var later := [Create(1, k)] + steps;
    var all := [Create(0, k)] + later;
    assert later[1..] == steps && all[1..] == later;
    assert IsRun(one, later, s, false);
    assert IsRun(INIT, all, s, false);
  }

  lemma Four(s: State, a: Step, b: Step, c: Step, d: Step, t: State)
    requires Enabled(s, a)
    requires var s1 := Next(s, a); Enabled(s1, b)
    requires var s2 := Next(Next(s, a), b); Enabled(s2, c)
    requires var s3 := Next(Next(Next(s, a), b), c); Enabled(s3, d) && Next(s3, d) == t
    ensures IsRun(s, [a, b, c, d], t, false)
  {
    var s1 := Next(s, a);
    var s2 := Next(s1, b);
    var s3 := Next(s2, c);
    assert [d][1..] == [] && [c, d][1..] == [d] && [b, c, d][1..] == [c, d] && [a, b, c, d][1..] == [b, c, d];
    assert IsRun(t, [], t, false);
    assert IsRun(s3, [d], t, false);
    assert IsRun(s2, [c, d], t, false);
    assert IsRun(s1, [b, c, d], t, false);
  }

  // ---------- The key ----------

  function IdempotencyKey(relatedId: string, stage: string, recipient: string): string {
    "rca:" + relatedId + ":" + stage + ":" + recipient
  }

  /** Ids and stages hold no colon, so two notifications share a key only if they are the same one. */
  lemma IdempotencyKeyIsExact(id: string, stage: string, to: string, id': string, stage': string, to': string)
    requires NoColon(id) && NoColon(stage) && NoColon(id') && NoColon(stage')
    ensures IdempotencyKey(id, stage, to) == IdempotencyKey(id', stage', to')
      <==> id == id' && stage == stage' && to == to'
  {
    if IdempotencyKey(id, stage, to) == IdempotencyKey(id', stage', to') {
      var tail, tail' := id + ":" + (stage + ":" + to), id' + ":" + (stage' + ":" + to');
      assert IdempotencyKey(id, stage, to) == "rca:" + tail && IdempotencyKey(id', stage', to') == "rca:" + tail';
      assert ("rca:" + tail)[4..] == tail && ("rca:" + tail')[4..] == tail';
      SplitAtColon(id, stage + ":" + to, id', stage' + ":" + to');
      SplitAtColon(stage, to, stage', to');
    }
  }

  function SlackKey(relatedId: string, stage: string, recipient: string): string {
    "rca:" + relatedId + ":" + stage + ":slack:" + recipient
  }

  /** The two channels share the table, and their keys meet only for an e-mail recipient that spells
      out the Slack one. */
  lemma SlackKeyMeetsEmailKey(id: string, stage: string, to: string, id': string, stage': string, recipient: string)
    requires NoColon(id) && NoColon(stage) && NoColon(id') && NoColon(stage')
    ensures IdempotencyKey(id, stage, to) == SlackKey(id', stage', recipient)
      <==> id == id' && stage == stage' && to == "slack:" + recipient
  {
    assert SlackKey(id', stage', recipient) == IdempotencyKey(id', stage', "slack:" + recipient);
    IdempotencyKeyIsExact(id, stage, to, id', stage', "slack:" + recipient);
  }
}
