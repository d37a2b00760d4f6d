/** `_send_rca_notifications` and the outbox rows it works on, as they run: one recipient after the
    other, each delivery creating or finding its row, sending, and storing the outcome. */
module NotificationDelivery {
  import opened Options
  import opened Outbox

  /** Which of the three outside calls of one delivery raise. */
  datatype Delivery = Delivery(createRaises: bool, sendRaises: bool, storeRaises: bool)

  /** Rows and reported status after one delivery. */
  function DeliverOne(rows: seq<Row>, key: Option<string>, d: Delivery): (seq<Row>, SendStatus) {
    if d.createRaises then (rows, FAILED)
    else
      var (created, i) := CreateRow(rows, key);
      if created[i].status == SENT then (created, SENT)
      else
        var outcome := if d.sendRaises then FAILED else SENT;
        (if d.storeRaises then created else UpdateRow(created, i, outcome), outcome)
  }

  function DeliverAll(rows: seq<Row>, keys: seq<Option<string>>, env: nat -> Delivery): (r: (seq<Row>, seq<SendStatus>))
    ensures |r.1| == |keys|
  {
    if keys == [] then (rows, [])
    else
      var n := |keys| - 1;
      var (before, statuses) := DeliverAll(rows, keys[..n], env);
      var (after, status) := DeliverOne(before, keys[n], env(n));
      (after, statuses + [status])
  }

  function Keys(relatedId: string, stage: string, recipients: seq<string>): seq<Option<string>> {
    seq(|recipients|, i requires 0 <= i < |recipients| => Some(IdempotencyKey(relatedId, stage, recipients[i])))
  }

  /** One more recipient is one more delivery. */
  lemma DeliverNext(rows: seq<Row>, relatedId: string, stage: string, recipients: seq<string>, i: nat,
                    env: nat -> Delivery)
    requires i < |recipients|
    ensures var (before, statuses) := DeliverAll(rows, Keys(relatedId, stage, recipients[..i]), env);
      var (after, status) := DeliverOne(before, Some(IdempotencyKey(relatedId, stage, recipients[i])), env(i));
      DeliverAll(rows, Keys(relatedId, stage, recipients[..i + 1]), env) == (after, statuses + [status])
  {
    var keys := Keys(relatedId, stage, recipients[..i + 1]);
    assert keys[..i] == Keys(relatedId, stage, recipients[..i]);
  }

  // ---------- What a delivery reports and stores ----------

  /** SENT is reported exactly when the row could be had and either said SENT or the send went through. */
  predicate ReportsRightly(rows: seq<Row>, key: Option<string>, d: Delivery, status: SendStatus) {
    && (status == SENT <==> !d.createRaises && (HasSent(rows, key) || !d.sendRaises))
    && (status == FAILED <==> d.createRaises || (!HasSent(rows, key) && d.sendRaises))
  }

  /** The one row that a delivery changes or adds, and how. */
  predicate StoresRightly(rows: seq<Row>, key: Option<string>, d: Delivery, after: seq<Row>, i: nat)
    requires i < |after| && i <= |rows| <= |after|
  {
    var was := if i < |rows| then rows[i] else Row(key, PENDING, 0);
    && after[i].key == key == was.key
    && (forall k :: 0 <= k < |rows| && k != i ==> after[k] == rows[k])
    && |after| == (if i < |rows| then |rows| else |rows| + 1)
    && (was.status == SENT || d.storeRaises ==> after[i] == was)
    && (was.status != SENT && !d.storeRaises && d.sendRaises ==> after[i] == Row(key, FAILED, was.retryCount + 1))
    && (was.status != SENT && !d.storeRaises && !d.sendRaises ==> after[i] == Row(key, SENT, was.retryCount))
  }

  lemma FindIsHasSent(rows: seq<Row>, key: Option<string>)
    requires OneRowPerKey(rows) && key.Some?
    ensures HasSent(rows, key) <==> Find(rows, key) >= 0 && rows[Find(rows, key)].status == SENT
  {
    if HasSent(rows, key) {
      var i :| 0 <= i < |rows| && rows[i] == Row(key, SENT, rows[i].retryCount);
      FindsTheRow(rows, key, i);
    }
    var f := Find(rows, key);
    if f >= 0 && rows[f].status == SENT { assert rows[f] == Row(key, SENT, rows[f].retryCount); }
  }

  lemma DeliveryReportsAndStores(rows: seq<Row>, key: Option<string>, d: Delivery)
    requires OneRowPerKey(rows) && key.Some?
    ensures var (after, status) := DeliverOne(rows, key, d);
      && ReportsRightly(rows, key, d, status)
      && (d.createRaises ==> after == rows)
      && (!d.createRaises ==> |rows| <= |after| && exists i: nat :: (
            i < |after| && i <= |rows| && StoresRightly(rows, key, d, after, i)))
  {
    FindIsHasSent(rows, key);
    var (after, status) := DeliverOne(rows, key, d);
    if !d.createRaises {
      var i := CreateRow(rows, key).1;
      assert StoresRightly(rows, key, d, after, i);
    }
  }

  /** The rows as delivery `i` finds them. */
  function RowsBefore(rows: seq<Row>, keys: seq<Option<string>>, env: nat -> Delivery, i: nat): seq<Row>
    requires i <= |keys|
  {
    DeliverAll(rows, keys[..i], env).0
  }

  lemma {:induction false} DeliverAllKeepsOneRowPerKey(rows: seq<Row>, keys: seq<Option<string>>, env: nat -> Delivery)
    requires OneRowPerKey(rows) && forall i :: 0 <= i < |keys| ==> keys[i].Some?
    ensures OneRowPerKey(DeliverAll(rows, keys, env).0)
  {
    if keys != [] {
      var n := |keys| - 1;
      DeliverAllKeepsOneRowPerKey(rows, keys[..n], env);
      DeliverOneKeepsOneRowPerKey(DeliverAll(rows, keys[..n], env).0, keys[n], env(n));
    }
  }

  lemma DeliverOneKeepsOneRowPerKey(rows: seq<Row>, key: Option<string>, d: Delivery)
    requires OneRowPerKey(rows) && key.Some?
    ensures OneRowPerKey(DeliverOne(rows, key, d).0)
  {
    var (created, i) := CreateRow(rows, key);
    assert OneRowPerKey(created);
  }

  lemma {:induction false} DeliverAllAt(rows: seq<Row>, keys: seq<Option<string>>, env: nat -> Delivery, i: nat)
    requires i < |keys|
    ensures DeliverAll(rows, keys, env).1[i] == DeliverOne(RowsBefore(rows, keys, env, i), keys[i], env(i)).1
  {
    var n := |keys| - 1;
    if i < n {
      DeliverAllAt(rows, keys[..n], env, i);
      assert keys[..n][..i] == keys[..i];
    }
  }

  predicate AllReportRightly(rows: seq<Row>, keys: seq<Option<string>>, env: nat -> Delivery,
                             statuses: seq<SendStatus>) {
    && |statuses| == |keys|
    && forall i :: 0 <= i < |keys| ==> ReportsRightly(RowsBefore(rows, keys, env, i), keys[i], env(i), statuses[i])
  }

  /** Of any number of deliveries in turn, each reports SENT exactly when it should. */
  lemma {:induction false} EveryStatusIsRight(rows: seq<Row>, keys: seq<Option<string>>, env: nat -> Delivery)
    requires OneRowPerKey(rows) && forall i :: 0 <= i < |keys| ==> keys[i].Some?
    ensures AllReportRightly(rows, keys, env, DeliverAll(rows, keys, env).1)
  {
    var statuses := DeliverAll(rows, keys, env).1;
    forall i | 0 <= i < |keys| ensures ReportsRightly(RowsBefore(rows, keys, env, i), keys[i], env(i), statuses[i]) {
      DeliverAllAt(rows, keys, env, i);
      DeliverAllKeepsOneRowPerKey(rows, keys[..i], env);
      DeliveryReportsAndStores(RowsBefore(rows, keys, env, i), keys[i], env(i));
    }
  }

  /** With no raise everybody is reported SENT, on first delivery and on any later one. */
  lemma NoRaiseAllSent(rows: seq<Row>, keys: seq<Option<string>>, env: nat -> Delivery)
    requires OneRowPerKey(rows) && forall i :: 0 <= i < |keys| ==> keys[i].Some?
    requires forall i :: 0 <= i < |keys| ==> !env(i).createRaises && !env(i).sendRaises
    ensures forall i :: 0 <= i < |keys| ==> DeliverAll(rows, keys, env).1[i] == SENT
  {
    EveryStatusIsRight(rows, keys, env);
    forall i | 0 <= i < |keys| ensures DeliverAll(rows, keys, env).1[i] == SENT {
      assert ReportsRightly(RowsBefore(rows, keys, env, i), keys[i], env(i), DeliverAll(rows, keys, env).1[i]);
    }
  }

  // ---------- Redelivery ----------

  predicate HasSent(rows: seq<Row>, key: Option<string>) {
    exists i :: 0 <= i < |rows| && rows[i] == Row(key, SENT, rows[i].retryCount)
  }

  lemma FindsTheRow(rows: seq<Row>, key: Option<string>, i: nat)
    requires OneRowPerKey(rows) && key.Some? && i < |rows| && rows[i].key == key
    ensures Find(rows, key) == i
  {
  }

  /** A delivery whose row says SENT changes nothing and reports SENT. */
  lemma {:induction false} RedeliveryChangesNothing(rows: seq<Row>, keys: seq<Option<string>>, env: nat -> Delivery)
    requires OneRowPerKey(rows)
    requires forall i :: 0 <= i < |keys| ==> keys[i].Some? && HasSent(rows, keys[i]) && !env(i).createRaises
    ensures DeliverAll(rows, keys, env).0 == rows
    ensures forall i :: 0 <= i < |keys| ==> DeliverAll(rows, keys, env).1[i] == SENT
  {
    if keys != [] {
      var n := |keys| - 1;
      RedeliveryChangesNothing(rows, keys[..n], env);
      var i :| 0 <= i < |rows| && rows[i] == Row(keys[n], SENT, rows[i].retryCount);
      FindsTheRow(rows, keys[n], i);
    }
  }

  /** A delivery that reports SENT and whose update was not lost leaves its row SENT. */
  lemma ReportedSentIsStored(rows: seq<Row>, key: Option<string>, d: Delivery)
    requires OneRowPerKey(rows) && key.Some? && !d.storeRaises
    ensures DeliverOne(rows, key, d).1 == SENT ==> HasSent(DeliverOne(rows, key, d).0, key)
    ensures forall other: Option<string> ::
      other.Some? && HasSent(rows, other) ==> HasSent(DeliverOne(rows, key, d).0, other)
    ensures OneRowPerKey(DeliverOne(rows, key, d).0)
  {
    var (created, i) := CreateRow(rows, key);
    var after := DeliverOne(rows, key, d).0;
    assert !d.createRaises ==> created[i].key == key && |after| == |created|;
    if DeliverOne(rows, key, d).1 == SENT {
      assert after[i] == Row(key, SENT, after[i].retryCount);
    }
    forall other: Option<string> | other.Some? && HasSent(rows, other) ensures HasSent(after, other) {
      var k :| 0 <= k < |rows| && rows[k] == Row(other, SENT, rows[k].retryCount);
      if !d.createRaises {
        assert created[k] == rows[k];
        assert k != i || created[i].status == SENT;
      }
      assert after[k] == rows[k];
    }
  }

  /** If every recipient was reported SENT and no update was lost, sending the same report again sends
      nothing: all statuses are SENT and the table stays as it is, whatever the mail server would do. */
  lemma {:induction false} SecondSendIsSilent(rows: seq<Row>, keys: seq<Option<string>>,
                                              env: nat -> Delivery, env': nat -> Delivery)
    requires OneRowPerKey(rows)
    requires forall i :: 0 <= i < |keys| ==> keys[i].Some? && !env(i).storeRaises && !env'(i).createRaises
    requires forall i :: 0 <= i < |keys| ==> DeliverAll(rows, keys, env).1[i] == SENT
    ensures var after := DeliverAll(rows, keys, env).0;
      && DeliverAll(after, keys, env').0 == after
      && forall i :: 0 <= i < |keys| ==> DeliverAll(after, keys, env').1[i] == SENT
  {
    AllReportedSentAreStored(rows, keys, env);
    RedeliveryChangesNothing(DeliverAll(rows, keys, env).0, keys, env');
  }

  lemma {:induction false} AllReportedSentAreStored(rows: seq<Row>, keys: seq<Option<string>>, env: nat -> Delivery)
    requires OneRowPerKey(rows) && (forall i :: 0 <= i < |keys| ==> keys[i].Some? && !env(i).storeRaises)
    ensures OneRowPerKey(DeliverAll(rows, keys, env).0)
    ensures forall i :: 0 <= i < |keys| && DeliverAll(rows, keys, env).1[i] == SENT ==>
      HasSent(DeliverAll(rows, keys, env).0, keys[i])
  {
    if keys != [] {
      var n := |keys| - 1;
      var (before, statuses) := DeliverAll(rows, keys[..n], env);
      AllReportedSentAreStored(rows, keys[..n], env);
      ReportedSentIsStored(before, keys[n], env(n));
      assert forall i :: 0 <= i < n ==> DeliverAll(rows, keys, env).1[i] == statuses[i] && keys[..n][i] == keys[i];
    }
  }

  // ---------- As it runs ----------

  lemma {:induction false} RunExtends(s: State, steps: seq<Step>, t: State, step: Step)
    requires IsRun(s, steps, t, true) && Enabled(t, step) && Sequential(t, step)
    ensures IsRun(s, steps + [step], Next(t, step), true)
    decreases |steps|
  {
    if steps == [] {
      assert steps + [step] == [step] && [step][1..] == [];
      assert IsRun(Next(s, step), [], Next(t, step), true);
    } else {
      assert (steps + [step])[1..] == steps[1..] + [step];
      RunExtends(Next(s, steps[0]), steps[1..], t, step);
    }
  }

  ghost predicate Reachable(s: State) { exists steps :: IsRun(INIT, steps, s, true) }

  lemma ReachableRows(s: State)
    requires Reachable(s)
    ensures OneRowPerKey(s.rows)
  {
    var steps :| IsRun(INIT, steps, s, true);
    RunKeeps(INIT, steps, s, true);
  }

  /** How many of the first `n` deliveries got a row. */
  function WithRow(env: nat -> Delivery, n: nat): nat {
    if n == 0 then 0 else WithRow(env, n - 1) + if env(n - 1).createRaises then 0 else 1
  }

  class NotificationOutbox {
    var rows: seq<Row>

    ghost var st: State

    /** The rows are those of a sequential run of the protocol with no delivery under way. */
    ghost predicate Valid()
      reads this
    {
      rows == st.rows && st.couriers == map[] && Reachable(st)
    }

    constructor ()
      ensures Valid() && rows == []
    {
      rows := [];
      st := INIT;
      new;
      assert IsRun(INIT, [], INIT, true);
    }

    ghost method Advance(step: Step)
      requires Reachable(st) && Enabled(st, step) && Sequential(st, step)
      modifies this`st
      ensures st == Next(old(st), step) && Reachable(st)
    {
      var steps :| IsRun(INIT, steps, st, true);
      RunExtends(INIT, steps, st, step);
      st := Next(st, step);
    }

    method CreateNotification(key: Option<string>) returns (id: nat, status: SendStatus)
      modifies this`rows
      ensures (rows, id) == CreateRow(old(rows), key) && status == rows[id].status
    {
      var i := Find(rows, key);
      if i >= 0 { return i, rows[i].status; }
      id := |rows|;
      rows := rows + [Row(key, PENDING, 0)];
      status := PENDING;
    }

    /** An id that names no row changes nothing; the source then returns None. */
    method UpdateNotificationStatus(id: nat, status: SendStatus) returns (found: bool)
      modifies this`rows
      ensures found == (id < |old(rows)|) && rows == UpdateRow(old(rows), id, status)
    {
      if id >= |rows| { return false; }
      var row := rows[id];
      var retryCount := row.retryCount;
      if status == FAILED { retryCount := retryCount + 1; }
      rows := rows[id := Row(row.key, status, retryCount)];
      found := true;
    }

    /** One recipient. */
    method Deliver(key: Option<string>, d: Delivery) returns (id: Option<nat>, status: SendStatus)
      requires Valid()
      modifies this
      ensures Valid()
      ensures (rows, status) == DeliverOne(old(rows), key, d)
      ensures id.None? <==> d.createRaises
      ensures id.Some? ==> id.value < |rows| && rows[id.value].key == key
      ensures key.Some? ==> ReportsRightly(old(rows), key, d, status)
    {
      ReachableRows(st);
      if key.Some? { DeliveryReportsAndStores(rows, key, d); }
      if d.createRaises { return None, FAILED; }
      var i, stored := CreateNotification(key);
      Advance(Create(0, key));
      id := Some(i);
      if stored == SENT { return id, SENT; }
      Advance(Send(0, !d.sendRaises));
      if d.sendRaises {
        status := FAILED;
        if !d.storeRaises { var _ := UpdateNotificationStatus(i, FAILED); }
      } else {
        status := SENT;
        if !d.storeRaises { var _ := UpdateNotificationStatus(i, SENT); }
      }
      Advance(Store(0, d.storeRaises));
    }

    /** `related` is the report or incident id; without one every recipient is skipped as FAILED. */
    method SendRcaNotifications(related: Option<string>, stage: string, recipients: seq<string>, env: nat -> Delivery)
      returns (ids: seq<nat>, statuses: seq<SendStatus>)
      requires Valid()
      modifies this
      ensures Valid()
      ensures related.None? ==> rows == old(rows) && statuses == seq(|recipients|, _ => FAILED)
      ensures related.Some? ==> (rows, statuses) == DeliverAll(old(rows), Keys(related.value, stage, recipients), env)
      ensures related.Some? ==>
        AllReportRightly(old(rows), Keys(related.value, stage, recipients), env, statuses)
      ensures |ids| == if related.None? then 0 else WithRow(env, |recipients|)
    {
      ReachableRows(st);
      if related.Some? { EveryStatusIsRight(rows, Keys(related.value, stage, recipients), env); }
      ids, statuses := [], [];
      for i := 0 to |recipients|
        invariant Valid()
        invariant |ids| == if related.None? then 0 else WithRow(env, i)
        invariant related.None? ==> rows == old(rows) && statuses == seq(i, _ => FAILED)
        invariant related.Some? ==>
          (rows, statuses) == DeliverAll(old(rows), Keys(related.value, stage, recipients[..i]), env)
      {
        if related.None? {
          statuses := statuses + [FAILED];
        } else {
          var key := Some(IdempotencyKey(related.value, stage, recipients[i]));
          DeliverNext(old(rows), related.value, stage, recipients, i, env);
          var id, status := Deliver(key, env(i));
          if id.Some? { ids := ids + [id.value]; }
          statuses := statuses + [status];
        }
      }
      assert recipients[..|recipients|] == recipients;
    }

    /** `recipients or self._resolve_email_recipients()`. */
    function Targets(requested: seq<string>, configured: seq<string>): seq<string> {
      if requested == [] then configured else requested
    }

    /** Nothing for an unknown report. Otherwise the status reported for a report e-mail: SENT only if
        somebody was to receive it and everybody was reported SENT. */
    method SendRcaReportEmail(reportId: string, known: bool, requested: seq<string>, configured: seq<string>,
                              env: nat -> Delivery)
      returns (status: Option<SendStatus>)
      requires Valid()
      modifies this
      ensures Valid()
      ensures status.None? <==> !known
      ensures !known ==> rows == old(rows)
      ensures known ==>
        var keys := Keys(reportId, "final", Targets(requested, configured));
        var (after, statuses) := DeliverAll(old(rows), keys, env);
        && rows == after
        && (status == Some(SENT) <==> keys != [] && forall s :: s in statuses ==> s == SENT)
      ensures known ==> status == Some(SENT) || status == Some(FAILED)
      // With somebody to send to and no raise, the answer is SENT.
      ensures known && Targets(requested, configured) != []
        && (forall i :: 0 <= i < |Targets(requested, configured)| ==> !env(i).createRaises && !env(i).sendRaises)
        ==> status == Some(SENT)
    {
      ReachableRows(st);
      if !known { return None; }
      ghost var keys := Keys(reportId, "final", Targets(requested, configured));
      if forall i :: 0 <= i < |keys| ==> !env(i).createRaises && !env(i).sendRaises {
        NoRaiseAllSent(rows, keys, env);
      }
      var _, statuses := SendRcaNotifications(Some(reportId), "final", Targets(requested, configured), env);
      status := Some(if statuses != [] && (forall s :: s in statuses ==> s == SENT) then SENT else FAILED);
    }
  }
}
