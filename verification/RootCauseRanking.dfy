/** The alert agent's root-cause candidates: findings are grouped by type, each group becomes a
    candidate with a confidence, and at most three visible candidates are returned, best first. */
module RootCauseRanking {
  import opened StableSort

  datatype FindingType =
    | PredictiveUnderPrediction | VpnTunnelDegraded | PostgresConnectionSaturation | PodWaitingState
    | DbHikaricp | SqsPublish | SqsConsume | ApplicationError | TraceLatency
    | DeploymentRegression
    | OtherType(name: string)

  /** `section` is empty when the finding has none. */
  datatype Finding = Finding(kind: FindingType, section: string, toolName: string, evidence: string)

  datatype Confidence = Low | Medium | High

  datatype Evidence = Line(section: string, toolName: string, evidence: string) | Context(text: string)

  datatype Candidate = Candidate(
    kind: FindingType, confidence: Confidence, evidence: seq<Evidence>, sources: set<string>)

  /** What the alert classifiers said about the firing alert. */
  datatype Alert =
    | NoAlert
    | Alert(predictive: bool, vpn: bool, pod: bool, postgresSaturation: bool, postgres: bool)

  const FORCED: seq<FindingType> :=
    [PredictiveUnderPrediction, VpnTunnelDegraded, PostgresConnectionSaturation, PodWaitingState]

  predicate IsForced(kind: FindingType) {
    || kind == PredictiveUnderPrediction
    || kind == VpnTunnelDegraded
    || kind == PostgresConnectionSaturation
    || kind == PodWaitingState
  }

  const INFERRED: seq<FindingType> := [DbHikaricp, SqsPublish, SqsConsume, ApplicationError, TraceLatency]

  const OVERLAP := "deployment change overlaps with application degraded signals"
  const NO_OVERLAP := "deployment change detected without a matching runtime error signal"

  function OfKind(findings: seq<Finding>, kind: FindingType): seq<Finding> {
    if findings == [] then []
    else (if findings[0].kind == kind then [findings[0]] else []) + OfKind(findings[1..], kind)
  }

  lemma {:induction false} OfKindMembers(findings: seq<Finding>, kind: FindingType)
    ensures forall f :: f in OfKind(findings, kind) <==> f in findings && f.kind == kind
  {
    if findings != [] {
      OfKindMembers(findings[1..], kind);
      assert findings == [findings[0]] + findings[1..];
    }
  }

  lemma {:induction false} OfKindConcat(a: seq<Finding>, b: seq<Finding>, kind: FindingType)
    ensures OfKind(a + b, kind) == OfKind(a, kind) + OfKind(b, kind)
  {
    if a == [] {
      assert a + b == b;
    } else {
      var head := if a[0].kind == kind then [a[0]] else [];
      assert (a + b)[1..] == a[1..] + b && (a + b)[0] == a[0];
      OfKindConcat(a[1..], b, kind);
      assert OfKind(a + b, kind) == head + (OfKind(a[1..], kind) + OfKind(b, kind));
    }
  }

  function Sources(findings: seq<Finding>): set<string> {
    set f | f in findings && f.section != "" :: f.section
  }

  function InferConfidence(findings: seq<Finding>): Confidence {
    if |Sources(findings)| >= 2 then High
    else if |findings| >= 2 then Medium
    else Low
  }

  function EvidenceOf(findings: seq<Finding>): (r: seq<Evidence>)
    ensures |r| == |findings|
  {
    seq(|findings|, i requires 0 <= i < |findings| =>
      Line(findings[i].section, findings[i].toolName, findings[i].evidence))
  }

  function FirstFive(findings: seq<Finding>): seq<Finding> {
    if |findings| <= 5 then findings else findings[..5]
  }

  function MakeCandidate(kind: FindingType, group: seq<Finding>, confidence: Confidence, context: seq<Evidence>)
    : Candidate
  {
    Candidate(kind, confidence, EvidenceOf(FirstFive(group)) + context, Sources(group))
  }

  /** What the fixed loop makes of one type: forced types are always high. */
  function FixedCandidate(kind: FindingType, findings: seq<Finding>): Candidate {
    var group := OfKind(findings, kind);
    MakeCandidate(kind, group, if IsForced(kind) then High else InferConfidence(group), [])
  }

  function FixedCandidates(kinds: seq<FindingType>, findings: seq<Finding>): seq<Candidate> {
    if kinds == [] then []
    else
      (if OfKind(findings, kinds[0]) == [] then [] else [FixedCandidate(kinds[0], findings)])
      + FixedCandidates(kinds[1..], findings)
  }

  /** Deployment changes count only beside a runtime signal. */
  function DeploymentCandidates(findings: seq<Finding>, hasRuntimeSignal: bool): (r: seq<Candidate>)
    ensures |r| <= 1 && forall c :: c in r ==> c.kind == DeploymentRegression
  {
    var group := OfKind(findings, DeploymentRegression);
    if group == [] then []
    else if hasRuntimeSignal then
      [MakeCandidate(DeploymentRegression, group, InferConfidence(group), [Context(OVERLAP)])]
    else
      [MakeCandidate(DeploymentRegression, group, Low, [Context(NO_OVERLAP)])]
  }

  predicate HasRuntimeSignal(findings: seq<Finding>) {
    exists f :: f in findings && f.kind in INFERRED
  }

  function Candidates(findings: seq<Finding>): seq<Candidate> {
    FixedCandidates(FORCED + INFERRED, findings)
    + DeploymentCandidates(findings, HasRuntimeSignal(findings))
  }

  function AlertFinding(kind: FindingType): Finding {
    Finding(kind, "alertmanager", "alert_labels", "")
  }

  /** The first classifier that says yes decides. */
  function AlertFindings(alert: Alert): (r: seq<Finding>)
    ensures |r| <= 1
  {
    match alert
    case NoAlert => []
    case Alert(predictive, vpn, pod, postgresSaturation, postgres) =>
      if predictive then [AlertFinding(PredictiveUnderPrediction)]
      else if vpn then [AlertFinding(VpnTunnelDegraded)]
      else if pod then [AlertFinding(PodWaitingState)]
      else if postgresSaturation then [AlertFinding(PostgresConnectionSaturation)]
      else if postgres then [AlertFinding(DbHikaricp)]
      else []
  }

  /** ## What the returned list is */

  function Rank(c: Confidence): int {
    match c case High => 3 case Medium => 2 case Low => 1
  }

  const BY_RANK: Candidate -> int := (c: Candidate) => -Rank(c.confidence)

  function OrderOf(kind: FindingType): nat {
    match kind
    case PredictiveUnderPrediction => 0
    case VpnTunnelDegraded => 1
    case PostgresConnectionSaturation => 2
    case PodWaitingState => 3
    case DbHikaricp => 4
    case SqsPublish => 5
    case SqsConsume => 6
    case ApplicationError => 7
    case TraceLatency => 8
    case DeploymentRegression => 9
    case OtherType(_) => 10
  }

  /** More confident first; among equals the fixed type order. */
  predicate Before(a: Candidate, b: Candidate) {
    || Rank(a.confidence) > Rank(b.confidence)
    || (Rank(a.confidence) == Rank(b.confidence) && OrderOf(a.kind) < OrderOf(b.kind))
  }

  predicate Ranked(s: seq<Candidate>) {
    forall i, j :: 0 <= i < j < |s| ==> Before(s[i], s[j])
  }

  predicate IsVisible(c: Candidate) { c.confidence != Low }

  /** The three best visible members of `pool`, best first. */
  predicate IsTopThree(r: seq<Candidate>, pool: seq<Candidate>) {
    && |r| <= 3
    && Ranked(r)
    && (forall c :: c in r ==> c in pool && IsVisible(c))
    && (forall c :: c in pool && IsVisible(c) && c !in r ==> |r| == 3 && forall d :: d in r ==> Before(d, c))
  }

  /** The candidates are in strict type order, so no type appears twice. */
  predicate InTypeOrder(s: seq<Candidate>) {
    forall i, j :: 0 <= i < j < |s| ==> OrderOf(s[i].kind) < OrderOf(s[j].kind)
  }

  lemma {:induction false} FixedKinds(kinds: seq<FindingType>, findings: seq<Finding>)
    ensures forall c :: c in FixedCandidates(kinds, findings) ==> c.kind in kinds
  {
    if kinds != [] {
      FixedKinds(kinds[1..], findings);
      assert kinds == [kinds[0]] + kinds[1..];
    }
  }

  predicate KindsInOrder(kinds: seq<FindingType>) {
    forall i, j :: 0 <= i < j < |kinds| ==> OrderOf(kinds[i]) < OrderOf(kinds[j])
  }

  lemma {:induction false} FixedInTypeOrder(kinds: seq<FindingType>, findings: seq<Finding>)
    requires KindsInOrder(kinds)
    ensures InTypeOrder(FixedCandidates(kinds, findings))
  {
    if kinds != [] {
      FixedInTypeOrder(kinds[1..], findings);
      FixedKinds(kinds[1..], findings);
      var rest := FixedCandidates(kinds[1..], findings);
      forall j | 0 <= j < |rest| ensures OrderOf(kinds[0]) < OrderOf(rest[j].kind) {
        assert rest[j] in rest;
        var i :| 0 <= i < |kinds[1..]| && kinds[1..][i] == rest[j].kind;
        assert kinds[i + 1] == rest[j].kind;
      }
    }
  }

  lemma KindsAreInOrder()
    ensures var kinds := FORCED + INFERRED; |kinds| == 9 && forall i :: 0 <= i < 9 ==> OrderOf(kinds[i]) == i
  {
    var kinds := FORCED + INFERRED;
    assert kinds[0] == FORCED[0] && kinds[1] == FORCED[1] && kinds[2] == FORCED[2] && kinds[3] == FORCED[3];
    assert kinds[4] == INFERRED[0] && kinds[5] == INFERRED[1] && kinds[6] == INFERRED[2];
    assert kinds[7] == INFERRED[3] && kinds[8] == INFERRED[4];
  }

  lemma FixedBeforeDeployment(findings: seq<Finding>)
    ensures forall c :: c in FixedCandidates(FORCED + INFERRED, findings) ==> OrderOf(c.kind) < 9
  {
    var kinds := FORCED + INFERRED;
    KindsAreInOrder();
    FixedKinds(kinds, findings);
    forall c | c in FixedCandidates(kinds, findings) ensures OrderOf(c.kind) < 9 {
      assert c.kind in kinds;
      var i :| 0 <= i < |kinds| && kinds[i] == c.kind;
    }
  }

  lemma AppendInTypeOrder(a: seq<Candidate>, b: seq<Candidate>)
    requires InTypeOrder(a) && |b| <= 1 && forall c :: c in b ==> c.kind == DeploymentRegression
    requires forall c :: c in a ==> OrderOf(c.kind) < 9
    ensures InTypeOrder(a + b)
  {
    forall i | 0 <= i < |a| ensures OrderOf(a[i].kind) < 9 { assert a[i] in a; }
  }

  lemma CandidatesInTypeOrder(findings: seq<Finding>)
    ensures InTypeOrder(Candidates(findings))
  {
    KindsAreInOrder();
    FixedInTypeOrder(FORCED + INFERRED, findings);
    FixedBeforeDeployment(findings);
    AppendInTypeOrder(FixedCandidates(FORCED + INFERRED, findings),
                      DeploymentCandidates(findings, HasRuntimeSignal(findings)));
  }

  /** A list sorted by rank is its high part, then its medium part, then its low part. */
  lemma {:induction false} SortedSplits(s: seq<Candidate>)
    requires Sorted(s, ByKey(BY_RANK))
    ensures s == Parts(s).0 + Parts(s).1 + Parts(s).2
  {
    if s != [] {
      var h, t := s[0], s[1..];
      SortedSplits(t);
      NoSmallerParts(h, t);
      PartsCons(h, t);
      assert s == [h] + t;
      var p, q := Parts(s), Parts(t);
      ConsOfThree(h, t, BY_RANK(h), q.0, q.1, q.2, p.0, p.1, p.2);
    }
  }

  /** The high, medium and low parts of a list. */
  function Parts(s: seq<Candidate>): (seq<Candidate>, seq<Candidate>, seq<Candidate>) {
    (WithKey(s, BY_RANK, -3), WithKey(s, BY_RANK, -2), WithKey(s, BY_RANK, -1))
  }

  lemma PartsCons(h: Candidate, t: seq<Candidate>)
    ensures var (p, q, k) := (Parts([h] + t), Parts(t), BY_RANK(h));
      && -3 <= k <= -1
      && p.0 == (if k == -3 then [h] else []) + q.0
      && p.1 == (if k == -2 then [h] else []) + q.1
      && p.2 == (if k == -1 then [h] else []) + q.2
  {
    WithKeyCons(h, t, BY_RANK, -3);
    WithKeyCons(h, t, BY_RANK, -2);
    WithKeyCons(h, t, BY_RANK, -1);
  }

  lemma NoSmallerParts(h: Candidate, t: seq<Candidate>)
    requires forall i :: 0 <= i < |t| ==> BY_RANK(h) <= BY_RANK(t[i])
    ensures BY_RANK(h) > -3 ==> Parts(t).0 == []
    ensures BY_RANK(h) > -2 ==> Parts(t).1 == []
  {
    if BY_RANK(h) > -3 { NoSmallerKey(t, -3, BY_RANK(h)); }
    if BY_RANK(h) > -2 { NoSmallerKey(t, -2, BY_RANK(h)); }
  }

  lemma ConsOfThree(h: Candidate, t: seq<Candidate>, k: int, a: seq<Candidate>, b: seq<Candidate>, c: seq<Candidate>,
                    a': seq<Candidate>, b': seq<Candidate>, c': seq<Candidate>)
    requires t == a + b + c && -3 <= k <= -1
    requires (k > -3 ==> a == []) && (k > -2 ==> b == [])
    requires a' == (if k == -3 then [h] else []) + a
    requires b' == (if k == -2 then [h] else []) + b
    requires c' == (if k == -1 then [h] else []) + c
    ensures [h] + t == a' + b' + c'
  {
  }

  lemma {:induction false} NoSmallerKey(s: seq<Candidate>, k: int, low: int)
    requires k < low && forall i :: 0 <= i < |s| ==> low <= BY_RANK(s[i])
    ensures WithKey(s, BY_RANK, k) == []
  {
    if s != [] { NoSmallerKey(s[1..], k, low); }
  }

  function OnlyVisible(s: seq<Candidate>): seq<Candidate> {
    if s == [] then [] else (if IsVisible(s[0]) then [s[0]] else []) + OnlyVisible(s[1..])
  }

  lemma {:induction false} OnlyVisibleConcat(a: seq<Candidate>, b: seq<Candidate>)
    ensures OnlyVisible(a + b) == OnlyVisible(a) + OnlyVisible(b)
  {
    if a == [] {
      assert a + b == b;
    } else {
      var head := if IsVisible(a[0]) then [a[0]] else [];
      assert (a + b)[1..] == a[1..] + b && (a + b)[0] == a[0];
      OnlyVisibleConcat(a[1..], b);
      assert OnlyVisible(a + b) == head + (OnlyVisible(a[1..]) + OnlyVisible(b));
    }
  }

  lemma {:induction false} OnlyVisibleOfKey(s: seq<Candidate>, k: int)
    requires -3 <= k <= -1
    ensures OnlyVisible(WithKey(s, BY_RANK, k)) == if k == -1 then [] else WithKey(s, BY_RANK, k)
  {
    if s != [] {
      var rest := WithKey(s[1..], BY_RANK, k);
      OnlyVisibleOfKey(s[1..], k);
      if BY_RANK(s[0]) == k {
        assert ([s[0]] + rest)[1..] == rest;
        assert WithKey(s, BY_RANK, k) == [s[0]] + rest;
      } else {
        assert WithKey(s, BY_RANK, k) == rest;
      }
    }
  }

  function HighThenMedium(pool: seq<Candidate>): seq<Candidate> {
    WithKey(pool, BY_RANK, -3) + WithKey(pool, BY_RANK, -2)
  }

  /** Sorting by falling rank and hiding the low ones leaves the high ones, then the medium ones,
      each in the order they were built. */
  lemma VisibleIsHighThenMedium(pool: seq<Candidate>)
    ensures OnlyVisible(Sort(pool, ByKey(BY_RANK))) == HighThenMedium(pool)
  {
    var s := Sort(pool, ByKey(BY_RANK));
    SortSorts(pool, ByKey(BY_RANK));
    SortedSplits(s);
    SortIsStable(pool, BY_RANK, -3);
    SortIsStable(pool, BY_RANK, -2);
    SortIsStable(pool, BY_RANK, -1);
    var h, m, l := WithKey(pool, BY_RANK, -3), WithKey(pool, BY_RANK, -2), WithKey(pool, BY_RANK, -1);
    OnlyVisibleConcat(h + m, l);
    OnlyVisibleConcat(h, m);
    OnlyVisibleOfKey(pool, -3);
    OnlyVisibleOfKey(pool, -2);
    OnlyVisibleOfKey(pool, -1);
  }

  lemma {:induction false} WithKeyMembers(s: seq<Candidate>, k: int)
    ensures forall c :: c in WithKey(s, BY_RANK, k) <==> c in s && BY_RANK(c) == k
  {
    if s != [] {
      WithKeyMembers(s[1..], k);
      assert s == [s[0]] + s[1..];
    }
  }

  lemma {:induction false} WithKeyInTypeOrder(s: seq<Candidate>, k: int)
    requires InTypeOrder(s)
    ensures InTypeOrder(WithKey(s, BY_RANK, k))
  {
    if s != [] {
      var rest := WithKey(s[1..], BY_RANK, k);
      WithKeyInTypeOrder(s[1..], k);
      WithKeyMembers(s[1..], k);
      forall j | 0 <= j < |rest| ensures OrderOf(s[0].kind) < OrderOf(rest[j].kind) {
        assert rest[j] in rest;
        var i :| 0 <= i < |s[1..]| && s[1..][i] == rest[j];
        assert s[i + 1] == rest[j];
      }
    }
  }

  lemma HighThenMediumIsRanked(pool: seq<Candidate>)
    requires InTypeOrder(pool)
    ensures Ranked(HighThenMedium(pool))
    ensures forall c :: c in HighThenMedium(pool) <==> c in pool && IsVisible(c)
  {
    var h, m := WithKey(pool, BY_RANK, -3), WithKey(pool, BY_RANK, -2);
    WithKeyMembers(pool, -3);
    WithKeyMembers(pool, -2);
    WithKeyInTypeOrder(pool, -3);
    WithKeyInTypeOrder(pool, -2);
    forall i | 0 <= i < |h| ensures BY_RANK(h[i]) == -3 { assert h[i] in h; }
    forall i | 0 <= i < |m| ensures BY_RANK(m[i]) == -2 { assert m[i] in m; }
  }

  function TakeThree(s: seq<Candidate>): seq<Candidate> {
    if |s| <= 3 then s else s[..3]
  }

  lemma FirstOfRankedIsTopThree(s: seq<Candidate>, pool: seq<Candidate>)
    requires Ranked(s) && forall c :: c in s <==> c in pool && IsVisible(c)
    ensures IsTopThree(TakeThree(s), pool)
  {
    var r := TakeThree(s);
    assert forall k :: 0 <= k < |r| ==> r[k] == s[k] && r[k] in r;
    forall c, d | c in pool && IsVisible(c) && c !in r && d in r ensures Before(d, c) {
      assert c in s;
      var i :| 0 <= i < |s| && s[i] == c;
      var j :| 0 <= j < |r| && r[j] == d;
      assert s[j] == d;
    }
    forall c | c in pool && IsVisible(c) && c !in r ensures |r| == 3 {
      assert c in s;
    }
  }

  /** The code's sort, filter and slice compute exactly the top three. */
  lemma {:induction false} RankingIsTopThree(findings: seq<Finding>)
    ensures IsTopThree(TakeThree(OnlyVisible(Sort(Candidates(findings), ByKey(BY_RANK)))), Candidates(findings))
  {
    var pool := Candidates(findings);
    VisibleIsHighThenMedium(pool);
    CandidatesInTypeOrder(findings);
    HighThenMediumIsRanked(pool);
    FirstOfRankedIsTopThree(HighThenMedium(pool), pool);
  }

  lemma RankedDistinct(s: seq<Candidate>)
    requires Ranked(s)
    ensures forall i, j :: 0 <= i < j < |s| ==> s[i] != s[j]
  {
    forall i, j | 0 <= i < j < |s| ensures s[i] != s[j] { assert Before(s[i], s[j]); }
  }

  /** ... and the top three are unique, so `IsTopThree` says everything about the result. */
  lemma {:induction false} TopThreeAgreeUpTo(a: seq<Candidate>, b: seq<Candidate>, pool: seq<Candidate>, n: nat)
    requires InTypeOrder(pool) && IsTopThree(a, pool) && IsTopThree(b, pool)
    requires n <= |a| && n <= |b|
    ensures forall k :: 0 <= k < n ==> a[k] == b[k]
  {
    if n > 0 {
      TopThreeAgreeUpTo(a, b, pool, n - 1);
      NotBetter(a, b, pool, n - 1);
      NotBetter(b, a, pool, n - 1);
      assert a[n - 1] in a && b[n - 1] in b;
      OrderIsTotal(pool, a[n - 1], b[n - 1]);
    }
  }

  lemma OrderIsTotal(pool: seq<Candidate>, c: Candidate, d: Candidate)
    requires InTypeOrder(pool) && c in pool && d in pool
    ensures c == d || Before(c, d) || Before(d, c)
  {
    var i :| 0 <= i < |pool| && pool[i] == c;
    var j :| 0 <= j < |pool| && pool[j] == d;
  }

  lemma NotBetter(a: seq<Candidate>, b: seq<Candidate>, pool: seq<Candidate>, n: nat)
    requires InTypeOrder(pool) && IsTopThree(a, pool) && IsTopThree(b, pool)
    requires n < |a| && n < |b| && forall k :: 0 <= k < n ==> a[k] == b[k]
    ensures !Before(a[n], b[n])
  {
    if a[n] in b {
      var k :| 0 <= k < |b| && b[k] == a[n];
      RankedDistinct(a);
    } else {
      assert a[n] in a && b[n] in b;
    }
  }

  lemma TopThreeIsUnique(a: seq<Candidate>, b: seq<Candidate>, findings: seq<Finding>)
    requires IsTopThree(a, Candidates(findings)) && IsTopThree(b, Candidates(findings))
    ensures a == b
  {
    CandidatesInTypeOrder(findings);
    ShorterIsNotTop(a, b, Candidates(findings));
    ShorterIsNotTop(b, a, Candidates(findings));
    TopThreeAgreeUpTo(a, b, Candidates(findings), |a|);
  }

  lemma ShorterIsNotTop(a: seq<Candidate>, b: seq<Candidate>, pool: seq<Candidate>)
    requires InTypeOrder(pool) && IsTopThree(a, pool) && IsTopThree(b, pool)
    ensures |a| >= |b|
  {
    if |a| < |b| {
      assert b[|a|] in b;
      TopThreeAgreeUpTo(a, b, pool, |a|);
      NotAmong(a, b);
    }
  }

  lemma NotAmong(a: seq<Candidate>, b: seq<Candidate>)
    requires Ranked(b) && |a| < |b| && forall i :: 0 <= i < |a| ==> a[i] == b[i]
    ensures b[|a|] !in a
  {
    RankedDistinct(b);
  }

  /** No type twice, and confidence never rises down the list. */
  lemma TopThreeFacts(r: seq<Candidate>, findings: seq<Finding>)
    requires IsTopThree(r, Candidates(findings))
    ensures forall i, j :: 0 <= i < j < |r| ==>
      r[i].kind != r[j].kind && Rank(r[i].confidence) >= Rank(r[j].confidence)
  {
    CandidatesInTypeOrder(findings);
    var pool := Candidates(findings);
    forall i, j | 0 <= i < j < |r| ensures r[i].kind != r[j].kind {
      assert Before(r[i], r[j]) && r[i] in r && r[j] in r;
      var p :| 0 <= p < |pool| && pool[p] == r[i];
      var q :| 0 <= q < |pool| && pool[q] == r[j];
    }
  }

  /** ## An alert's own candidate */

  /** The forced types ahead of `kind` that also have findings. */
  function Ahead(kinds: seq<FindingType>, kind: FindingType, findings: seq<Finding>): nat {
    if kinds == [] || kinds[0] == kind then 0
    else (if OfKind(findings, kinds[0]) == [] then 0 else 1) + Ahead(kinds[1..], kind, findings)
  }

  lemma ForcedKinds()
    ensures forall k :: k in FORCED <==> IsForced(k)
  {
  }

  lemma ForcedIsHigh(kind: FindingType, findings: seq<Finding>)
    requires IsForced(kind)
    ensures BY_RANK(FixedCandidate(kind, findings)) == -3
  {
  }

  lemma FixedStep(kinds: seq<FindingType>, rest: seq<FindingType>, findings: seq<Finding>)
    requires kinds != []
    ensures var tail := FixedCandidates(kinds[1..] + rest, findings);
      FixedCandidates(kinds + rest, findings) ==
      if OfKind(findings, kinds[0]) == [] then tail else [FixedCandidate(kinds[0], findings)] + tail
  {
    assert (kinds + rest)[1..] == kinds[1..] + rest && (kinds + rest)[0] == kinds[0];
    var tail := FixedCandidates(kinds[1..] + rest, findings);
    assert [] + tail == tail;
  }

  predicate ShowsAt(pool: seq<Candidate>, n: nat, c: Candidate) {
    var high := WithKey(pool, BY_RANK, -3);
    n < |high| && high[n] == c
  }

  lemma ShowsAfter(d: Candidate, pool: seq<Candidate>, n: nat, c: Candidate)
    requires BY_RANK(d) == -3
    ensures ShowsAt([d] + pool, 0, d)
    ensures ShowsAt(pool, n, c) ==> ShowsAt([d] + pool, n + 1, c)
  {
    WithKeyCons(d, pool, BY_RANK, -3);
  }

  lemma {:induction false} ForcedAreHigh(kinds: seq<FindingType>, rest: seq<FindingType>, kind: FindingType,
                                         findings: seq<Finding>)
    requires (forall k :: k in kinds ==> IsForced(k)) && kind in kinds && OfKind(findings, kind) != []
    ensures ShowsAt(FixedCandidates(kinds + rest, findings), Ahead(kinds, kind, findings),
                    FixedCandidate(kind, findings))
  {
    if kinds[0] == kind {
      ForcedFirst(kinds, rest, findings);
    } else {
      assert kinds == [kinds[0]] + kinds[1..];
      ForcedAreHigh(kinds[1..], rest, kind, findings);
      ForcedLater(kinds, rest, kind, findings, FixedCandidate(kind, findings));
    }
  }

  lemma ForcedFirst(kinds: seq<FindingType>, rest: seq<FindingType>, findings: seq<Finding>)
    requires kinds != [] && IsForced(kinds[0]) && OfKind(findings, kinds[0]) != []
    ensures ShowsAt(FixedCandidates(kinds + rest, findings), 0, FixedCandidate(kinds[0], findings))
  {
    var first := FixedCandidate(kinds[0], findings);
    ForcedIsHigh(kinds[0], findings);
    FixedStep(kinds, rest, findings);
    ShowsAfter(first, FixedCandidates(kinds[1..] + rest, findings), 0, first);
  }

  lemma ShowsStep(first: Candidate, present: bool, tail: seq<Candidate>, n: nat, own: Candidate)
    requires BY_RANK(first) == -3 && ShowsAt(tail, n, own)
    ensures ShowsAt(if present then [first] + tail else tail, n + (if present then 1 else 0), own)
  {
    ShowsAfter(first, tail, n, own);
  }

  lemma ForcedLater(kinds: seq<FindingType>, rest: seq<FindingType>, kind: FindingType, findings: seq<Finding>,
                    own: Candidate)
    requires kinds != [] && kinds[0] != kind && IsForced(kinds[0])
    requires ShowsAt(FixedCandidates(kinds[1..] + rest, findings), Ahead(kinds[1..], kind, findings), own)
    ensures ShowsAt(FixedCandidates(kinds + rest, findings), Ahead(kinds, kind, findings), own)
  {
    var first, present := FixedCandidate(kinds[0], findings), OfKind(findings, kinds[0]) != [];
    ForcedIsHigh(kinds[0], findings);
    FixedStep(kinds, rest, findings);
    AheadStep(kinds, kind, findings);
    ShowsStep(first, present, FixedCandidates(kinds[1..] + rest, findings), Ahead(kinds[1..], kind, findings), own);
  }

  lemma {:induction false} WithKeyOfConcat(a: seq<Candidate>, b: seq<Candidate>, k: int)
    ensures WithKey(a + b, BY_RANK, k) == WithKey(a, BY_RANK, k) + WithKey(b, BY_RANK, k)
  {
    if a == [] {
      assert a + b == b;
    } else {
      assert (a + b)[1..] == a[1..] + b;
      WithKeyOfConcat(a[1..], b, k);
    }
  }

  /** A forced type with a finding takes the place after the forced types ahead of it, so it is
      returned if and only if fewer than three of those have findings too. */
  lemma {:induction false} ForcedPosition(kind: FindingType, findings: seq<Finding>, r: seq<Candidate>)
    requires IsForced(kind) && OfKind(findings, kind) != []
    requires IsTopThree(r, Candidates(findings))
    ensures var n := Ahead(FORCED, kind, findings);
      && (FixedCandidate(kind, findings) in r <==> n < 3)
      && (n < 3 ==> n < |r| && r[n] == FixedCandidate(kind, findings))
  {
    var pool, n := Candidates(findings), Ahead(FORCED, kind, findings);
    var fixed := FixedCandidates(FORCED + INFERRED, findings);
    var s := HighThenMedium(pool);
    ForcedKinds();
    ForcedAreHigh(FORCED, INFERRED, kind, findings);
    WithKeyOfConcat(fixed, DeploymentCandidates(findings, HasRuntimeSignal(findings)), -3);
    assert s[n] == FixedCandidate(kind, findings);
    VisibleIsHighThenMedium(pool);
    CandidatesInTypeOrder(findings);
    HighThenMediumIsRanked(pool);
    RankingIsTopThree(findings);
    TopThreeIsUnique(r, TakeThree(s), findings);
    RankedDistinct(s);
    assert forall i :: 0 <= i < |r| ==> r[i] == s[i];
  }

  /** The application-signal detector never reports these three types; only an alert does. */
  predicate FromDetector(signals: seq<Finding>) {
    forall f :: f in signals ==>
      f.kind != PredictiveUnderPrediction && f.kind != VpnTunnelDegraded && f.kind != PodWaitingState
  }

  /** A predictive, VPN, pod or saturation alert always shows: first, or second for a pod alert when
      the signals report connection saturation as well. */
  lemma AlertCandidateIsShown(signals: seq<Finding>, alert: Alert, r: seq<Candidate>)
    requires FromDetector(signals)
    requires alert.Alert? && (alert.predictive || alert.vpn || alert.pod || alert.postgresSaturation)
    requires IsTopThree(r, Candidates(signals + AlertFindings(alert)))
    ensures var kind :=
        if alert.predictive then PredictiveUnderPrediction
        else if alert.vpn then VpnTunnelDegraded
        else if alert.pod then PodWaitingState
        else PostgresConnectionSaturation;
      var n := if kind == PodWaitingState && OfKind(signals, PostgresConnectionSaturation) != [] then 1 else 0;
      n < |r| && r[n].kind == kind && r[n].confidence == High
  {
    AlertAdds(alert);
    var kind, all := AlertFindings(alert)[0].kind, signals + AlertFindings(alert);
    WithAlert(signals, alert);
    NoneFromDetector(signals);
    AlertIsAhead(signals, all, kind);
    ForcedPosition(kind, all, r);
  }

  lemma AlertIsAhead(signals: seq<Finding>, all: seq<Finding>, kind: FindingType)
    requires IsForced(kind)
    requires forall k :: k != kind ==> OfKind(all, k) == OfKind(signals, k)
    requires OfKind(signals, PredictiveUnderPrediction) == [] && OfKind(signals, VpnTunnelDegraded) == []
    ensures Ahead(FORCED, kind, all) ==
      if kind == PodWaitingState && OfKind(signals, PostgresConnectionSaturation) != [] then 1 else 0
  {
    AheadOfAlert(all, kind);
  }

  lemma WithAlert(signals: seq<Finding>, alert: Alert)
    requires |AlertFindings(alert)| == 1
    ensures var own := AlertFindings(alert)[0];
      && OfKind(signals + AlertFindings(alert), own.kind) != []
      && forall k :: k != own.kind ==> OfKind(signals + AlertFindings(alert), k) == OfKind(signals, k)
  {
    var own := AlertFindings(alert);
    assert own == [own[0]] && own[1..] == [];
    OfKindConcat(signals, own, own[0].kind);
    forall k | k != own[0].kind ensures OfKind(signals + own, k) == OfKind(signals, k) {
      OfKindConcat(signals, own, k);
      assert OfKind(own, k) == [] + [];
    }
  }

  lemma NoneFromDetector(signals: seq<Finding>)
    requires FromDetector(signals)
    ensures OfKind(signals, PredictiveUnderPrediction) == [] && OfKind(signals, VpnTunnelDegraded) == []
    ensures OfKind(signals, PodWaitingState) == []
  {
    forall k | OfKind(signals, k) != [] ensures exists f :: f in signals && f.kind == k {
      OfKindMembers(signals, k);
      assert OfKind(signals, k)[0] in OfKind(signals, k);
    }
  }

  lemma AheadOfAlert(all: seq<Finding>, kind: FindingType)
    requires IsForced(kind)
    ensures var n := (k: FindingType) => if OfKind(all, k) == [] then 0 else 1;
      Ahead(FORCED, kind, all) ==
      match kind
      case PredictiveUnderPrediction => 0
      case VpnTunnelDegraded => n(PredictiveUnderPrediction)
      case PostgresConnectionSaturation => n(PredictiveUnderPrediction) + n(VpnTunnelDegraded)
      case _ => n(PredictiveUnderPrediction) + n(VpnTunnelDegraded) + n(PostgresConnectionSaturation)
  {
    var third := [PostgresConnectionSaturation, PodWaitingState];
    var second := [VpnTunnelDegraded, PostgresConnectionSaturation, PodWaitingState];
    assert FORCED[1..] == second && second[1..] == third && third[1..] == [PodWaitingState];
    AheadStep(FORCED, kind, all);
    AheadStep(second, kind, all);
    AheadStep(third, kind, all);
    AheadStep([PodWaitingState], kind, all);
  }

  lemma AheadStep(kinds: seq<FindingType>, kind: FindingType, all: seq<Finding>)
    requires kinds != []
    ensures Ahead(kinds, kind, all) ==
      if kinds[0] == kind then 0
      else (if OfKind(all, kinds[0]) == [] then 0 else 1) + Ahead(kinds[1..], kind, all)
  {
  }

  /** ## What a confidence rests on */

  /** Two findings of the type come from different named sections. */
  ghost predicate TwoSections(findings: seq<Finding>, kind: FindingType) {
    exists i, k :: 0 <= i < |findings| && 0 <= k < |findings|
      && findings[i].kind == kind == findings[k].kind
      && findings[i].section != "" && findings[k].section != "" && findings[i].section != findings[k].section
  }

  ghost predicate TwoFindings(findings: seq<Finding>, kind: FindingType) {
    exists i, k :: 0 <= i < k < |findings| && findings[i].kind == kind == findings[k].kind
  }

  lemma TwoMembers(s: set<string>) returns (a: string, b: string)
    requires |s| >= 2
    ensures a in s && b in s && a != b
  {
    a :| a in s;
    assert |s - {a}| >= 1;
    b :| b in s - {a};
  }

  lemma ManySourcesIff(findings: seq<Finding>, kind: FindingType)
    ensures |Sources(OfKind(findings, kind))| >= 2 <==> TwoSections(findings, kind)
  {
    var group := OfKind(findings, kind);
    var sources := Sources(group);
    OfKindMembers(findings, kind);
    if |sources| >= 2 {
      var a, b := TwoMembers(sources);
      var f :| f in group && f.section == a && a != "";
      var g :| g in group && g.section == b && b != "";
      var i :| 0 <= i < |findings| && findings[i] == f;
      var k :| 0 <= k < |findings| && findings[k] == g;
    }
    if TwoSections(findings, kind) {
      var i, k :| 0 <= i < |findings| && 0 <= k < |findings|
        && findings[i].kind == kind == findings[k].kind
        && findings[i].section != "" && findings[k].section != "" && findings[i].section != findings[k].section;
      assert findings[i] in findings && findings[k] in findings;
      var two := {findings[i].section, findings[k].section};
      assert two <= sources;
      assert |sources| == |two| + |sources - two|;
    }
  }

  lemma {:induction false} HasFindingIff(findings: seq<Finding>, kind: FindingType)
    ensures OfKind(findings, kind) != [] <==> exists i :: 0 <= i < |findings| && findings[i].kind == kind
  {
    if findings != [] {
      var rest := findings[1..];
      HasFindingIff(rest, kind);
      assert forall i :: 0 <= i < |rest| ==> rest[i] == findings[i + 1];
      assert forall i :: 1 <= i < |findings| ==> findings[i] == rest[i - 1];
    }
  }

  lemma TwoLater(findings: seq<Finding>, kind: FindingType)
    requires findings != [] && TwoFindings(findings[1..], kind)
    ensures TwoFindings(findings, kind)
  {
    var rest := findings[1..];
    var i, k :| 0 <= i < k < |rest| && rest[i].kind == kind == rest[k].kind;
    assert findings[i + 1].kind == kind == findings[k + 1].kind;
  }

  lemma FirstAndLater(findings: seq<Finding>, kind: FindingType)
    requires findings != [] && findings[0].kind == kind && OfKind(findings[1..], kind) != []
    ensures TwoFindings(findings, kind)
  {
    HasFindingIff(findings[1..], kind);
    var i :| 0 <= i < |findings[1..]| && findings[1..][i].kind == kind;
    assert findings[0].kind == kind == findings[i + 1].kind;
  }

  lemma TwoSplits(findings: seq<Finding>, kind: FindingType)
    requires findings != [] && TwoFindings(findings, kind)
    ensures TwoFindings(findings[1..], kind) || (findings[0].kind == kind && OfKind(findings[1..], kind) != [])
  {
    var rest := findings[1..];
    HasFindingIff(rest, kind);
    var i, k :| 0 <= i < k < |findings| && findings[i].kind == kind == findings[k].kind;
    assert rest[k - 1].kind == kind;
    assert i > 0 ==> rest[i - 1].kind == kind;
  }

  lemma {:induction false} ManyFindingsIff(findings: seq<Finding>, kind: FindingType)
    ensures |OfKind(findings, kind)| >= 2 <==> TwoFindings(findings, kind)
  {
    if findings != [] {
      ManyFindingsIff(findings[1..], kind);
      if TwoFindings(findings[1..], kind) { TwoLater(findings, kind); }
      if findings[0].kind == kind && OfKind(findings[1..], kind) != [] { FirstAndLater(findings, kind); }
      if TwoFindings(findings, kind) { TwoSplits(findings, kind); }
    }
  }

  /** Two named sections make high confidence, else two findings make medium, else it is low. */
  ghost predicate ConfidenceFits(c: Confidence, findings: seq<Finding>, kind: FindingType) {
    && (c == High <==> TwoSections(findings, kind))
    && (c == Medium <==> !TwoSections(findings, kind) && TwoFindings(findings, kind))
    && (c == Low <==> !TwoSections(findings, kind) && !TwoFindings(findings, kind))
  }

  lemma InferredConfidence(findings: seq<Finding>, kind: FindingType)
    ensures ConfidenceFits(InferConfidence(OfKind(findings, kind)), findings, kind)
  {
    ManySourcesIff(findings, kind);
    ManyFindingsIff(findings, kind);
    SectionsAreFindings(findings, kind);
  }

  lemma SectionsAreFindings(findings: seq<Finding>, kind: FindingType)
    ensures TwoSections(findings, kind) ==> TwoFindings(findings, kind)
  {
    if TwoSections(findings, kind) {
      var i, k :| 0 <= i < |findings| && 0 <= k < |findings|
        && findings[i].kind == kind == findings[k].kind
        && findings[i].section != "" && findings[k].section != "" && findings[i].section != findings[k].section;
      if i < k { assert findings[i].kind == kind == findings[k].kind; }
    }
  }

  /** Some finding of the type names the section. */
  predicate NamesSection(findings: seq<Finding>, kind: FindingType, section: string) {
    exists i :: 0 <= i < |findings| && findings[i].kind == kind && findings[i].section == section
  }

  /** Evidence: the first five findings of the type in order, then the context of a deployment. */
  ghost predicate EvidenceFits(c: Candidate, findings: seq<Finding>, context: seq<Evidence>) {
    var group := OfKind(findings, c.kind);
    var shown := if |group| <= 5 then |group| else 5;
    && |c.evidence| == shown + |context|
    && (forall i :: 0 <= i < shown ==>
          c.evidence[i] == Line(group[i].section, group[i].toolName, group[i].evidence))
    && c.evidence[shown..] == context
    && (forall s :: s in c.sources <==> s != "" && NamesSection(findings, c.kind, s))
  }

  lemma MadeCandidateFits(kind: FindingType, findings: seq<Finding>, confidence: Confidence, context: seq<Evidence>)
    ensures EvidenceFits(MakeCandidate(kind, OfKind(findings, kind), confidence, context), findings, context)
  {
    var group := OfKind(findings, kind);
    OfKindMembers(findings, kind);
    forall s ensures s in Sources(group) <==>
      s != "" && NamesSection(findings, kind, s)
    {
      if s in Sources(group) {
        var f :| f in group && f.section == s && s != "";
        var i :| 0 <= i < |findings| && findings[i] == f;
      }
      if i :| 0 <= i < |findings| && findings[i].kind == kind && findings[i].section == s && s != "" {
        assert findings[i] in group;
      }
    }
  }

  lemma {:induction false} FixedCandidateOf(kinds: seq<FindingType>, findings: seq<Finding>, c: Candidate)
    requires c in FixedCandidates(kinds, findings)
    ensures c.kind in kinds && c == FixedCandidate(c.kind, findings) && OfKind(findings, c.kind) != []
  {
    var first, rest := FixedCandidate(kinds[0], findings), FixedCandidates(kinds[1..], findings);
    assert kinds == [kinds[0]] + kinds[1..];
    if c in rest { FixedCandidateOf(kinds[1..], findings, c); }
  }

  /** Everything a candidate says, by its type. */
  ghost predicate CandidateFits(c: Candidate, findings: seq<Finding>) {
    && (exists i :: 0 <= i < |findings| && findings[i].kind == c.kind)
    && (IsForced(c.kind) ==> c.confidence == High && EvidenceFits(c, findings, []))
    && (!IsForced(c.kind) && c.kind != DeploymentRegression ==>
          ConfidenceFits(c.confidence, findings, c.kind) && EvidenceFits(c, findings, []))
    && (c.kind == DeploymentRegression ==>
          if HasRuntimeSignal(findings)
          then ConfidenceFits(c.confidence, findings, c.kind) && EvidenceFits(c, findings, [Context(OVERLAP)])
          else c.confidence == Low && EvidenceFits(c, findings, [Context(NO_OVERLAP)]))
  }

  lemma EveryCandidateFits(findings: seq<Finding>, c: Candidate)
    requires c in Candidates(findings)
    ensures CandidateFits(c, findings)
  {
    var group := OfKind(findings, c.kind);
    HasFindingIff(findings, c.kind);
    InferredConfidence(findings, c.kind);
    if c in FixedCandidates(FORCED + INFERRED, findings) {
      FixedCandidateOf(FORCED + INFERRED, findings, c);
      FixedBeforeDeployment(findings);
      ForcedKinds();
      MadeCandidateFits(c.kind, findings, c.confidence, []);
    } else {
      MadeCandidateFits(c.kind, findings, c.confidence, [Context(OVERLAP)]);
      MadeCandidateFits(c.kind, findings, c.confidence, [Context(NO_OVERLAP)]);
    }
  }

  /** Every type that is looked at and has a finding is a candidate, and no other is. */
  lemma CandidateKinds(findings: seq<Finding>, kind: FindingType)
    ensures (exists c :: c in Candidates(findings) && c.kind == kind) <==>
      !kind.OtherType? && exists i :: 0 <= i < |findings| && findings[i].kind == kind
  {
    var fixed := FixedCandidates(FORCED + INFERRED, findings);
    var last := DeploymentCandidates(findings, HasRuntimeSignal(findings));
    FixedCandidatesHave(FORCED + INFERRED, findings, kind);
    HasFindingIff(findings, kind);
    LookedAt(kind);
    assert kind == DeploymentRegression && OfKind(findings, kind) != [] ==> last[0] in last;
    assert forall c :: c in Candidates(findings) <==> c in fixed || c in last;
  }

  lemma LookedAt(kind: FindingType)
    ensures kind in FORCED + INFERRED <==> !kind.OtherType? && kind != DeploymentRegression
  {
    KindsAreInOrder();
    var kinds := FORCED + INFERRED;
    if !kind.OtherType? && kind != DeploymentRegression {
      var i := OrderOf(kind);
      assert OrderOf(kinds[i]) == i;
      assert kinds[i] == kind;
    }
    if kind in kinds {
      var i :| 0 <= i < |kinds| && kinds[i] == kind;
    }
  }

  lemma VisibleRestsOnFindings(findings: seq<Finding>, c: Candidate)
    requires CandidateFits(c, findings) && IsVisible(c)
    ensures !IsForced(c.kind) ==> TwoFindings(findings, c.kind)
    ensures c.kind == DeploymentRegression ==> exists i :: 0 <= i < |findings| && IsRuntime(findings[i].kind)
  {
    SectionsAreFindings(findings, c.kind);
    if c.kind == DeploymentRegression {
      var f :| f in findings && f.kind in INFERRED;
      var i :| 0 <= i < |findings| && findings[i] == f;
      assert IsRuntime(findings[i].kind);
    }
  }

  /** What the returned list shows: nothing on one unconfirmed finding of an inferred type, and a
      deployment only beside a runtime signal. */
  lemma ReturnedRestsOnFindings(r: seq<Candidate>, findings: seq<Finding>, c: Candidate)
    requires IsTopThree(r, Candidates(findings)) && c in r
    ensures CandidateFits(c, findings)
    ensures !IsForced(c.kind) ==> TwoFindings(findings, c.kind)
    ensures c.kind == DeploymentRegression ==> exists i :: 0 <= i < |findings| && IsRuntime(findings[i].kind)
  {
    assert c in Candidates(findings) && IsVisible(c);
    EveryCandidateFits(findings, c);
    VisibleRestsOnFindings(findings, c);
  }

  /** The types whose findings are errors seen at run time. */
  predicate IsRuntime(kind: FindingType) {
    kind == DbHikaricp || kind == SqsPublish || kind == SqsConsume || kind == ApplicationError || kind == TraceLatency
  }

  /** Which finding an alert adds: that of the first classifier that says yes. */
  lemma AlertAdds(alert: Alert)
    ensures var own := AlertFindings(alert);
      && (alert.NoAlert? ==> own == [])
      && (alert.Alert? ==>
          && (alert.predictive ==> |own| == 1 && own[0].kind == PredictiveUnderPrediction)
          && (!alert.predictive && alert.vpn ==> |own| == 1 && own[0].kind == VpnTunnelDegraded)
          && (!alert.predictive && !alert.vpn && alert.pod ==> |own| == 1 && own[0].kind == PodWaitingState)
          && (!alert.predictive && !alert.vpn && !alert.pod && alert.postgresSaturation ==>
                |own| == 1 && own[0].kind == PostgresConnectionSaturation)
          && (!alert.predictive && !alert.vpn && !alert.pod && !alert.postgresSaturation && alert.postgres ==>
                |own| == 1 && own[0].kind == DbHikaricp)
          && (!alert.predictive && !alert.vpn && !alert.pod && !alert.postgresSaturation && !alert.postgres ==>
                own == []))
      && forall f :: f in own ==> f.section == "alertmanager" && f.toolName == "alert_labels"
  {
  }

  /** ## The code */

  ghost predicate GroupedBy(byType: map<FindingType, seq<Finding>>, findings: seq<Finding>) {
    forall k :: (if k in byType then byType[k] else []) == OfKind(findings, k) && (k in byType ==> byType[k] != [])
  }

  method GroupFindings(findings: seq<Finding>) returns (byType: map<FindingType, seq<Finding>>)
    ensures GroupedBy(byType, findings)
  {
    byType := map[];
    for i := 0 to |findings|
      invariant GroupedBy(byType, findings[..i])
    {
      var f := findings[i];
      assert findings[..i + 1] == findings[..i] + [f];
      forall k ensures OfKind(findings[..i + 1], k) == OfKind(findings[..i], k) + OfKind([f], k) {
        OfKindConcat(findings[..i], [f], k);
      }
      assert [f][1..] == [];
      byType := byType[f.kind := (if f.kind in byType then byType[f.kind] else []) + [f]];
    }
    assert findings[..|findings|] == findings;
  }

  lemma {:induction false} FixedCandidatesConcat(a: seq<FindingType>, b: seq<FindingType>, findings: seq<Finding>)
    ensures FixedCandidates(a + b, findings) == FixedCandidates(a, findings) + FixedCandidates(b, findings)
  {
    if a == [] {
      assert a + b == b;
    } else {
      assert (a + b)[1..] == a[1..] + b;
      FixedCandidatesConcat(a[1..], b, findings);
    }
  }

  lemma FixedCandidatesAppend(kinds: seq<FindingType>, i: nat, findings: seq<Finding>)
    requires i < |kinds|
    ensures FixedCandidates(kinds[..i + 1], findings) == FixedCandidates(kinds[..i], findings)
      + if OfKind(findings, kinds[i]) == [] then [] else [FixedCandidate(kinds[i], findings)]
  {
    assert kinds[..i + 1] == kinds[..i] + [kinds[i]] && [kinds[i]][1..] == [];
    FixedCandidatesConcat(kinds[..i], [kinds[i]], findings);
  }

  method BuildFixedCandidates(kinds: seq<FindingType>, byType: map<FindingType, seq<Finding>>,
                              ghost findings: seq<Finding>)
    returns (candidates: seq<Candidate>)
    requires GroupedBy(byType, findings)
    ensures candidates == FixedCandidates(kinds, findings)
  {
    candidates := [];
    for i := 0 to |kinds|
      invariant candidates == FixedCandidates(kinds[..i], findings)
    {
      var kind := kinds[i];
      FixedCandidatesAppend(kinds, i, findings);
      if kind in byType {
        var confidence := if IsForced(kind) then High else InferConfidence(byType[kind]);
        candidates := candidates + [MakeCandidate(kind, byType[kind], confidence, [])];
      }
    }
    assert kinds[..|kinds|] == kinds;
  }

  lemma {:induction false} FixedCandidatesHave(kinds: seq<FindingType>, findings: seq<Finding>, kind: FindingType)
    ensures (exists c :: c in FixedCandidates(kinds, findings) && c.kind == kind) <==>
            kind in kinds && OfKind(findings, kind) != []
  {
    if kinds != [] {
      FixedCandidatesHave(kinds[1..], findings, kind);
      var all, tail := FixedCandidates(kinds, findings), FixedCandidates(kinds[1..], findings);
      assert kinds == [kinds[0]] + kinds[1..];
      assert forall c :: c in tail ==> c in all;
      if OfKind(findings, kinds[0]) != [] {
        assert all == [FixedCandidate(kinds[0], findings)] + tail;
        assert FixedCandidate(kinds[0], findings) in all;
      } else {
        assert all == tail;
      }
    }
  }

  lemma RuntimeSignalShows(findings: seq<Finding>)
    ensures HasRuntimeSignal(findings) <==>
            (exists c :: c in FixedCandidates(FORCED + INFERRED, findings) && c.kind in INFERRED)
  {
    var fixed := FixedCandidates(FORCED + INFERRED, findings);
    forall k ensures (exists c :: c in fixed && c.kind == k) <==> k in FORCED + INFERRED && OfKind(findings, k) != [] {
      FixedCandidatesHave(FORCED + INFERRED, findings, k);
    }
    forall k ensures OfKind(findings, k) != [] <==> exists f :: f in findings && f.kind == k {
      OfKindMembers(findings, k);
      assert OfKind(findings, k) != [] ==> OfKind(findings, k)[0] in OfKind(findings, k);
    }
    if HasRuntimeSignal(findings) {
      var f :| f in findings && f.kind in INFERRED;
      assert OfKind(findings, f.kind) != [];
    }
    if c :| c in fixed && c.kind in INFERRED {
      assert OfKind(findings, c.kind) != [];
    }
  }

  method BuildApplicationRootCauseCandidates(signals: seq<Finding>, alert: Alert) returns (r: seq<Candidate>)
    ensures IsTopThree(r, Candidates(signals + AlertFindings(alert)))
  {
    var findings := signals + AlertFindings(alert);
    var byType := GroupFindings(findings);
    var candidates := BuildFixedCandidates(FORCED + INFERRED, byType, findings);
    var deployment := if DeploymentRegression in byType then byType[DeploymentRegression] else [];
    RuntimeSignalShows(findings);
    if deployment != [] && exists c :: c in candidates && c.kind in INFERRED {
      candidates := candidates
        + [MakeCandidate(DeploymentRegression, deployment, InferConfidence(deployment), [Context(OVERLAP)])];
    } else if deployment != [] {
      candidates := candidates + [MakeCandidate(DeploymentRegression, deployment, Low, [Context(NO_OVERLAP)])];
    }
    assert candidates == Candidates(findings);
    RankingIsTopThree(findings);
    r := TakeThree(OnlyVisible(Sort(candidates, ByKey(BY_RANK))));
  }
}
