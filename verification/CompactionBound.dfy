/** How close compaction comes to its size bound: exactly which budgets and limits let a payload reach
    2 * budget + 37 characters. */
module CompactionBound {
  import opened Json
  import opened Compaction

  /** The characters that escaping doubles, and that escaping produces twice. */
  predicate Doubles(c: char) { c == '"' || c == '\\' }

  predicate AllDouble(s: string) { forall i :: 0 <= i < |s| ==> Doubles(s[i]) }

  lemma {:induction false} DoubledIff(s: string)
    requires NoControls(s)
    ensures |EscapeAll(s)| == 2 * |s| <==> AllDouble(s)
  {
    if s != [] {
      DoubledIff(s[1..]);
      EscapeAtMostDoubles(s[1..]);
      assert s == [s[0]] + s[1..];
    }
  }

  predicate Attains(j: Json, budget: nat, depth: int, listLimit: nat, stringLimit: nat) {
    CharSize(CompactPayload(j, budget, depth, listLimit, stringLimit)) == 2 * budget + 37
  }

  /** A payload reaches the bound exactly when the excerpt is taken and every character of it doubles. */
  lemma AttainsIffAllDouble(j: Json, budget: nat, depth: int, listLimit: nat, stringLimit: nat)
    ensures Attains(j, budget, depth, listLimit, stringLimit) <==>
      && ExcerptTaken(j, budget, depth, listLimit, stringLimit)
      && AllDouble(Dump(Smaller(j, depth, listLimit, stringLimit), SPACED)[..budget])
  {
    CompactionSize(j, budget, depth, listLimit, stringLimit);
    if ExcerptTaken(j, budget, depth, listLimit, stringLimit) {
      var text := Dump(Smaller(j, depth, listLimit, stringLimit), SPACED);
      DumpHasNoControls(Smaller(j, depth, listLimit, stringLimit), SPACED);
      ExcerptSize(text, budget);
      DoubledIff(text[..budget]);
    }
  }

  /** How many characters of a string each of the two trims keeps. */
  function FirstKeeps(depth: int, stringLimit: nat): nat { if depth <= 0 then 300 else stringLimit }

  function SecondKeeps(depth: int, stringLimit: nat): nat {
    if depth <= 1 then 300 else if stringLimit / 2 < 120 then 120 else stringLimit / 2
  }

  lemma TrimsOfString(s: string, depth: int, listLimit: nat, stringLimit: nat)
    ensures Compacted(Str(s), depth, listLimit, stringLimit) == Str(Truncate(s, FirstKeeps(depth, stringLimit)))
    ensures Smaller(Str(s), depth, listLimit, stringLimit) == Str(Truncate(s, SecondKeeps(depth, stringLimit)))
  {
  }

  lemma OnlyStringsStartDoubling(j: Json)
    ensures Dump(j, SPACED) != [] && (Doubles(Dump(j, SPACED)[0]) ==> j.Str?)
  {
    match j
    case Int(n) => NatTextStarts(if n < 0 then -n else n);
    case _ =>
  }

  lemma {:induction false} NatTextStarts(n: nat)
    ensures NatText(n) != [] && !Doubles(NatText(n)[0])
  {
    if n >= 10 { NatTextStarts(n / 10); }
  }

  lemma OnlyStringsTrimToStrings(j: Json, depth: int, listLimit: nat, stringLimit: nat)
    ensures Smaller(j, depth, listLimit, stringLimit).Str? ==> j.Str?
  {
  }

  /** The budgets that can be reached. */
  predicate CanAttain(budget: nat, depth: int, stringLimit: nat) {
    var first, second := FirstKeeps(depth, stringLimit), SecondKeeps(depth, stringLimit);
    budget <= 2 * second + 1 && (second <= first || budget <= 2 * first + 4)
  }

  // ---------- A payload that reaches them ----------

  lemma QuotedBackslashes(n: nat, budget: nat)
    requires budget <= 2 * n + 1
    ensures var text := Quote(Backslashes(n)); |text| == 2 * n + 2 && AllDouble(text[..budget])
  {
    BackslashesDouble(n);
  }

  lemma CutBackslashes(n: nat, limit: nat)
    requires limit < n
    ensures |Quote(Truncate(Backslashes(n), limit))| == 2 * limit + 5
  {
    assert Backslashes(n)[..limit] == Backslashes(limit);
    BackslashesDouble(limit);
    PlainTextEscapesToItself("...");
    EscapeConcat(Backslashes(limit), "...");
  }

  lemma BackslashesAttain(budget: nat, depth: int, listLimit: nat, stringLimit: nat)
    requires CanAttain(budget, depth, stringLimit)
    ensures Attains(Str(Backslashes(SecondKeeps(depth, stringLimit))), budget, depth, listLimit, stringLimit)
  {
    var first, second := FirstKeeps(depth, stringLimit), SecondKeeps(depth, stringLimit);
    var s := Backslashes(second);
    TrimsOfString(s, depth, listLimit, stringLimit);
    QuotedBackslashes(second, budget);
    if first < second { CutBackslashes(second, first); }
    AttainsIffAllDouble(Str(s), budget, depth, listLimit, stringLimit);
  }

  // ---------- No payload reaches others ----------

  /** The first character that `c` prints as in an escaped string doubles. */
  predicate PrintsDoubling(c: char) { Doubles(EscapeChar(c)[0]) }

  lemma DoublingChar(c: char, rest: string, m: nat)
    requires 2 <= m <= |EscapeChar(c) + rest| && AllDouble((EscapeChar(c) + rest)[..m])
    ensures Doubles(c) && |EscapeChar(c)| == 2
  {
    var text := (EscapeChar(c) + rest)[..m];
    assert Doubles(text[0]) && Doubles(text[1]);
    assert text[0] == EscapeChar(c)[0];
    assert |EscapeChar(c)| > 1 ==> text[1] == EscapeChar(c)[1];
  }

  /** Escaped text whose first `m` characters double comes from text whose characters double up to
      there. */
  lemma {:induction false} DoublingStart(t: string, m: nat)
    requires m <= |EscapeAll(t)| && AllDouble(EscapeAll(t)[..m])
    ensures (m + 1) / 2 <= |t|
    ensures forall i :: 0 <= i < (m + 1) / 2 ==> PrintsDoubling(t[i])
    ensures forall i :: 0 <= i < m / 2 ==> Doubles(t[i])
  {
    if m > 0 {
      var e, rest := EscapeChar(t[0]), EscapeAll(t[1..]);
      assert EscapeAll(t)[..m][0] == e[0];
      if m >= 2 {
        DoublingChar(t[0], rest, m);
        forall i | 0 <= i < m - 2 ensures Doubles(rest[i]) { assert (e + rest)[..m][i + 2] == rest[i]; }
        DoublingStart(t[1..], m - 2);
        assert forall i :: 1 <= i < |t| ==> t[i] == t[1..][i - 1];
      }
    }
  }

  /** What a string that reaches the bound is like after the second trim. */
  lemma AttainingStarts(s: string, budget: nat, depth: int, listLimit: nat, stringLimit: nat)
    requires budget > 0 && Attains(Str(s), budget, depth, listLimit, stringLimit)
    ensures var t := Truncate(s, SecondKeeps(depth, stringLimit));
      && budget / 2 <= |t|
      && (forall i :: 0 <= i < budget / 2 ==> PrintsDoubling(t[i]))
      && (forall i :: 0 <= i < (budget - 1) / 2 ==> Doubles(t[i]))
    ensures |Quote(Truncate(s, FirstKeeps(depth, stringLimit)))| > budget
  {
    var t := Truncate(s, SecondKeeps(depth, stringLimit));
    TrimsOfString(s, depth, listLimit, stringLimit);
    AttainsIffAllDouble(Str(s), budget, depth, listLimit, stringLimit);
    var text, e := Quote(t), EscapeAll(t);
    assert |text| == |e| + 2;
    forall i | 0 <= i < budget - 1 ensures Doubles(e[i]) { assert text[..budget][i + 1] == e[i]; }
    DoublingStart(t, budget - 1);
  }

  lemma DotAfterCut(s: string, limit: nat)
    ensures var t := Truncate(s, limit); |t| > limit ==> !PrintsDoubling(t[limit])
  {
  }

  lemma SecondTrimCaps(s: string, budget: nat, depth: int, listLimit: nat, stringLimit: nat)
    requires Attains(Str(s), budget, depth, listLimit, stringLimit)
    ensures budget <= 2 * SecondKeeps(depth, stringLimit) + 1
  {
    DotAfterCut(s, SecondKeeps(depth, stringLimit));
    if budget > 0 { AttainingStarts(s, budget, depth, listLimit, stringLimit); }
  }

  /** A string cut by the first trim whose kept characters double prints to a known length. */
  lemma FirstCutSize(s: string, limit: nat)
    ensures limit < |s| && AllDouble(s[..limit]) && NoControls(s[..limit]) ==>
      |Quote(Truncate(s, limit))| == 2 * limit + 5
  {
    if limit < |s| && AllDouble(s[..limit]) {
      DoubledIff(s[..limit]);
      PlainTextEscapesToItself("...");
      EscapeConcat(s[..limit], "...");
    }
  }

  lemma FirstTrimCaps(s: string, budget: nat, depth: int, listLimit: nat, stringLimit: nat)
    requires Attains(Str(s), budget, depth, listLimit, stringLimit)
    requires FirstKeeps(depth, stringLimit) < SecondKeeps(depth, stringLimit)
    ensures budget <= 2 * FirstKeeps(depth, stringLimit) + 4
  {
    var first, t := FirstKeeps(depth, stringLimit), Truncate(s, SecondKeeps(depth, stringLimit));
    FirstCutSize(s, first);
    assert first <= |s| ==> s[..first] == t[..first];
    if budget > 0 { AttainingStarts(s, budget, depth, listLimit, stringLimit); }
  }

  lemma AttainingIsString(j: Json, budget: nat, depth: int, listLimit: nat, stringLimit: nat)
    requires budget > 0 && Attains(j, budget, depth, listLimit, stringLimit)
    ensures j.Str?
  {
    var smaller := Smaller(j, depth, listLimit, stringLimit);
    AttainsIffAllDouble(j, budget, depth, listLimit, stringLimit);
    OnlyStringsStartDoubling(smaller);
    OnlyStringsTrimToStrings(j, depth, listLimit, stringLimit);
    assert Dump(smaller, SPACED)[..budget][0] == Dump(smaller, SPACED)[0];
  }

  /** Exactly when some payload reaches the bound. */
  lemma BoundIsAttainedIff(budget: nat, depth: int, listLimit: nat, stringLimit: nat)
    ensures (exists j :: Attains(j, budget, depth, listLimit, stringLimit)) <==> CanAttain(budget, depth, stringLimit)
  {
    if CanAttain(budget, depth, stringLimit) { BackslashesAttain(budget, depth, listLimit, stringLimit); }
    if j :| Attains(j, budget, depth, listLimit, stringLimit) {
      if budget > 0 {
        AttainingIsString(j, budget, depth, listLimit, stringLimit);
        SecondTrimCaps(j.s, budget, depth, listLimit, stringLimit);
        if FirstKeeps(depth, stringLimit) < SecondKeeps(depth, stringLimit) {
          FirstTrimCaps(j.s, budget, depth, listLimit, stringLimit);
        }
      }
    }
  }

  /** With the default limits: for budgets of at most 801. */
  lemma DefaultsAttainIff(budget: nat)
    ensures (exists j :: Attains(j, budget, 4, 4, 800)) <==> budget <= 801
  {
    BoundIsAttainedIff(budget, 4, 4, 800);
  }
}
