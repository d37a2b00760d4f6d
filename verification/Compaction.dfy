/** Shrinking a payload before it is put into an LLM prompt: `compact_payload_for_llm` and the
    trimming, summarizing and truncating it is made of. */
module Compaction {
  import opened Options
  import opened Json
  import R = Redaction

  const LARGE_KEYS: set<string> :=
    {"context_bundle", "raw", "raw_tool_results", "response_payload", "masked_response_payload"}

  function Truncate(s: string, limit: nat): string {
    if |s| <= limit then s else s[..limit] + "..."
  }

  function Min(a: int, b: int): int { if a < b then a else b }
  function Max(a: int, b: int): int { if a < b then b else a }

  function KeyNames(fields: seq<Field>): seq<Json> {
    seq(Min(|fields|, 10), i requires 0 <= i < Min(|fields|, 10) => Str(fields[i].key))
  }

  function Summarize(j: Json): Json {
    match j
    case Obj(fields) => Obj([Field("trimmed_object_keys", Arr(KeyNames(fields))), Field("trimmed", Bool(true))])
    case Arr(items) => Obj([Field("trimmed_list_length", Int(|items|)), Field("trimmed", Bool(true))])
    case Str(s) => Str(Truncate(s, 300))
    case _ => j
  }

  function RemoveLarge(j: Json): Json
    decreases j, 1
  {
    match j
    case Obj(fields) => Obj(RemoveLargeFields(fields))
    case Arr(items) => Arr(RemoveLargeItems(items))
    case _ => j
  }

  function RemoveLargeField(f: Field): Field
    decreases f, 0
  {
    Field(f.key, if f.key in LARGE_KEYS then Summarize(f.value) else RemoveLarge(f.value))
  }

  function RemoveLargeFields(fields: seq<Field>): (r: seq<Field>)
    ensures |r| == |fields| && forall i :: 0 <= i < |r| ==> r[i] == RemoveLargeField(fields[i])
    decreases fields, 0
  {
    if fields == [] then [] else [RemoveLargeField(fields[0])] + RemoveLargeFields(fields[1..])
  }

  function RemoveLargeItems(items: seq<Json>): (r: seq<Json>)
    ensures |r| == |items| && forall i :: 0 <= i < |r| ==> r[i] == RemoveLarge(items[i])
    decreases items, 0
  {
    if items == [] then [] else [RemoveLarge(items[0])] + RemoveLargeItems(items[1..])
  }

  /** `remove_large_llm_fields` as it runs: a loop that fills a new dictionary. */
  method RemoveLargeLlmFields(j: Json) returns (r: Json)
    ensures r == RemoveLarge(j)
    decreases j
  {
    match j
    case Obj(fields) =>
      var filtered := [];
      for i := 0 to |fields|
        invariant |filtered| == i && forall k :: 0 <= k < i ==> filtered[k] == RemoveLargeField(fields[k])
      {
        var item;
        if fields[i].key in LARGE_KEYS {
          item := Summarize(fields[i].value);
        } else {
          item := RemoveLargeLlmFields(fields[i].value);
        }
        filtered := filtered + [Field(fields[i].key, item)];
      }
      assert filtered == RemoveLargeFields(fields);
      r := Obj(filtered);
    case Arr(items) =>
      var out := [];
      for i := 0 to |items|
        invariant |out| == i && forall k :: 0 <= k < i ==> out[k] == RemoveLarge(items[k])
      {
        var item := RemoveLargeLlmFields(items[i]);
        out := out + [item];
      }
      assert out == RemoveLargeItems(items);
      r := Arr(out);
    case _ => r := j;
  }

  function Trim(j: Json, depth: int, listLimit: nat, stringLimit: nat): Json
    decreases j, 1
  {
    if depth <= 0 then Summarize(j)
    else match j
      case Obj(fields) => Obj(TrimFields(fields, depth - 1, listLimit, stringLimit))
      case Arr(items) =>
        Arr(TrimItems(items, Min(|items|, listLimit), depth - 1, listLimit, stringLimit) +
            if |items| > listLimit then [TruncatedItems(|items| - listLimit)] else [])
      case Str(s) => Str(Truncate(s, stringLimit))
      case _ => j
  }

  function TruncatedItems(n: nat): Json { Obj([Field("truncated_items", Int(n))]) }

  function TrimFields(fields: seq<Field>, depth: int, listLimit: nat, stringLimit: nat): seq<Field>
    decreases fields, 0
  {
    if fields == [] then []
    else
      (if fields[0].key == "raw_tool_results" then []
       else [Field(fields[0].key, Trim(fields[0].value, depth, listLimit, stringLimit))])
      + TrimFields(fields[1..], depth, listLimit, stringLimit)
  }

  /** The first `n` items, trimmed. */
  function TrimItems(items: seq<Json>, n: nat, depth: int, listLimit: nat, stringLimit: nat): (r: seq<Json>)
    requires n <= |items|
    ensures |r| == n && forall i :: 0 <= i < n ==> r[i] == Trim(items[i], depth, listLimit, stringLimit)
    decreases items, 0
  {
    if n == 0 then []
    else [Trim(items[0], depth, listLimit, stringLimit)] + TrimItems(items[1..], n - 1, depth, listLimit, stringLimit)
  }

  function CharSize(j: Json): nat { |Dump(j, SPACED)| }

  function Compacted(j: Json, depth: int, listLimit: nat, stringLimit: nat): Json {
    Trim(RemoveLarge(j), depth, listLimit, stringLimit)
  }

  function Smaller(j: Json, depth: int, listLimit: nat, stringLimit: nat): Json {
    Trim(RemoveLarge(j), depth - 1, Max(1, listLimit / 2), Max(120, stringLimit / 2))
  }

  function Excerpt(text: string, budget: nat): Json {
    Obj([Field("truncated", Bool(true)), Field("excerpt", Str(Truncate(text, budget)))])
  }

  function CompactPayload(j: Json, budget: nat, depth: int, listLimit: nat, stringLimit: nat): Json {
    var compacted := Compacted(j, depth, listLimit, stringLimit);
    var smaller := Smaller(j, depth, listLimit, stringLimit);
    if CharSize(compacted) <= budget then compacted
    else if CharSize(smaller) <= budget then smaller
    else Excerpt(Dump(smaller, SPACED), budget)
  }

  // ---------- The real size bound ----------

  lemma {:induction false} EscapeAtMostDoubles(s: string)
    requires NoControls(s)
    ensures |s| <= |EscapeAll(s)| <= 2 * |s|
  {
    if s != [] { EscapeAtMostDoubles(s[1..]); }
  }

  predicate Plain(c: char) { !IsControl(c) && c != '"' && c != '\\' }

  lemma {:induction false} PlainTextEscapesToItself(s: string)
    requires forall i :: 0 <= i < |s| ==> Plain(s[i])
    ensures EscapeAll(s) == s
  {
    if s != [] {
      PlainTextEscapesToItself(s[1..]);
      assert s == [s[0]] + s[1..];
    }
  }

  lemma {:induction false} EscapeConcat(a: string, b: string)
    ensures EscapeAll(a + b) == EscapeAll(a) + EscapeAll(b)
  {
    if a == [] {
      assert a + b == b;
    } else {
      assert (a + b)[1..] == a[1..] + b;
      EscapeConcat(a[1..], b);
    }
  }

  lemma DumpOfTwoFields(f0: Field, f1: Field)
    ensures CharSize(Obj([f0, f1])) == 4 + |DumpField(f0, SPACED)| + |DumpField(f1, SPACED)|
  {
    var fields := [f0, f1];
    assert fields[1..] == [f1];
    assert DumpFields([f1], SPACED) == DumpField(f1, SPACED);
    assert DumpFields(fields, SPACED) == DumpField(f0, SPACED) + ", " + DumpField(f1, SPACED);
  }

  lemma ExcerptSize(text: string, budget: nat)
    requires |text| > budget
    ensures CharSize(Excerpt(text, budget)) == 37 + |EscapeAll(text[..budget])|
  {
    var cut := text[..budget] + "...";
    PlainTextEscapesToItself("truncated");
    PlainTextEscapesToItself("excerpt");
    PlainTextEscapesToItself("...");
    EscapeConcat(text[..budget], "...");
    assert |Quote(cut)| == |EscapeAll(text[..budget])| + 5;
    var f0, f1 := Field("truncated", Bool(true)), Field("excerpt", Str(cut));
    assert |DumpField(f0, SPACED)| == |Quote("truncated")| + 2 + |"true"| == 17;
    assert |DumpField(f1, SPACED)| == |Quote("excerpt")| + 2 + |Quote(cut)| == 11 + |Quote(cut)|;
    DumpOfTwoFields(f0, f1);
  }

  /** Neither trimmed form fits the budget: the branch that prints JSON inside a JSON string. */
  predicate ExcerptTaken(j: Json, budget: nat, depth: int, listLimit: nat, stringLimit: nat) {
    && CharSize(Compacted(j, depth, listLimit, stringLimit)) > budget
    && CharSize(Smaller(j, depth, listLimit, stringLimit)) > budget
  }

  /** The budget is met exactly when the excerpt branch is not taken; there the excerpt is escaped a
      second time, and the result still stays within twice the budget plus 37 characters. */
  lemma CompactionSize(j: Json, budget: nat, depth: int, listLimit: nat, stringLimit: nat)
    ensures var size := CharSize(CompactPayload(j, budget, depth, listLimit, stringLimit));
      && size <= 2 * budget + 37
      && (size <= budget <==> !ExcerptTaken(j, budget, depth, listLimit, stringLimit))
  {
    if ExcerptTaken(j, budget, depth, listLimit, stringLimit) {
      var text := Dump(Smaller(j, depth, listLimit, stringLimit), SPACED);
      DumpHasNoControls(Smaller(j, depth, listLimit, stringLimit), SPACED);
      EscapeAtMostDoubles(text[..budget]);
      ExcerptSize(text, budget);
    }
  }

  function Backslashes(n: nat): string { seq(n, _ => '\\') }

  lemma {:induction false} BackslashesDouble(n: nat)
    ensures EscapeAll(Backslashes(n)) == Backslashes(2 * n)
  {
    if n > 0 {
      BackslashesDouble(n - 1);
      assert Backslashes(n)[1..] == Backslashes(n - 1);
      assert Backslashes(2 * n) == "\\\\" + Backslashes(2 * (n - 1));
    }
  }

  /** The bound is attained for every budget. */
  lemma CompactionBoundIsAttained(budget: nat)
    ensures CharSize(CompactPayload(Str(Backslashes(budget)), budget, 4, 4, 2 * budget + 800)) == 2 * budget + 37
  {
    var s := Backslashes(budget);
    var text := Dump(Str(s), SPACED);
    BackslashesDouble(budget);
    assert Smaller(Str(s), 4, 4, 2 * budget + 800) == Compacted(Str(s), 4, 4, 2 * budget + 800) == Str(s);
    assert text == "\"" + Backslashes(2 * budget) + "\"";
    ExcerptSize(text, budget);
    if budget > 0 {
      assert text[..budget] == "\"" + Backslashes(budget - 1);
      BackslashesDouble(budget - 1);
    }
  }

  // ---------- What trimming guarantees ----------

  function Nest(j: Json): nat
    decreases j, 1
  {
    match j
    case Obj(fields) => 1 + NestFields(fields)
    case Arr(items) => 1 + NestItems(items)
    case _ => 0
  }

  function NestFields(fields: seq<Field>): nat
    decreases fields, 0
  {
    if fields == [] then 0 else Max(Nest(fields[0].value), NestFields(fields[1..]))
  }

  function NestItems(items: seq<Json>): nat
    decreases items, 0
  {
    if items == [] then 0 else Max(Nest(items[0]), NestItems(items[1..]))
  }

  lemma {:induction false} NestItemsBound(items: seq<Json>, n: nat)
    requires forall i :: 0 <= i < |items| ==> Nest(items[i]) <= n
    ensures NestItems(items) <= n
  {
    if items != [] { NestItemsBound(items[1..], n); }
  }

  lemma NestOfFields(f0: Field, f1: Field)
    ensures Nest(Obj([f0])) == 1 + Nest(f0.value)
    ensures Nest(Obj([f0, f1])) == 1 + Max(Nest(f0.value), Nest(f1.value))
  {
    assert [f0][1..] == [] && [f1][1..] == [] && [f0, f1][1..] == [f1];
    assert NestFields([]) == 0;
    assert NestFields([f0]) == Max(Nest(f0.value), 0);
    assert NestFields([f1]) == Max(Nest(f1.value), 0);
  }

  lemma SummaryNests(j: Json)
    ensures Nest(Summarize(j)) <= 2
    ensures j.Obj? ==> Nest(Summarize(j)) == 2
  {
    var f1 := Field("trimmed", Bool(true));
    if j.Obj? {
      NestItemsBound(KeyNames(j.fields), 0);
      NestOfFields(Field("trimmed_object_keys", Arr(KeyNames(j.fields))), f1);
    } else if j.Arr? {
      NestOfFields(Field("trimmed_list_length", Int(|j.items|)), f1);
    }
  }

  lemma TruncatedItemsNests(n: nat)
    ensures Nest(TruncatedItems(n)) == 1
  {
    var f := Field("truncated_items", Int(n));
    NestOfFields(f, f);
  }

  /** The trimmed payload nests at most two containers deeper than the depth asked for. */
  lemma {:induction false} TrimNesting(j: Json, depth: int, listLimit: nat, stringLimit: nat)
    ensures Nest(Trim(j, depth, listLimit, stringLimit)) <= Max(depth, 0) + 2
    decreases j, 1
  {
    if depth <= 0 {
      SummaryNests(j);
    } else {
      match j
      case Obj(fields) => TrimFieldsNesting(fields, depth - 1, listLimit, stringLimit);
      case Arr(items) =>
        forall i | 0 <= i < |items| { TrimNesting(items[i], depth - 1, listLimit, stringLimit); }
        if |items| > listLimit { TruncatedItemsNests(|items| - listLimit); }
        NestItemsBound(Trim(j, depth, listLimit, stringLimit).items, depth + 1);
      case _ =>
    }
  }

  lemma {:induction false} TrimFieldsNesting(fields: seq<Field>, depth: int, listLimit: nat, stringLimit: nat)
    ensures NestFields(TrimFields(fields, depth, listLimit, stringLimit)) <= Max(depth, 0) + 2
    decreases fields, 0
  {
    if fields != [] {
      TrimNesting(fields[0].value, depth, listLimit, stringLimit);
      TrimFieldsNesting(fields[1..], depth, listLimit, stringLimit);
      var rest := TrimFields(fields[1..], depth, listLimit, stringLimit);
      if fields[0].key != "raw_tool_results" {
        var f := Field(fields[0].key, Trim(fields[0].value, depth, listLimit, stringLimit));
        assert ([f] + rest)[1..] == rest;
      } else {
        assert [] + rest == rest;
      }
    }
  }

  /** `{"k": {"k": ... {}}}`, `n` objects around an empty one. */
  function Tower(n: nat): Json { if n == 0 then Obj([]) else Obj([Field("k", Tower(n - 1))]) }

  /** The two extra containers are really reached, at every depth. */
  lemma TrimOfTower(n: nat, depth: int, listLimit: nat, stringLimit: nat)
    requires n > 0
    ensures TrimFields([Field("k", Tower(n - 1))], depth, listLimit, stringLimit) ==
      [Field("k", Trim(Tower(n - 1), depth, listLimit, stringLimit))]
  {
    var f := Field("k", Tower(n - 1));
    assert [f][1..] == [] && f.key != "raw_tool_results";
    assert TrimFields([], depth, listLimit, stringLimit) == [];
  }

  lemma {:induction false} TrimNestingIsAttained(depth: nat, listLimit: nat, stringLimit: nat)
    ensures Nest(Trim(Tower(depth), depth, listLimit, stringLimit)) == depth + 2
  {
    if depth == 0 {
      SummaryNests(Tower(0));
    } else {
      TrimNestingIsAttained(depth - 1, listLimit, stringLimit);
      TrimOfTower(depth, depth - 1, listLimit, stringLimit);
      var g := Field("k", Trim(Tower(depth - 1), depth - 1, listLimit, stringLimit));
      NestOfFields(g, g);
    }
  }

  /** The list of key names that stands for an object below the depth limit. */
  predicate IsKeySummary(j: Json) {
    && j.Obj? && |j.fields| == 2
    && j.fields[0].key == "trimmed_object_keys" && j.fields[0].value.Arr? && |j.fields[0].value.items| <= 10
    && (forall k :: 0 <= k < |j.fields[0].value.items| ==> j.fields[0].value.items[k].Str?)
    && j.fields[1] == Field("trimmed", Bool(true))
  }

  /** No list longer than `lists` and no string longer than `strings`; only below the depth limit may an
      object be the list of its key names instead. */
  predicate Bounded(j: Json, depth: int, lists: nat, strings: nat) {
    match j
    case Str(s) => |s| <= strings
    case Arr(items) => |items| <= lists && forall i :: 0 <= i < |items| ==> Bounded(items[i], depth - 1, lists, strings)
    case Obj(fields) =>
      || (depth <= 0 && IsKeySummary(j))
      || forall i :: 0 <= i < |fields| ==> Bounded(fields[i].value, depth - 1, lists, strings)
    case _ => true
  }

  lemma {:induction false} TrimBounds(j: Json, depth: int, listLimit: nat, stringLimit: nat)
    ensures Bounded(Trim(j, depth, listLimit, stringLimit), depth, listLimit + 1, Max(stringLimit, 300) + 3)
    decreases j, 1
  {
    if depth > 0 {
      match j
      case Obj(fields) => TrimFieldsBounds(fields, depth - 1, listLimit, stringLimit);
      case Arr(items) =>
        forall i | 0 <= i < |items| { TrimBounds(items[i], depth - 1, listLimit, stringLimit); }
      case _ =>
    }
  }

  lemma {:induction false} TrimFieldsBounds(fields: seq<Field>, depth: int, listLimit: nat, stringLimit: nat)
    ensures forall f :: f in TrimFields(fields, depth, listLimit, stringLimit) ==>
      Bounded(f.value, depth, listLimit + 1, Max(stringLimit, 300) + 3)
    decreases fields, 0
  {
    if fields != [] {
      TrimBounds(fields[0].value, depth, listLimit, stringLimit);
      TrimFieldsBounds(fields[1..], depth, listLimit, stringLimit);
    }
  }

  /** A trimmed list keeps a prefix, item by item, and counts what it dropped: kept items plus
      `truncated_items` is the original length. */
  lemma {:induction false} TrimmedListAccountsForAll(items: seq<Json>, depth: int, listLimit: nat, stringLimit: nat)
    requires depth > 0
    ensures var out := Trim(Arr(items), depth, listLimit, stringLimit).items;
      && |out| <= listLimit + 1
      && (forall i :: 0 <= i < |items| && i < listLimit ==>
            out[i] == Trim(items[i], depth - 1, listLimit, stringLimit))
      && if |items| <= listLimit then |out| == |items|
         else exists dropped: nat :: out[listLimit] == TruncatedItems(dropped) && listLimit + dropped == |items|
  {
    if |items| > listLimit {
      assert Trim(Arr(items), depth, listLimit, stringLimit).items[listLimit] == TruncatedItems(|items| - listLimit);
    }
  }

  // ---------- When trimming changes nothing ----------

  predicate Kept(s: string, limit: nat) {
    |s| <= limit || (|s| == limit + 3 && s[limit..] == "...")
  }

  /** What an object below the depth limit must be for its summary to be itself. */
  function OwnSummary(): Json {
    Obj([Field("trimmed_object_keys", Arr([Str("trimmed_object_keys"), Str("trimmed")])), Field("trimmed", Bool(true))])
  }

  /** Within the limits at every level, or already in the shape that trimming leaves behind. */
  predicate WithinLimits(j: Json, depth: int, listLimit: nat, stringLimit: nat)
    decreases j
  {
    match j
    case Str(s) => Kept(s, if depth <= 0 then 300 else stringLimit)
    case Arr(items) =>
      && depth > 0
      && LengthKept(items, listLimit)
      && forall i :: 0 <= i < |items| && i < listLimit ==> WithinLimits(items[i], depth - 1, listLimit, stringLimit)
    case Obj(fields) =>
      if depth <= 0 then j == OwnSummary()
      else forall i :: 0 <= i < |fields| ==>
        fields[i].key != "raw_tool_results" && WithinLimits(fields[i].value, depth - 1, listLimit, stringLimit)
    case _ => true
  }

  lemma KeptIffTruncateIsIdentity(s: string, limit: nat)
    ensures Truncate(s, limit) == s <==> Kept(s, limit)
  {
    if |s| > limit {
      assert s == s[..limit] + s[limit..];
      assert (s[..limit] + "...")[limit..] == "...";
    }
  }

  lemma OwnSummaryIsTheOnlyFixedObject(fields: seq<Field>)
    ensures Summarize(Obj(fields)) == Obj(fields) <==> Obj(fields) == OwnSummary()
  {
    if Summarize(Obj(fields)) == Obj(fields) {
      assert |fields| == 2;
      assert KeyNames(fields) == [Str("trimmed_object_keys"), Str("trimmed")];
    }
    if Obj(fields) == OwnSummary() {
      assert KeyNames(fields) == [Str("trimmed_object_keys"), Str("trimmed")];
    }
  }

  lemma {:induction false} TrimFieldsLength(fields: seq<Field>, depth: int, listLimit: nat, stringLimit: nat)
    ensures |TrimFields(fields, depth, listLimit, stringLimit)| <= |fields|
  {
    if fields != [] { TrimFieldsLength(fields[1..], depth, listLimit, stringLimit); }
  }

  /** `items` may keep element `i`. */
  predicate ItemKept(items: seq<Json>, i: nat, depth: int, listLimit: nat, stringLimit: nat)
    requires i < |items|
  {
    Trim(items[i], depth - 1, listLimit, stringLimit) == items[i]
  }

  /** A list within the limit, or one that already ends in the count of one dropped item. */
  predicate LengthKept(items: seq<Json>, listLimit: nat) {
    |items| <= listLimit || (|items| == listLimit + 1 && items[listLimit] == TruncatedItems(1))
  }

  lemma FixedListIsKept(items: seq<Json>, depth: int, listLimit: nat, stringLimit: nat)
    requires depth > 0 && Trim(Arr(items), depth, listLimit, stringLimit) == Arr(items)
    ensures LengthKept(items, listLimit)
    ensures forall i :: 0 <= i < |items| && i < listLimit ==> ItemKept(items, i, depth, listLimit, stringLimit)
  {
    var out := Trim(Arr(items), depth, listLimit, stringLimit).items;
    TrimmedListAccountsForAll(items, depth, listLimit, stringLimit);
    forall i | 0 <= i < |items| && i < listLimit ensures ItemKept(items, i, depth, listLimit, stringLimit) {
      assert out[i] == items[i];
    }
    assert |items| > listLimit ==> out[listLimit] == TruncatedItems(|items| - listLimit);
  }

  lemma KeptListIsFixed(items: seq<Json>, depth: int, listLimit: nat, stringLimit: nat)
    requires depth > 0 && LengthKept(items, listLimit)
    requires forall i :: 0 <= i < |items| && i < listLimit ==> ItemKept(items, i, depth, listLimit, stringLimit)
    ensures Trim(Arr(items), depth, listLimit, stringLimit) == Arr(items)
  {
    var out := Trim(Arr(items), depth, listLimit, stringLimit).items;
    TrimmedListAccountsForAll(items, depth, listLimit, stringLimit);
    forall i | 0 <= i < |items| && i < listLimit ensures out[i] == items[i] {
      assert ItemKept(items, i, depth, listLimit, stringLimit);
    }
    assert |items| > listLimit ==> out[listLimit] == TruncatedItems(|items| - listLimit);
    assert |out| == |items|;
    assert out == items;
  }

  /** Trimming leaves a payload alone exactly when it is within the limits. */
  lemma {:induction false} TrimIsIdentityIff(j: Json, depth: int, listLimit: nat, stringLimit: nat)
    ensures Trim(j, depth, listLimit, stringLimit) == j <==> WithinLimits(j, depth, listLimit, stringLimit)
    decreases j, 1
  {
    match j
    case Str(s) => KeptIffTruncateIsIdentity(s, if depth <= 0 then 300 else stringLimit);
    case Arr(items) =>
      if depth > 0 {
        forall i | 0 <= i < |items| { TrimIsIdentityIff(items[i], depth - 1, listLimit, stringLimit); }
        if Trim(j, depth, listLimit, stringLimit) == j { FixedListIsKept(items, depth, listLimit, stringLimit); }
        if WithinLimits(j, depth, listLimit, stringLimit) { KeptListIsFixed(items, depth, listLimit, stringLimit); }
      }
    case Obj(fields) =>
      if depth <= 0 {
        OwnSummaryIsTheOnlyFixedObject(fields);
      } else {
        TrimFieldsIdentityIff(fields, depth - 1, listLimit, stringLimit);
      }
    case _ =>
  }

  lemma {:induction false} TrimFieldsIdentityIff(fields: seq<Field>, depth: int, listLimit: nat, stringLimit: nat)
    ensures TrimFields(fields, depth, listLimit, stringLimit) == fields <==>
      forall i :: 0 <= i < |fields| ==>
        fields[i].key != "raw_tool_results" && WithinLimits(fields[i].value, depth, listLimit, stringLimit)
    decreases fields, 0
  {
    if fields != [] {
      var f, rest := fields[0], fields[1..];
      var trimmed := TrimFields(rest, depth, listLimit, stringLimit);
      TrimIsIdentityIff(f.value, depth, listLimit, stringLimit);
      TrimFieldsIdentityIff(rest, depth, listLimit, stringLimit);
      TrimFieldsLength(rest, depth, listLimit, stringLimit);
      assert fields == [f] + rest;
      if f.key != "raw_tool_results" {
        var g := Field(f.key, Trim(f.value, depth, listLimit, stringLimit));
        assert TrimFields(fields, depth, listLimit, stringLimit) == [g] + trimmed;
        assert [g] + trimmed == [f] + rest <==> g == f && trimmed == rest by {
          assert ([g] + trimmed)[1..] == trimmed && ([f] + rest)[1..] == rest;
          assert ([g] + trimmed)[0] == g && ([f] + rest)[0] == f;
        }
      }
      assert (forall i :: 0 <= i < |fields| ==>
          fields[i].key != "raw_tool_results" && WithinLimits(fields[i].value, depth, listLimit, stringLimit))
        <==> (f.key != "raw_tool_results" && WithinLimits(f.value, depth, listLimit, stringLimit)
          && forall i :: 0 <= i < |rest| ==>
               rest[i].key != "raw_tool_results" && WithinLimits(rest[i].value, depth, listLimit, stringLimit)) by {
        forall i | 0 <= i < |rest| ensures rest[i] == fields[i + 1] {
        }
      }
    }
  }

  // ---------- Removing large fields, on paths ----------

  predicate IsLargeStep(step: R.Step) { step.Key? && step.key in LARGE_KEYS }

  predicate NoLargeStep(path: seq<R.Step>) { forall i :: 0 <= i < |path| ==> !IsLargeStep(path[i]) }

  lemma {:induction false} FindRemoved(fields: seq<Field>, key: string)
    ensures R.FindKey(RemoveLargeFields(fields), key) ==
      match R.FindKey(fields, key)
      case None => None
      case Some(v) => Some(if key in LARGE_KEYS then Summarize(v) else RemoveLarge(v))
  {
    if fields != [] {
      FindRemoved(fields[1..], key);
      assert RemoveLargeFields(fields)[1..] == RemoveLargeFields(fields[1..]);
    }
  }

  /** A value first reached through a large key is replaced by its summary; every value reached
      without one stays where it was. */
  lemma {:induction false} RemoveLargeAtPath(j: Json, path: seq<R.Step>)
    requires path == [] || NoLargeStep(path[..|path| - 1])
    ensures R.At(RemoveLarge(j), path) ==
      match R.At(j, path)
      case None => None
      case Some(v) => Some(if path != [] && IsLargeStep(path[|path| - 1]) then Summarize(v) else RemoveLarge(v))
    decreases path
  {
    if path != [] {
      if path[0].Key? && j.Obj? { FindRemoved(j.fields, path[0].key); }
      match R.Child(j, path[0])
      case None =>
      case Some(child) =>
        if |path| > 1 {
          var init, rest := path[..|path| - 1], path[1..];
          assert init[0] == path[0] && init[1..] == rest[..|rest| - 1];
          forall i | 0 <= i < |init[1..]| ensures !IsLargeStep(init[1..][i]) {
            assert init[1..][i] == init[i + 1];
          }
          RemoveLargeAtPath(child, rest);
        }
    }
  }

  // ---------- Trimming, on paths ----------

  /** A step that trimming leaves open: not a dropped key, not an index past the limit. */
  predicate KeptStep(step: R.Step, listLimit: nat) {
    match step
    case Key(key) => key != "raw_tool_results"
    case Index(i) => i < listLimit
  }

  predicate KeptPath(path: seq<R.Step>, listLimit: nat) {
    forall i :: 0 <= i < |path| ==> KeptStep(path[i], listLimit)
  }

  lemma {:induction false} FindTrimmed(fields: seq<Field>, key: string, depth: int, listLimit: nat, stringLimit: nat)
    requires key != "raw_tool_results"
    ensures R.FindKey(TrimFields(fields, depth, listLimit, stringLimit), key) ==
      match R.FindKey(fields, key)
      case None => None
      case Some(v) => Some(Trim(v, depth, listLimit, stringLimit))
  {
    if fields != [] {
      var rest := TrimFields(fields[1..], depth, listLimit, stringLimit);
      FindTrimmed(fields[1..], key, depth, listLimit, stringLimit);
      if fields[0].key != "raw_tool_results" {
        var f := Field(fields[0].key, Trim(fields[0].value, depth, listLimit, stringLimit));
        assert ([f] + rest)[1..] == rest;
      } else {
        assert [] + rest == rest;
      }
    }
  }

  /** Above the depth limit every value stays where it was, trimmed with the depth that is left. */
  lemma {:induction false} TrimAtPath(j: Json, path: seq<R.Step>, depth: int, listLimit: nat, stringLimit: nat)
    requires |path| <= depth && KeptPath(path, listLimit)
    ensures R.At(Trim(j, depth, listLimit, stringLimit), path) ==
      match R.At(j, path)
      case None => None
      case Some(v) => Some(Trim(v, depth - |path|, listLimit, stringLimit))
    decreases path
  {
    if path != [] {
      TrimmedChild(j, path[0], depth, listLimit, stringLimit);
      var child := R.Child(j, path[0]);
      if child.Some? {
        assert KeptPath(path[1..], listLimit);
        TrimAtPath(child.value, path[1..], depth - 1, listLimit, stringLimit);
      }
    }
  }

  lemma TrimmedChild(j: Json, step: R.Step, depth: int, listLimit: nat, stringLimit: nat)
    requires depth > 0 && KeptStep(step, listLimit)
    ensures R.Child(Trim(j, depth, listLimit, stringLimit), step) ==
      match R.Child(j, step)
      case None => None
      case Some(v) => Some(Trim(v, depth - 1, listLimit, stringLimit))
  {
    match j
    case Obj(fields) => if step.Key? { FindTrimmed(fields, step.key, depth - 1, listLimit, stringLimit); }
    case Arr(items) => TrimmedListAccountsForAll(items, depth, listLimit, stringLimit);
    case _ =>
  }

  /** At the depth limit and in over-long strings: what is left of a value. */
  lemma TrimmedLeaf(s: string, depth: int, listLimit: nat, stringLimit: nat)
    ensures var limit := if depth <= 0 then 300 else stringLimit;
      && var out := Trim(Str(s), depth, listLimit, stringLimit);
      && out.Str?
      && (|s| <= limit ==> out.s == s)
      && (|s| > limit ==> |out.s| == limit + 3 && out.s[..limit] == s[..limit] && out.s[limit..] == "...")
  {
  }

  /** Below the depth limit an object is its first ten key names, a list its length. */
  lemma TrimmedBelowDepth(j: Json, listLimit: nat, stringLimit: nat)
    ensures j.Arr? ==>
      R.At(Trim(j, 0, listLimit, stringLimit), [R.Key("trimmed_list_length")]) == Some(Int(|j.items|))
    ensures j.Obj? ==>
      var names := R.At(Trim(j, 0, listLimit, stringLimit), [R.Key("trimmed_object_keys")]);
      && names.Some? && names.value.Arr? && |names.value.items| == Min(|j.fields|, 10)
      && forall i :: 0 <= i < |names.value.items| ==> names.value.items[i] == Str(j.fields[i].key)
  {
    if j.Obj? || j.Arr? {
      var out := Trim(j, 0, listLimit, stringLimit);
      var path := [R.Key(out.fields[0].key)];
      assert path[1..] == [];
      assert R.At(out, path) == R.At(out.fields[0].value, []);
    }
  }

  // ---------- Which of the three the result is ----------

  /** The full trim whenever that fits, else the second trim if that does, and otherwise the first
      characters of the second trim's print. */
  lemma CompactionReturns(j: Json, budget: nat, depth: int, listLimit: nat, stringLimit: nat)
    ensures var r := CompactPayload(j, budget, depth, listLimit, stringLimit);
      var full, second := Compacted(j, depth, listLimit, stringLimit), Smaller(j, depth, listLimit, stringLimit);
      && (CharSize(full) <= budget ==> r == full)
      && (CharSize(full) > budget && CharSize(second) <= budget ==> r == second)
      && (CharSize(full) > budget && CharSize(second) > budget ==>
           && r.Obj? && |r.fields| == 2 && r.fields[0] == Field("truncated", Bool(true))
           && r.fields[1] == Field("excerpt", Str(Dump(second, SPACED)[..budget] + "...")))
  {
  }

  /** A payload within the budget that holds no large field is returned as it is exactly when it is
      within the limits, or when only the second trim fits and changes nothing. */
  lemma CompactionIsIdentityIff(j: Json, budget: nat, depth: int, listLimit: nat, stringLimit: nat)
    requires RemoveLarge(j) == j && CharSize(j) <= budget
    ensures CompactPayload(j, budget, depth, listLimit, stringLimit) == j <==>
      || WithinLimits(j, depth, listLimit, stringLimit)
      || (CharSize(Compacted(j, depth, listLimit, stringLimit)) > budget
          && WithinLimits(j, depth - 1, Max(1, listLimit / 2), Max(120, stringLimit / 2)))
  {
    TrimIsIdentityIff(j, depth, listLimit, stringLimit);
    TrimIsIdentityIff(j, depth - 1, Max(1, listLimit / 2), Max(120, stringLimit / 2));
    CompactionSize(j, budget, depth, listLimit, stringLimit);
  }

  /** Where a payload whose full trim fits keeps a value: below a large key its summary, elsewhere the
      value itself, both trimmed with the depth that is left. */
  lemma CompactedAtPath(j: Json, path: seq<R.Step>, budget: nat, depth: int, listLimit: nat, stringLimit: nat)
    requires CharSize(Compacted(j, depth, listLimit, stringLimit)) <= budget
    requires |path| <= depth && KeptPath(path, listLimit) && (path == [] || NoLargeStep(path[..|path| - 1]))
    ensures R.At(CompactPayload(j, budget, depth, listLimit, stringLimit), path) ==
      match R.At(j, path)
      case None => None
      case Some(v) =>
        var kept := if path != [] && IsLargeStep(path[|path| - 1]) then Summarize(v) else RemoveLarge(v);
        Some(Trim(kept, depth - |path|, listLimit, stringLimit))
  {
    RemoveLargeAtPath(j, path);
    TrimAtPath(RemoveLarge(j), path, depth, listLimit, stringLimit);
  }
}
