/** The text exposition page: gauges, then counters, each in sorted order, with one HELP and one TYPE
    line in front of each metric. */
module MetricsRendering {
  import opened Options
  import opened PrometheusText
  import opened MetricsStore
  import opened Text
  import opened StableSort

  datatype Kind = Gauge | Counter

  datatype Item = Item(series: Series, value: int, kind: Kind)

  datatype Line = Help(name: string) | Type(name: string, kind: Kind) | Value(series: Series, value: int)

  /** ## Sorting the tables */

  /** Python's order on a key `(name, ((key, value), ...))`, which compares the strings in turn. */
  predicate LexLeq(a: seq<string>, b: seq<string>) {
    || a == []
    || (b != [] && (if a[0] == b[0] then LexLeq(a[1..], b[1..]) else StrLeq(a[0], b[0])))
  }

  function Flat(labels: seq<Label>): seq<string> {
    if labels == [] then [] else [labels[0].key, labels[0].value] + Flat(labels[1..])
  }

  function SortKey(s: Series): seq<string> { [s.name] + Flat(s.labels) }

  const BY_SERIES: (Item, Item) -> bool := (a: Item, b: Item) => LexLeq(SortKey(a.series), SortKey(b.series))

  lemma {:induction false} LexLeqTotal(a: seq<string>, b: seq<string>)
    ensures LexLeq(a, b) || LexLeq(b, a)
  {
    if a != [] && b != [] {
      StrLeqTotal(a[0], b[0]);
      LexLeqTotal(a[1..], b[1..]);
    }
  }

  lemma {:induction false} LexLeqTransitive(a: seq<string>, b: seq<string>, c: seq<string>)
    requires LexLeq(a, b) && LexLeq(b, c)
    ensures LexLeq(a, c)
  {
    if a != [] {
      if a[0] == b[0] == c[0] {
        LexLeqTransitive(a[1..], b[1..], c[1..]);
      } else {
        HeadLeq(a, b);
        HeadLeq(b, c);
        StrLeqTransitive(a[0], b[0], c[0]);
        if a[0] == c[0] { StrLeqAntisymmetric(a[0], b[0]); }
      }
    }
  }

  lemma HeadLeq(a: seq<string>, b: seq<string>)
    requires a != [] && LexLeq(a, b)
    ensures b != [] && StrLeq(a[0], b[0])
  {
    StrLeqTotal(a[0], a[0]);
  }

  lemma BySeriesIsPreorder()
    ensures IsPreorder(BY_SERIES)
  {
    forall a: Item, b: Item ensures BY_SERIES(a, b) || BY_SERIES(b, a) {
      LexLeqTotal(SortKey(a.series), SortKey(b.series));
    }
    forall a: Item, b: Item, c: Item | BY_SERIES(a, b) && BY_SERIES(b, c) ensures BY_SERIES(a, c) {
      LexLeqTransitive(SortKey(a.series), SortKey(b.series), SortKey(c.series));
    }
  }

  /** The entries of a table, each once. */
  predicate ListsTable(items: seq<Item>, t: Table, kind: Kind) {
    && (forall y :: y in items ==> y.kind == kind && y.series in t && t[y.series] == y.value)
    && (forall s :: s in t ==> Item(s, t[s], kind) in items)
    && |items| == |t|
  }

  lemma TableGrows(t: Table, s: Series, value: int)
    requires s !in t
    ensures |t[s := value]| == |t| + 1
  {
    assert t[s := value].Keys == t.Keys + {s};
  }

  lemma ListOneMore(items: seq<Item>, t: Table, kind: Kind, s: Series, value: int)
    requires ListsTable(items, t, kind) && s !in t
    ensures ListsTable(items + [Item(s, value, kind)], t[s := value], kind)
  {
    TableGrows(t, s, value);
  }

  lemma SortKeepsListing(items: seq<Item>, t: Table, kind: Kind)
    requires ListsTable(items, t, kind)
    ensures ListsTable(Sort(items, BY_SERIES), t, kind)
  {
    SortIsPermutation(items, BY_SERIES);
  }

  /** Midway: the items list the entries outside `rest`. */
  predicate ListsAllBut(items: seq<Item>, t: Table, rest: set<Series>, kind: Kind) {
    rest <= t.Keys && ListsTable(items, t - rest, kind)
  }

  lemma ListNext(items: seq<Item>, t: Table, rest: set<Series>, kind: Kind, s: Series)
    requires ListsAllBut(items, t, rest, kind) && s in rest
    ensures ListsAllBut(items + [Item(s, t[s], kind)], t, rest - {s}, kind)
  {
    ListOneMore(items, t - rest, kind, s, t[s]);
    assert t - (rest - {s}) == (t - rest)[s := t[s]];
  }

  /** `table.items()`, in whatever order the dictionary is visited. */
  method Items(t: Table, kind: Kind) returns (items: seq<Item>)
    ensures ListsTable(items, t, kind)
  {
    items := [];
    var rest := t.Keys;
    assert t - rest == map[];
    while rest != {}
      invariant ListsAllBut(items, t, rest, kind)
      decreases |rest|
    {
      var s :| s in rest;
      ListNext(items, t, rest, kind, s);
      items := items + [Item(s, t[s], kind)];
      rest := rest - {s};
    }
    assert t - {} == t;
  }

  method SortedItems(t: Table, kind: Kind) returns (items: seq<Item>)
    ensures Sorted(items, BY_SERIES) && ListsTable(items, t, kind)
  {
    items := Items(t, kind);
    SortKeepsListing(items, t, kind);
    BySeriesIsPreorder();
    SortSorts(items, BY_SERIES);
    items := Sort(items, BY_SERIES);
  }

  /** ## Grouping */

  /** Items with the same name are together. */
  predicate Clustered(items: seq<Item>) {
    forall i, j, k :: 0 <= i < j < k < |items| && items[i].series.name == items[k].series.name ==>
      items[j].series.name == items[i].series.name
  }

  lemma SortedIsClustered(items: seq<Item>)
    requires Sorted(items, BY_SERIES)
    ensures Clustered(items)
  {
    forall i, j, k | 0 <= i < j < k < |items| && items[i].series.name == items[k].series.name
      ensures items[j].series.name == items[i].series.name
    {
      assert BY_SERIES(items[i], items[j]) && BY_SERIES(items[j], items[k]);
      HeadLeq(SortKey(items[i].series), SortKey(items[j].series));
      HeadLeq(SortKey(items[j].series), SortKey(items[k].series));
      StrLeqAntisymmetric(items[i].series.name, items[j].series.name);
    }
  }

  predicate IsCounterName(name: string) {
    || name == LLM_LATENCY_SUM || name == LLM_REQUESTS || name == LLM_FAILURES
    || name == CHAT_LATENCY_SUM || name == CHAT_REQUESTS
  }

  function KindOf(name: string): Kind { if IsCounterName(name) then Counter else Gauge }

  predicate KindsMatch(items: seq<Item>, kind: Kind) {
    forall i :: 0 <= i < |items| ==> items[i].kind == kind && KindOf(items[i].series.name) == kind
  }

  lemma GaugesThenCounters(gauges: seq<Item>, counters: seq<Item>)
    requires Clustered(gauges) && Clustered(counters) && KindsMatch(gauges, Gauge) && KindsMatch(counters, Counter)
    ensures Clustered(gauges + counters)
    ensures forall i :: 0 <= i < |gauges + counters| ==>
      (gauges + counters)[i].kind == KindOf((gauges + counters)[i].series.name)
  {
    var all := gauges + counters;
    forall i | 0 <= i < |all| ensures KindOf(all[i].series.name) == if i < |gauges| then Gauge else Counter {
      assert all[i] == if i < |gauges| then gauges[i] else counters[i - |gauges|];
    }
    forall i, j, k | 0 <= i < j < k < |all| && all[i].series.name == all[k].series.name
      ensures all[j].series.name == all[i].series.name
    {
      if i >= |gauges| {
        var a, b, c := counters[i - |gauges|], counters[j - |gauges|], counters[k - |gauges|];
        assert a == all[i] && b == all[j] && c == all[k];
      } else {
        assert k < |gauges|;
        assert all[i] == gauges[i] && all[j] == gauges[j] && all[k] == gauges[k];
      }
    }
  }

  /** A sample of `name` may stand at `i`: its TYPE line, or another sample of it, is just before. */
  predicate Headed(lines: seq<Line>, i: nat, name: string)
    requires i <= |lines|
  {
    && i >= 2
    && (|| (lines[i - 1] == Type(name, KindOf(name)) && lines[i - 2] == Help(name))
        || (lines[i - 1].Value? && lines[i - 1].series.name == name && Headed(lines, i - 1, name)))
  }

  predicate EverySampleIsHeaded(lines: seq<Line>) {
    forall i :: 0 <= i < |lines| && lines[i].Value? ==> Headed(lines, i, lines[i].series.name)
  }

  predicate OneHelpEach(lines: seq<Line>) {
    forall i, j :: 0 <= i < j < |lines| && lines[i].Help? && lines[j].Help? ==> lines[i].name != lines[j].name
  }

  predicate TypesFollowHelp(lines: seq<Line>) {
    forall i :: 0 <= i < |lines| && lines[i].Type? ==>
      i > 0 && lines[i - 1] == Help(lines[i].name) && lines[i].kind == KindOf(lines[i].name)
  }

  predicate WellGrouped(lines: seq<Line>) {
    EverySampleIsHeaded(lines) && OneHelpEach(lines) && TypesFollowHelp(lines)
  }

  /** Walking back from a sample stays among samples of its metric until its header. */
  lemma {:induction false} HeaderOf(lines: seq<Line>, i: nat, name: string) returns (h: nat)
    requires i <= |lines| && Headed(lines, i, name)
    ensures h + 2 <= i && lines[h] == Help(name) && lines[h + 1] == Type(name, KindOf(name))
    ensures forall k :: h + 2 <= k < i ==> lines[k].Value? && lines[k].series.name == name
  {
    if lines[i - 1].Type? {
      h := i - 2;
    } else {
      h := HeaderOf(lines, i - 1, name);
    }
  }

  /** One HELP line and one TYPE line before each metric, and all its samples in one group after it. */
  lemma SamplesAreOneGroup(lines: seq<Line>, i: nat, j: nat)
    requires WellGrouped(lines) && i < j < |lines|
    requires lines[i].Value? && lines[j].Value? && lines[i].series.name == lines[j].series.name
    ensures forall k :: i <= k <= j ==> lines[k].Value? && lines[k].series.name == lines[i].series.name
  {
    var name := lines[i].series.name;
    var a := HeaderOf(lines, i, name);
    var b := HeaderOf(lines, j, name);
    assert a == b;
  }

  lemma {:induction false} HeadedInLonger(lines: seq<Line>, more: seq<Line>, i: nat, name: string)
    requires i <= |lines|
    ensures Headed(lines + more, i, name) == Headed(lines, i, name)
  {
    if i >= 2 { HeadedInLonger(lines, more, i - 1, name); }
  }

  predicate NoHelpFor(lines: seq<Line>, name: string) {
    forall i :: 0 <= i < |lines| && lines[i].Help? ==> lines[i].name != name
  }

  lemma AddHeader(lines: seq<Line>, name: string)
    requires WellGrouped(lines) && NoHelpFor(lines, name)
    ensures var r := lines + [Help(name), Type(name, KindOf(name))];
      WellGrouped(r) && Headed(r, |r|, name)
  {
    var more := [Help(name), Type(name, KindOf(name))];
    var r := lines + more;
    forall i | 0 <= i < |r| && r[i].Value? ensures Headed(r, i, r[i].series.name) {
      HeadedInLonger(lines, more, i, r[i].series.name);
    }
    assert r[|lines|] == Help(name) && r[|lines| + 1] == Type(name, KindOf(name));
  }

  lemma AddSample(lines: seq<Line>, series: Series, value: int)
    requires WellGrouped(lines) && Headed(lines, |lines|, series.name)
    ensures var r := lines + [Value(series, value)];
      WellGrouped(r) && Headed(r, |r|, series.name)
  {
    var more := [Value(series, value)];
    var r := lines + more;
    forall i | 0 <= i < |r| && r[i].Value? ensures Headed(r, i, r[i].series.name) {
      HeadedInLonger(lines, more, i, r[i].series.name);
    }
    HeadedInLonger(lines, more, |lines|, series.name);
  }

  predicate IsNamed(items: seq<Item>, name: string) { exists k :: 0 <= k < |items| && items[k].series.name == name }

  lemma {:induction false} SampleHasLine(lines: seq<Line>, sample: (Series, int)) returns (i: nat)
    requires sample in Samples(lines)
    ensures i < |lines| && lines[i] == Value(sample.0, sample.1)
  {
    if lines[0] == Value(sample.0, sample.1) { return 0; }
    i := SampleHasLine(lines[1..], sample);
    i := i + 1;
  }

  /** A metric has its HELP line and, with the kind of its name, its TYPE line. */
  lemma MetricHasHeader(lines: seq<Line>, items: seq<Item>, name: string)
    requires WellGrouped(lines) && Samples(lines) == Pairs(items) && IsNamed(items, name)
    ensures Help(name) in lines && Type(name, KindOf(name)) in lines
  {
    var k :| 0 <= k < |items| && items[k].series.name == name;
    assert Pairs(items)[k] in Samples(lines);
    var i := SampleHasLine(lines, Pairs(items)[k]);
    var h := HeaderOf(lines, i, name);
    assert lines[h] in lines && lines[h + 1] in lines;
  }

  /** The samples on a page, in order. */
  function Samples(lines: seq<Line>): seq<(Series, int)> {
    if lines == [] then []
    else (if lines[0].Value? then [(lines[0].series, lines[0].value)] else []) + Samples(lines[1..])
  }

  lemma {:induction false} SamplesConcat(a: seq<Line>, b: seq<Line>)
    ensures Samples(a + b) == Samples(a) + Samples(b)
  {
    if a == [] {
      assert a + b == b;
    } else {
      var head := if a[0].Value? then [(a[0].series, a[0].value)] else [];
      assert (a + b)[1..] == a[1..] + b && (a + b)[0] == a[0];
      SamplesConcat(a[1..], b);
      assert Samples(a + b) == head + (Samples(a[1..]) + Samples(b));
    }
  }

  function Pairs(items: seq<Item>): (r: seq<(Series, int)>)
    ensures |r| == |items|
  {
    seq(|items|, i requires 0 <= i < |items| => (items[i].series, items[i].value))
  }

  function Header(name: string, kind: Kind): seq<Line> { [Help(name), Type(name, kind)] }

  lemma SamplesOfStep(lines: seq<Line>, header: seq<Line>, series: Series, value: int)
    requires header == [] || exists name, kind :: header == Header(name, kind)
    ensures Samples(lines + header + [Value(series, value)]) == Samples(lines) + [(series, value)]
  {
    var last := [Value(series, value)];
    SamplesConcat(lines + header, last);
    SamplesConcat(lines, header);
    assert last[1..] == [];
    if header != [] { assert header[1..][1..] == []; }
    assert Samples(header) == [];
  }

  /** The names met so far. */
  ghost predicate SeenAre(items: seq<Item>, seen: set<string>) {
    && (forall i :: 0 <= i < |items| ==> items[i].series.name in seen)
    && (forall name :: name in seen ==> exists i :: 0 <= i < |items| && items[i].series.name == name)
  }

  function NameOf(line: Line): string { if line.Value? then line.series.name else line.name }

  /** Every line is about a metric met so far. */
  predicate LinesSeen(lines: seq<Line>, seen: set<string>) {
    forall i :: 0 <= i < |lines| ==> NameOf(lines[i]) in seen
  }

  lemma AddLinesSeen(lines: seq<Line>, seen: set<string>, item: Item)
    requires LinesSeen(lines, seen)
    ensures LinesSeen(lines + ItemLines(item, seen), seen + {item.series.name})
  {
  }

  /** What the loop over the items keeps. */
  ghost predicate Rendered(lines: seq<Line>, items: seq<Item>, seen: set<string>) {
    && WellGrouped(lines)
    && Samples(lines) == Pairs(items)
    && SeenAre(items, seen)
    && LinesSeen(lines, seen)
    && (items != [] ==> Headed(lines, |lines|, items[|items| - 1].series.name))
  }

  lemma SeeItem(items: seq<Item>, seen: set<string>, item: Item)
    requires SeenAre(items, seen)
    ensures SeenAre(items + [item], seen + {item.series.name})
    ensures Pairs(items + [item]) == Pairs(items) + [(item.series, item.value)]
  {
    var all := items + [item];
    assert all[|items|] == item && forall i :: 0 <= i < |items| ==> all[i] == items[i];
  }

  /** The lines the loop adds for one item. */
  function ItemLines(item: Item, seen: set<string>): seq<Line> {
    (if item.series.name in seen then [] else Header(item.series.name, item.kind)) + [Value(item.series, item.value)]
  }

  lemma AddItemLines(lines: seq<Line>, items: seq<Item>, seen: set<string>, item: Item)
    requires Rendered(lines, items, seen) && Clustered(items + [item]) && item.kind == KindOf(item.series.name)
    ensures var r := lines + ItemLines(item, seen);
      && WellGrouped(r) && Headed(r, |r|, item.series.name)
      && Samples(r) == Samples(lines) + [(item.series, item.value)]
  {
    var header := if item.series.name in seen then [] else Header(item.series.name, item.kind);
    if item.series.name in seen {
      LastHasName(items, item);
      assert lines + header == lines;
    } else {
      assert NoHelpFor(lines, item.series.name);
      AddHeader(lines, item.series.name);
    }
    AddSample(lines + header, item.series, item.value);
    SamplesOfStep(lines, header, item.series, item.value);
    assert lines + ItemLines(item, seen) == lines + header + [Value(item.series, item.value)];
  }

  lemma RenderStep(lines: seq<Line>, items: seq<Item>, seen: set<string>, item: Item)
    requires Rendered(lines, items, seen) && Clustered(items + [item]) && item.kind == KindOf(item.series.name)
    ensures Rendered(lines + ItemLines(item, seen), items + [item], seen + {item.series.name})
  {
    AddItemLines(lines, items, seen, item);
    AddLinesSeen(lines, seen, item);
    SeeItem(items, seen, item);
  }

  lemma LastHasName(items: seq<Item>, item: Item)
    requires Clustered(items + [item]) && exists i :: 0 <= i < |items| && items[i].series.name == item.series.name
    ensures items[|items| - 1].series.name == item.series.name
  {
    var all := items + [item];
    var i :| 0 <= i < |items| && items[i].series.name == item.series.name;
    assert all[i] == items[i] && all[|items|] == item && all[|items| - 1] == items[|items| - 1];
  }

  ghost predicate RenderedUpTo(lines: seq<Line>, items: seq<Item>, i: nat, seen: set<string>)
    requires i <= |items|
  {
    Rendered(lines, items[..i], seen)
  }

  predicate Renderable(items: seq<Item>) {
    Clustered(items) && forall i :: 0 <= i < |items| ==> items[i].kind == KindOf(items[i].series.name)
  }

  lemma RenderNext(lines: seq<Line>, items: seq<Item>, i: nat, seen: set<string>)
    requires i < |items| && Renderable(items) && RenderedUpTo(lines, items, i, seen)
    ensures RenderedUpTo(lines + ItemLines(items[i], seen), items, i + 1, seen + {items[i].series.name})
  {
    assert items[..i + 1] == items[..i] + [items[i]];
    ClusteredPrefix(items, i + 1);
    RenderStep(lines, items[..i], seen, items[i]);
  }

  lemma ClusteredPrefix(items: seq<Item>, n: nat)
    requires Clustered(items) && n <= |items|
    ensures Clustered(items[..n])
  {
    forall i, j, k | 0 <= i < j < k < n && items[..n][i].series.name == items[..n][k].series.name
      ensures items[..n][j].series.name == items[..n][i].series.name
    {
      assert items[i].series.name == items[k].series.name;
      assert items[j].series.name == items[i].series.name;
    }
  }

  method AppendItem(lines: seq<Line>, seen: set<string>, item: Item) returns (r: seq<Line>, names: set<string>)
    ensures r == lines + ItemLines(item, seen) && names == seen + {item.series.name}
  {
    r, names := lines, seen;
    if item.series.name !in seen {
      r := r + [Help(item.series.name), Type(item.series.name, item.kind)];
      names := names + {item.series.name};
    }
    r := r + [Value(item.series, item.value)];
  }

  method RenderItems(items: seq<Item>) returns (lines: seq<Line>)
    requires Renderable(items)
    ensures WellGrouped(lines) && Samples(lines) == Pairs(items)
    ensures forall i :: 0 <= i < |lines| ==> IsNamed(items, NameOf(lines[i]))
  {
    lines := [];
    var seen: set<string> := {};
    for i := 0 to |items|
      invariant RenderedUpTo(lines, items, i, seen)
    {
      RenderNext(lines, items, i, seen);
      lines, seen := AppendItem(lines, seen, items[i]);
    }
    assert items[..|items|] == items;
  }
}
