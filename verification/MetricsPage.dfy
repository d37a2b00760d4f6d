/** The exposition page of a store after any run of calls: its lines, its text, and what a reader of the
    text gets back. */
module MetricsPage {
  import opened Options
  import opened PrometheusText
  import opened MetricsStore
  import opened MetricsRendering
  import opened StableSort
  import opened Text
  import Json
  import JsonReader

  /** ## Gauges and counters have different names */

  predicate NamesHaveKind(t: Table, kind: Kind) {
    forall s :: s in t ==> KindOf(s.name) == kind
  }

  lemma CounterNameEnds(name: string)
    ensures IsCounterName(name) ==> name != "" && (name[|name| - 1] == 'm' || name[|name| - 1] == 'l')
  {
  }

  predicate EndsAsGauge(name: string) { name != "" && (name[|name| - 1] == 't' || name[|name| - 1] == 's') }

  lemma GaugeName(name: string)
    requires EndsAsGauge(name)
    ensures KindOf(name) == Gauge
  {
    CounterNameEnds(name);
  }

  lemma LlmGaugesAreGauges(t: Table, c: LlmCall)
    requires NamesHaveKind(t, Gauge)
    ensures NamesHaveKind(LlmGauges(t, c), Gauge)
  {
    GaugeName(PROMPT_CHARS);
    GaugeName(ESTIMATED_PROMPT_TOKENS);
    GaugeName(PROMPT_TOKENS);
    GaugeName(COMPLETION_TOKENS);
    GaugeName(TOTAL_TOKENS);
    GaugeName(LLM_LATENCY_LAST);
    GaugeName(LLM_TIMESTAMP);
  }

  lemma ChatGaugesAreGauges(t: Table, c: ChatCall)
    requires NamesHaveKind(t, Gauge)
    ensures NamesHaveKind(ChatGauges(t, c), Gauge)
  {
    GaugeName(CHAT_LATENCY_LAST);
    GaugeName(CHAT_TIMESTAMP);
  }

  lemma {:induction false} GaugesAreGauges(calls: seq<Call>)
    ensures NamesHaveKind(Gauges(calls), Gauge)
    decreases |calls|
  {
    if calls != [] {
      var last, before := calls[|calls| - 1], calls[..|calls| - 1];
      GaugesAreGauges(before);
      match last
      case Llm(c) => LlmGaugesAreGauges(Gauges(before), c);
      case Chat(c) => ChatGaugesAreGauges(Gauges(before), c);
    }
  }

  predicate CountersOnly(increments: seq<Increment>) {
    forall i :: 0 <= i < |increments| ==> IsCounterName(increments[i].series.name)
  }

  lemma {:induction false} IncrementsAreCounters(calls: seq<Call>)
    ensures CountersOnly(Increments(calls))
    decreases |calls|
  {
    if calls != [] { IncrementsAreCounters(calls[..|calls| - 1]); }
  }

  lemma {:induction false} IncAllIsCounters(increments: seq<Increment>)
    requires CountersOnly(increments)
    ensures NamesHaveKind(IncAll(map[], increments), Counter)
    decreases |increments|
  {
    if increments != [] { IncAllIsCounters(increments[..|increments| - 1]); }
  }

  lemma ItemsMatch(items: seq<Item>, t: Table, kind: Kind)
    requires ListsTable(items, t, kind) && NamesHaveKind(t, kind)
    ensures KindsMatch(items, kind)
  {
    forall i | 0 <= i < |items| ensures items[i].kind == kind && KindOf(items[i].series.name) == kind {
      assert items[i] in items;
    }
  }

  /** ## The labels the store uses */

  /** As `normalize_labels` leaves them: keys rising, and plain enough to read back. */
  predicate Normalized(labels: seq<Label>) {
    && NamesArePlain(labels)
    && forall i :: 0 <= i < |labels| - 1 ==>
      StrLeq(labels[i].key, labels[i + 1].key) && labels[i].key != labels[i + 1].key
  }

  lemma LabelKeyOrder()
    ensures StrLeq("chat_type", "model") && StrLeq("model", "prompt_key")
    ensures StrLeq("prompt_key", "provider") && StrLeq("provider", "status")
    ensures StrLeq("chat_type", "error_type") && StrLeq("error_type", "model")
    ensures StrLeq("capability", "chat_type") && StrLeq("chat_type", "response_source")
    ensures StrLeq("response_source", "status")
  {
    assert "prompt_key"[1..] == "rompt_key" && "provider"[1..] == "rovider";
    assert "rompt_key"[1..] == "ompt_key" && "rovider"[1..] == "ovider";
    assert "ompt_key"[1..] == "mpt_key" && "ovider"[1..] == "vider";
    assert StrLeq("mpt_key", "vider");
    assert StrLeq("ompt_key", "ovider");
    assert StrLeq("rompt_key", "rovider");
    assert "capability"[1..] == "apability" && "chat_type"[1..] == "hat_type";
    assert StrLeq("apability", "hat_type");
  }

  lemma LabelKeysArePlain()
    ensures NameIsPlain("chat_type") && NameIsPlain("model") && NameIsPlain("prompt_key") && NameIsPlain("provider")
    ensures NameIsPlain("status") && NameIsPlain("error_type") && NameIsPlain("capability")
    ensures NameIsPlain("response_source")
  {
  }

  /** `b` may follow `a`. */
  predicate KeyStep(a: string, b: string) { StrLeq(a, b) && a != b && NameIsPlain(b) }

  predicate Rising(keys: seq<string>) {
    keys != [] && NameIsPlain(keys[0]) && forall i :: 0 <= i < |keys| - 1 ==> KeyStep(keys[i], keys[i + 1])
  }

  lemma RisingKeys(keys: seq<string>, labels: seq<Label>)
    requires Rising(keys) && |keys| == |labels| && forall i :: 0 <= i < |keys| ==> labels[i].key == keys[i]
    ensures Normalized(labels)
  {
    forall i | 0 <= i < |labels| ensures NameIsPlain(labels[i].key) {
      assert i > 0 ==> KeyStep(keys[i - 1], keys[i - 1 + 1]);
    }
    forall i | 0 <= i < |labels| - 1 ensures KeyStep(labels[i].key, labels[i + 1].key) {
      assert KeyStep(keys[i], keys[i + 1]);
    }
  }

  lemma KeySteps()
    ensures KeyStep("chat_type", "model") && KeyStep("model", "prompt_key") && KeyStep("prompt_key", "provider")
    ensures KeyStep("provider", "status") && KeyStep("chat_type", "error_type") && KeyStep("error_type", "model")
    ensures KeyStep("capability", "chat_type") && KeyStep("chat_type", "response_source")
    ensures KeyStep("response_source", "status")
  {
    LabelKeyOrder();
    LabelKeysArePlain();
  }

  lemma {:induction false} LlmLabelsAreNormalized(c: LlmCall, text: string)
    ensures Normalized(WithStatus(LlmLabels(c), text)) && Normalized(WithError(LlmLabels(c), text))
    ensures Normalized(LlmLabels(c))
  {
    LabelKeysArePlain();
    KeySteps();
    RisingKeys(["chat_type", "model", "prompt_key", "provider"], LlmLabels(c));
    RisingKeys(["chat_type", "model", "prompt_key", "provider", "status"], WithStatus(LlmLabels(c), text));
    RisingKeys(["chat_type", "error_type", "model", "prompt_key", "provider"], WithError(LlmLabels(c), text));
  }

  lemma {:induction false} ChatLabelsAreNormalized(c: ChatCall, text: string)
    ensures Normalized(ChatLabels(c)) && Normalized(WithStatus(ChatLabels(c), text))
  {
    LabelKeysArePlain();
    KeySteps();
    RisingKeys(["capability", "chat_type", "response_source"], ChatLabels(c));
    RisingKeys(["capability", "chat_type", "response_source", "status"], WithStatus(ChatLabels(c), text));
  }

  /** ## Every stored series reads back */

  /** A name that is neither empty nor a comment, and plain. */
  predicate GoodName(name: string) { name != "" && name[0] == 'a' && NameIsPlain(name) }

  predicate Readable(s: Series) { GoodName(s.name) && Normalized(s.labels) }

  predicate AllReadable(t: Table) { forall s :: s in t ==> Readable(s) }

  lemma TokenNamesAreGood()
    ensures GoodName(ESTIMATED_PROMPT_TOKENS) && GoodName(PROMPT_TOKENS)
  {
  }

  lemma MoreTokenNamesAreGood()
    ensures GoodName(COMPLETION_TOKENS) && GoodName(TOTAL_TOKENS) && GoodName(PROMPT_CHARS)
  {
  }

  lemma TimeNamesAreGood()
    ensures GoodName(LLM_LATENCY_LAST) && GoodName(LLM_TIMESTAMP)
  {
  }

  lemma ChatGaugeNamesAreGood()
    ensures GoodName(CHAT_LATENCY_LAST) && GoodName(CHAT_TIMESTAMP)
  {
  }

  lemma LlmCounterNamesAreGood()
    ensures GoodName(LLM_LATENCY_SUM) && GoodName(LLM_REQUESTS) && GoodName(LLM_FAILURES)
  {
  }

  lemma ChatCounterNamesAreGood()
    ensures GoodName(CHAT_LATENCY_SUM) && GoodName(CHAT_REQUESTS)
  {
  }

  lemma LlmGaugesAreReadable(t: Table, c: LlmCall)
    requires AllReadable(t)
    ensures AllReadable(LlmGauges(t, c))
  {
    TokenNamesAreGood();
    MoreTokenNamesAreGood();
    TimeNamesAreGood();
    LlmLabelsAreNormalized(c, "");
  }

  lemma ChatGaugesAreReadable(t: Table, c: ChatCall)
    requires AllReadable(t)
    ensures AllReadable(ChatGauges(t, c))
  {
    ChatGaugeNamesAreGood();
    ChatLabelsAreNormalized(c, "");
  }

  lemma {:induction false} GaugesAreReadable(calls: seq<Call>)
    ensures AllReadable(Gauges(calls))
    decreases |calls|
  {
    if calls != [] {
      var last, before := calls[|calls| - 1], calls[..|calls| - 1];
      GaugesAreReadable(before);
      match last
      case Llm(c) => LlmGaugesAreReadable(Gauges(before), c);
      case Chat(c) => ChatGaugesAreReadable(Gauges(before), c);
    }
  }

  predicate IncrementsReadable(increments: seq<Increment>) {
    forall i :: 0 <= i < |increments| ==> Readable(increments[i].series)
  }

  lemma LlmIncrementsAreReadable(c: LlmCall)
    ensures IncrementsReadable(LlmIncrements(c))
  {
    LlmCounterNamesAreGood();
    LlmLabelsAreNormalized(c, OrUnknown(c.status));
    LlmLabelsAreNormalized(c, c.status);
    LlmLabelsAreNormalized(c, OrEmpty(c.errorType));
  }

  lemma ChatIncrementsAreReadable(c: ChatCall)
    ensures IncrementsReadable(ChatIncrements(c))
  {
    ChatCounterNamesAreGood();
    ChatLabelsAreNormalized(c, c.status);
  }

  lemma {:induction false} IncrementsAreReadable(calls: seq<Call>)
    ensures IncrementsReadable(Increments(calls))
    decreases |calls|
  {
    if calls != [] {
      var last, before := calls[|calls| - 1], calls[..|calls| - 1];
      IncrementsAreReadable(before);
      match last
      case Llm(c) => LlmIncrementsAreReadable(c);
      case Chat(c) => ChatIncrementsAreReadable(c);
    }
  }

  lemma {:induction false} IncAllIsReadable(increments: seq<Increment>)
    requires IncrementsReadable(increments)
    ensures AllReadable(IncAll(map[], increments))
    decreases |increments|
  {
    if increments != [] { IncAllIsReadable(increments[..|increments| - 1]); }
  }

  /** After any run every stored series has a plain name and labels sorted by plain keys. */
  lemma StoredSeriesAreReadable(calls: seq<Call>)
    ensures AllReadable(Gauges(calls)) && AllReadable(Counters(calls))
  {
    GaugesAreReadable(calls);
    IncrementsAreReadable(calls);
    IncAllIsReadable(Increments(calls));
  }

  /** ## The text of the page */

  /** `_HELP_TEXT.get(name, name)`; only that a help text is one line is known. */
  type HelpTexts = string -> string

  ghost predicate IsOneLineHelp(help: HelpTexts) {
    forall name: string :: OneLine(name) ==> OneLine(help(name))
  }

  function LineText(line: Line, help: HelpTexts): string {
    match line
    case Help(name) => "# HELP " + name + " " + help(name)
    case Type(name, kind) => "# TYPE " + name + " " + (if kind == Gauge then "gauge" else "counter")
    case Value(series, value) => SampleLine(series.name, series.labels, Json.IntText(value))
  }

  function Texts(lines: seq<Line>, help: HelpTexts): seq<string> {
    if lines == [] then [] else [LineText(lines[0], help)] + Texts(lines[1..], help)
  }

  /** `"\n".join(lines)`, an empty last line included. */
  function PageText(lines: seq<Line>, help: HelpTexts): string { Join(Texts(lines, help) + [""], '\n') }

  predicate IsSampleText(text: string) { text != "" && text[0] != '#' }

  /** One sample line as series and value. */
  function ReadStored(text: string): Option<(Series, int)> {
    match ReadSample(text)
    case None => None
    case Some(Sample(name, labels, number)) =>
      match JsonReader.ReadInt(number)
      case Ok(Int(n), rest) => if rest == "" then Some((Series(name, labels), n)) else None
      case _ => None
  }

  /** All samples, or nothing if some sample line cannot be read. */
  function ReadLines(texts: seq<string>): Option<seq<(Series, int)>> {
    if texts == [] then Some([])
    else
      match ReadLines(texts[1..])
      case None => None
      case Some(more) =>
        if !IsSampleText(texts[0]) then Some(more)
        else match ReadStored(texts[0])
          case None => None
          case Some(first) => Some([first] + more)
  }

  function ReadPage(page: string): Option<seq<(Series, int)>> { ReadLines(Split(page, '\n')) }

  /** A printed sample is one line and reads back as its series and value, for any label values. */
  lemma SampleTextIsFaithful(series: Series, value: int, help: HelpTexts)
    requires Readable(series)
    ensures var text := LineText(Value(series, value), help);
      OneLine(text) && IsSampleText(text) && ReadStored(text) == Some((series, value))
  {
    var number := Json.IntText(value);
    Json.NatTextHasNoControls(if value < 0 then -value else value);
    SampleIsOneLine(series.name, series.labels, number);
    SampleReadsBack(series.name, series.labels, number);
    JsonReader.ReadIntOfText(value, "");
    assert number + "" == number;
  }

  /** Lines about good names, their samples readable. */
  predicate LinesReadable(lines: seq<Line>) {
    forall i :: 0 <= i < |lines| ==> GoodName(NameOf(lines[i])) && (lines[i].Value? ==> Readable(lines[i].series))
  }

  lemma HeaderTextIsComment(line: Line, help: HelpTexts)
    requires IsOneLineHelp(help) && !line.Value? && GoodName(line.name)
    ensures OneLine(LineText(line, help)) && !IsSampleText(LineText(line, help))
  {
    assert OneLine(help(line.name));
  }

  lemma {:induction false} TextsAreLines(lines: seq<Line>, help: HelpTexts)
    requires IsOneLineHelp(help) && LinesReadable(lines)
    ensures Free(Texts(lines, help) + [""], '\n')
  {
    if lines != [] {
      var line := lines[0];
      TextsAreLines(lines[1..], help);
      if line.Value? {
        SampleTextIsFaithful(line.series, line.value, help);
      } else {
        HeaderTextIsComment(line, help);
      }
      assert Texts(lines, help) + [""] == [LineText(line, help)] + (Texts(lines[1..], help) + [""]);
    }
  }

  lemma {:induction false} TextsReadBack(lines: seq<Line>, help: HelpTexts)
    requires IsOneLineHelp(help) && LinesReadable(lines)
    ensures ReadLines(Texts(lines, help) + [""]) == Some(Samples(lines))
  {
    if lines == [] {
      assert Texts(lines, help) + [""] == [""] && [""][1..] == [];
    } else {
      var line, rest := lines[0], Texts(lines[1..], help) + [""];
      TextsReadBack(lines[1..], help);
      assert Texts(lines, help) + [""] == [LineText(line, help)] + rest;
      assert ([LineText(line, help)] + rest)[1..] == rest;
      assert [] + Samples(lines[1..]) == Samples(lines[1..]);
      if line.Value? {
        SampleTextIsFaithful(line.series, line.value, help);
      } else {
        HeaderTextIsComment(line, help);
      }
    }
  }

  /** The text splits into exactly its lines, and reading them gives exactly the samples. */
  lemma PageReadsBack(lines: seq<Line>, help: HelpTexts)
    requires IsOneLineHelp(help) && LinesReadable(lines)
    ensures Split(PageText(lines, help), '\n') == Texts(lines, help) + [""]
    ensures ReadPage(PageText(lines, help)) == Some(Samples(lines))
  {
    TextsAreLines(lines, help);
    SplitOfJoin(Texts(lines, help) + [""], '\n');
    TextsReadBack(lines, help);
  }

  /** ## What the comments say */

  /** The metric name and the words after it on a comment line that begins with this mark. */
  function ReadComment(text: string, mark: string): Option<(string, string)> {
    if !(mark <= text) then None
    else
      var (name, rest) := Until(text[|mark|..], {' '});
      if rest == "" then None else Some((name, rest[1..]))
  }

  const HELP_MARK := "# HELP "
  const TYPE_MARK := "# TYPE "

  lemma CommentReadsBack(mark: string, name: string, words: string)
    requires NameIsPlain(name)
    ensures ReadComment(mark + name + " " + words, mark) == Some((name, words))
  {
    var text := mark + name + " " + words;
    assert text[|mark|..] == name + (" " + words);
    UntilStop(name, " " + words, {' '});
    assert (" " + words)[1..] == words;
  }

  lemma HelpReadsBack(name: string, help: HelpTexts)
    requires NameIsPlain(name)
    ensures var text := LineText(Help(name), help);
      ReadComment(text, HELP_MARK) == Some((name, help(name))) && ReadComment(text, TYPE_MARK) == None
  {
    CommentReadsBack(HELP_MARK, name, help(name));
    assert LineText(Help(name), help)[2] == 'H' && TYPE_MARK[2] == 'T';
  }

  lemma TypeReadsBack(name: string, kind: Kind, help: HelpTexts)
    requires NameIsPlain(name)
    ensures var text := LineText(Type(name, kind), help);
      && ReadComment(text, TYPE_MARK) == Some((name, match kind case Gauge => "gauge" case Counter => "counter"))
      && ReadComment(text, HELP_MARK) == None
  {
    var word := match kind case Gauge => "gauge" case Counter => "counter";
    CommentReadsBack(TYPE_MARK, name, word);
    assert LineText(Type(name, kind), help)[2] == 'T' && HELP_MARK[2] == 'H';
  }

  lemma NoComment(text: string, mark: string)
    requires (text == "" || text[0] != '#') && (mark == HELP_MARK || mark == TYPE_MARK)
    ensures ReadComment(text, mark) == None
  {
    assert mark[0] == '#';
  }

  /** Some line of the page is this comment. */
  ghost predicate Says(page: string, mark: string, name: string, words: string) {
    exists k :: 0 <= k < |Split(page, '\n')| && ReadComment(Split(page, '\n')[k], mark) == Some((name, words))
  }

  lemma {:induction false} TextCount(lines: seq<Line>, help: HelpTexts)
    ensures |Texts(lines, help)| == |lines|
  {
    if lines != [] { TextCount(lines[1..], help); }
  }

  lemma {:induction false} TextAt(lines: seq<Line>, help: HelpTexts, k: nat)
    requires k < |lines| == |Texts(lines, help)|
    ensures Texts(lines, help)[k] == LineText(lines[k], help)
  {
    if k > 0 {
      TextCount(lines[1..], help);
      TextAt(lines[1..], help, k - 1);
    }
  }

  /** Line `k` of the page is the text of line `k`, and the only other one is empty. */
  predicate LaidOut(page: string, lines: seq<Line>, help: HelpTexts) {
    && |Split(page, '\n')| == |lines| + 1
    && (forall k :: 0 <= k < |lines| ==> Split(page, '\n')[k] == LineText(lines[k], help))
    && Split(page, '\n')[|lines|] == ""
  }

  lemma SplitIsLaidOut(page: string, lines: seq<Line>, help: HelpTexts)
    requires Split(page, '\n') == Texts(lines, help) + [""]
    ensures LaidOut(page, lines, help)
  {
    TextCount(lines, help);
    forall k | 0 <= k < |lines| ensures Split(page, '\n')[k] == LineText(lines[k], help) {
      TextAt(lines, help, k);
    }
  }

  lemma LineComment(line: Line, help: HelpTexts)
    requires GoodName(NameOf(line)) && (line.Value? ==> Readable(line.series))
    ensures var text := LineText(line, help);
      && ReadComment(text, HELP_MARK) == (if line.Help? then Some((line.name, help(line.name))) else None)
      && ReadComment(text, TYPE_MARK) ==
         (if !line.Type? then None
          else Some((line.name, match line.kind case Gauge => "gauge" case Counter => "counter")))
  {
    match line
    case Help(name) => HelpReadsBack(name, help);
    case Type(name, kind) => TypeReadsBack(name, kind, help);
    case Value(series, value) =>
      SampleTextIsFaithful(series, value, help);
      NoComment(LineText(line, help), HELP_MARK);
      NoComment(LineText(line, help), TYPE_MARK);
  }

  lemma SaidInLine(page: string, lines: seq<Line>, help: HelpTexts, mark: string, name: string, words: string)
    returns (k: nat)
    requires LaidOut(page, lines, help) && (mark == HELP_MARK || mark == TYPE_MARK) && Says(page, mark, name, words)
    ensures k < |lines| && ReadComment(LineText(lines[k], help), mark) == Some((name, words))
  {
    k :| 0 <= k < |Split(page, '\n')| && ReadComment(Split(page, '\n')[k], mark) == Some((name, words));
    NoComment("", mark);
  }

  lemma LineIsSaid(page: string, lines: seq<Line>, help: HelpTexts, line: Line)
    requires LaidOut(page, lines, help) && LinesReadable(lines) && line in lines
    ensures line.Help? ==> Says(page, HELP_MARK, line.name, help(line.name))
    ensures line.Type? ==>
      Says(page, TYPE_MARK, line.name, match line.kind case Gauge => "gauge" case Counter => "counter")
  {
    var k :| 0 <= k < |lines| && lines[k] == line;
    LineComment(line, help);
    assert Split(page, '\n')[k] == LineText(line, help);
  }

  /** The page says of a metric exactly what its lines say. */
  lemma PageSaysHelp(page: string, lines: seq<Line>, help: HelpTexts, name: string, words: string)
    requires LaidOut(page, lines, help) && LinesReadable(lines)
    ensures Says(page, HELP_MARK, name, words) <==> Help(name) in lines && words == help(name)
  {
    if Says(page, HELP_MARK, name, words) {
      var k := SaidInLine(page, lines, help, HELP_MARK, name, words);
      LineComment(lines[k], help);
      assert lines[k] == Help(name);
    }
    if Help(name) in lines { LineIsSaid(page, lines, help, Help(name)); }
  }

  lemma PageSaysType(page: string, lines: seq<Line>, help: HelpTexts, name: string, words: string)
    requires LaidOut(page, lines, help) && LinesReadable(lines)
    ensures Says(page, TYPE_MARK, name, words) <==>
      || (Type(name, Gauge) in lines && words == "gauge") || (Type(name, Counter) in lines && words == "counter")
  {
    if Says(page, TYPE_MARK, name, words) {
      var k := SaidInLine(page, lines, help, TYPE_MARK, name, words);
      LineComment(lines[k], help);
      assert lines[k] == Type(name, lines[k].kind) && lines[k] in lines;
    }
    if Type(name, Gauge) in lines { LineIsSaid(page, lines, help, Type(name, Gauge)); }
    if Type(name, Counter) in lines { LineIsSaid(page, lines, help, Type(name, Counter)); }
  }

  predicate HasMetric(t: Table, name: string) { exists s :: s in t && s.name == name }

  /** A stored metric, and no other, has its help text and its type, `gauge` for the one table and
      `counter` for the other. */
  ghost predicate CommentsFit(page: string, help: HelpTexts, gauges: Table, counters: Table,
                              name: string, words: string) {
    && (Says(page, HELP_MARK, name, words) <==>
          words == help(name) && (HasMetric(gauges, name) || HasMetric(counters, name)))
    && (Says(page, TYPE_MARK, name, words) <==>
          (words == "gauge" && HasMetric(gauges, name)) || (words == "counter" && HasMetric(counters, name)))
  }

  ghost predicate Comments(page: string, help: HelpTexts, gauges: Table, counters: Table) {
    forall name: string, words: string :: CommentsFit(page, help, gauges, counters, name, words)
  }

  lemma NamedIff(items: seq<Item>, t: Table, kind: Kind, name: string)
    requires ListsTable(items, t, kind)
    ensures IsNamed(items, name) <==> HasMetric(t, name)
  {
    if IsNamed(items, name) {
      var k :| 0 <= k < |items| && items[k].series.name == name;
      assert items[k] in items;
    }
    if HasMetric(t, name) {
      var s :| s in t && s.name == name;
      assert Item(s, t[s], kind) in items;
    }
  }

  /** The comments among the lines. */
  lemma LineIff(lines: seq<Line>, items: seq<Item>, name: string, kind: Kind)
    requires WellGrouped(lines) && Samples(lines) == Pairs(items)
    requires forall i :: 0 <= i < |lines| ==> IsNamed(items, NameOf(lines[i]))
    ensures Help(name) in lines <==> IsNamed(items, name)
    ensures Type(name, kind) in lines <==> IsNamed(items, name) && kind == KindOf(name)
  {
    if IsNamed(items, name) { MetricHasHeader(lines, items, name); }
  }

  lemma NamedInEither(a: seq<Item>, b: seq<Item>, name: string)
    ensures IsNamed(a + b, name) <==> IsNamed(a, name) || IsNamed(b, name)
  {
    if IsNamed(a, name) {
      var k :| 0 <= k < |a| && a[k].series.name == name;
      assert (a + b)[k] == a[k];
    }
    if IsNamed(b, name) {
      var k :| 0 <= k < |b| && b[k].series.name == name;
      assert (a + b)[|a| + k] == b[k];
    }
  }

  lemma HasMetricKind(t: Table, kind: Kind, name: string)
    requires NamesHaveKind(t, kind) && HasMetric(t, name)
    ensures KindOf(name) == kind
  {
  }

  /** The lines are those of these two tables. */
  ghost predicate LinesOf(lines: seq<Line>, gauges: Table, counters: Table) {
    forall name: string ::
      && (Help(name) in lines <==> HasMetric(gauges, name) || HasMetric(counters, name))
      && (Type(name, Gauge) in lines <==> HasMetric(gauges, name))
      && (Type(name, Counter) in lines <==> HasMetric(counters, name))
  }

  lemma RenderedAreLinesOf(lines: seq<Line>, g: seq<Item>, c: seq<Item>, gauges: Table, counters: Table)
    requires NamesHaveKind(gauges, Gauge) && NamesHaveKind(counters, Counter)
    requires ListsTable(g, gauges, Gauge) && ListsTable(c, counters, Counter)
    requires WellGrouped(lines) && Samples(lines) == Pairs(g + c)
    requires forall i :: 0 <= i < |lines| ==> IsNamed(g + c, NameOf(lines[i]))
    ensures LinesOf(lines, gauges, counters)
  {
    forall name: string
      ensures Help(name) in lines <==> HasMetric(gauges, name) || HasMetric(counters, name)
      ensures Type(name, Gauge) in lines <==> HasMetric(gauges, name)
      ensures Type(name, Counter) in lines <==> HasMetric(counters, name)
    {
      LineIff(lines, g + c, name, Gauge);
      LineIff(lines, g + c, name, Counter);
      NamedInEither(g, c, name);
      NamedIff(g, gauges, Gauge, name);
      NamedIff(c, counters, Counter, name);
      if HasMetric(gauges, name) { HasMetricKind(gauges, Gauge, name); }
      if HasMetric(counters, name) { HasMetricKind(counters, Counter, name); }
    }
  }

  lemma CommentsOfLines(page: string, lines: seq<Line>, help: HelpTexts, gauges: Table, counters: Table)
    requires LaidOut(page, lines, help) && LinesReadable(lines) && LinesOf(lines, gauges, counters)
    ensures Comments(page, help, gauges, counters)
  {
    forall name: string, words: string ensures CommentsFit(page, help, gauges, counters, name, words) {
      PageSaysHelp(page, lines, help, name, words);
      PageSaysType(page, lines, help, name, words);
    }
  }

  /** ## The whole function */

  lemma {:induction false} SampleIsListed(lines: seq<Line>, i: nat)
    requires i < |lines| && lines[i].Value?
    ensures (lines[i].series, lines[i].value) in Samples(lines)
  {
    if i > 0 { SampleIsListed(lines[1..], i - 1); }
  }

  lemma ItemsAreReadable(items: seq<Item>, t: Table, kind: Kind)
    requires ListsTable(items, t, kind) && AllReadable(t)
    ensures forall i :: 0 <= i < |items| ==> Readable(items[i].series)
  {
    forall i | 0 <= i < |items| ensures Readable(items[i].series) { assert items[i] in items; }
  }

  predicate ItemsReadable(items: seq<Item>) { forall i :: 0 <= i < |items| ==> Readable(items[i].series) }

  lemma RenderedIsReadable(lines: seq<Line>, items: seq<Item>)
    requires ItemsReadable(items) && Samples(lines) == Pairs(items)
    requires forall i :: 0 <= i < |lines| ==> IsNamed(items, NameOf(lines[i]))
    ensures LinesReadable(lines)
  {
    forall i | 0 <= i < |lines| && lines[i].Value? ensures Readable(lines[i].series) {
      SampleIsListed(lines, i);
      var k :| 0 <= k < |Pairs(items)| && Pairs(items)[k] == (lines[i].series, lines[i].value);
    }
  }

  lemma StoreIsRenderable(store: Store, gauges: seq<Item>, counters: seq<Item>)
    requires store.Valid()
    requires Sorted(gauges, BY_SERIES) && ListsTable(gauges, store.gauges, Gauge)
    requires Sorted(counters, BY_SERIES) && ListsTable(counters, store.counters, Counter)
    ensures Renderable(gauges + counters) && ItemsReadable(gauges + counters)
    ensures NamesHaveKind(store.gauges, Gauge) && NamesHaveKind(store.counters, Counter)
  {
    GaugesAreGauges(store.calls);
    IncrementsAreCounters(store.calls);
    IncAllIsCounters(Increments(store.calls));
    ItemsMatch(gauges, store.gauges, Gauge);
    ItemsMatch(counters, store.counters, Counter);
    SortedIsClustered(gauges);
    SortedIsClustered(counters);
    GaugesThenCounters(gauges, counters);
    StoredSeriesAreReadable(store.calls);
    ItemsAreReadable(gauges, store.gauges, Gauge);
    ItemsAreReadable(counters, store.counters, Counter);
  }

  /** The page splits into these well-grouped lines, and reads as these items, which are the entries of
      the two tables, sorted, gauges first. */
  ghost predicate ShowsItems(page: string, help: HelpTexts, lines: seq<Line>, gauges: seq<Item>, counters: seq<Item>) {
    && WellGrouped(lines) && Split(page, '\n') == Texts(lines, help) + [""]
    && Sorted(gauges, BY_SERIES) && Sorted(counters, BY_SERIES)
    && ReadPage(page) == Some(Pairs(gauges + counters))
  }

  ghost predicate ShowsTables(page: string, help: HelpTexts, gauges: Table, counters: Table) {
    exists lines, g, c :: (
      ShowsItems(page, help, lines, g, c) && ListsTable(g, gauges, Gauge) && ListsTable(c, counters, Counter))
  }

  /** After any run of calls the page shows exactly the stored values, each once. */
  method RenderPrometheusMetrics(store: Store, help: HelpTexts) returns (page: string)
    requires store.Valid() && IsOneLineHelp(help)
    ensures ShowsTables(page, help, store.gauges, store.counters)
    ensures Comments(page, help, store.gauges, store.counters)
  {
    var g := SortedItems(store.gauges, Gauge);
    var c := SortedItems(store.counters, Counter);
    StoreIsRenderable(store, g, c);
    var lines := RenderItems(g + c);
    RenderedIsReadable(lines, g + c);
    PageReadsBack(lines, help);
    page := PageText(lines, help);
    assert ShowsItems(page, help, lines, g, c);
    SplitIsLaidOut(page, lines, help);
    RenderedAreLinesOf(lines, g, c, store.gauges, store.counters);
    CommentsOfLines(page, lines, help, store.gauges, store.counters);
  }
}
