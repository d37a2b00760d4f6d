/** Label values in the metrics exposition format and in log-query selectors: escaped by a chain of
    single-character replaces, printed between quotes, and read back. */
module PrometheusText {
  import opened Options
  import opened Text

  /** ## Escaping */

  function Replace(s: string, c: char, with: string): string {
    if s == [] then [] else (if s[0] == c then with else [s[0]]) + Replace(s[1..], c, with)
  }

  /** The letter that stands for an escaped character. */
  function Code(c: char): char {
    match c
    case '\n' => 'n'
    case '\r' => 'r'
    case '\t' => 't'
    case _ => c
  }

  function ReplaceChain(s: string, order: seq<char>): string
    decreases |order|
  {
    if order == [] then s
    else ReplaceChain(Replace(s, order[0], ['\\', Code(order[0])]), order[1..])
  }

  const LABEL_ORDER: seq<char> := ['\\', '\n', '"']
  const QUERY_ORDER: seq<char> := ['\\', '\n', '\r', '\t', '"']

  function EscapeLabelValue(s: string): string { ReplaceChain(s, LABEL_ORDER) }

  /** A missing or blank selector value yields no selector. */
  function EscapeQueryLabelValue(value: Option<string>): Option<string> {
    if value.None? || Strip(value.value) == "" then None
    else Some(ReplaceChain(value.value, QUERY_ORDER))
  }

  /** The meaning: one pass from left to right. */
  function EscapeChar(c: char, escaped: set<char>): (r: string)
    ensures 1 <= |r| <= 2
  {
    if c in escaped then ['\\', Code(c)] else [c]
  }

  function Escape(s: string, escaped: set<char>): string {
    if s == [] then [] else EscapeChar(s[0], escaped) + Escape(s[1..], escaped)
  }

  lemma {:induction false} ReplaceConcat(a: string, b: string, c: char, with: string)
    ensures Replace(a + b, c, with) == Replace(a, c, with) + Replace(b, c, with)
  {
    if a == [] {
      assert a + b == b;
    } else {
      assert (a + b)[1..] == a[1..] + b;
      ReplaceConcat(a[1..], b, c, with);
    }
  }

  /** `c` is not produced by escaping `escaped`. */
  predicate Untouched(c: char, escaped: set<char>) {
    c !in escaped && forall k :: k in escaped ==> c != '\\' && Code(k) != c
  }

  lemma ReplaceInChar(d: char, c: char, escaped: set<char>)
    requires Untouched(c, escaped)
    ensures Replace(EscapeChar(d, escaped), c, ['\\', Code(c)]) == EscapeChar(d, escaped + {c})
  {
    var with := ['\\', Code(c)];
    assert [d][1..] == [] && ['\\', Code(d)][1..] == [Code(d)] && [Code(d)][1..] == [];
    assert Replace([d], c, with) == (if d == c then with else [d]) + [];
    if d in escaped {
      assert Replace([Code(d)], c, with) == [Code(d)] + [];
    }
  }

  lemma {:induction false} ReplaceAfterEscape(s: string, c: char, escaped: set<char>)
    requires Untouched(c, escaped)
    ensures Replace(Escape(s, escaped), c, ['\\', Code(c)]) == Escape(s, escaped + {c})
  {
    if s != [] {
      ReplaceConcat(EscapeChar(s[0], escaped), Escape(s[1..], escaped), c, ['\\', Code(c)]);
      ReplaceInChar(s[0], c, escaped);
      ReplaceAfterEscape(s[1..], c, escaped);
    }
  }

  function ToSet(order: seq<char>): set<char> { set c | c in order }

  /** No later replace touches what an earlier one wrote. */
  predicate SafeOrder(order: seq<char>, escaped: set<char>)
    decreases |order|
  {
    order == [] || (Untouched(order[0], escaped) && SafeOrder(order[1..], escaped + {order[0]}))
  }

  lemma {:induction false} ChainAfterEscape(s: string, order: seq<char>, escaped: set<char>)
    requires SafeOrder(order, escaped)
    ensures ReplaceChain(Escape(s, escaped), order) == Escape(s, escaped + ToSet(order))
    decreases |order|
  {
    if order == [] {
      assert escaped + ToSet(order) == escaped;
    } else {
      ReplaceAfterEscape(s, order[0], escaped);
      ChainAfterEscape(s, order[1..], escaped + {order[0]});
      assert order == [order[0]] + order[1..];
      assert escaped + {order[0]} + ToSet(order[1..]) == escaped + ToSet(order);
    }
  }

  lemma {:induction false} EscapeNothing(s: string)
    ensures Escape(s, {}) == s
  {
    if s != [] { EscapeNothing(s[1..]); }
  }

  const LABEL_ESCAPED: set<char> := {'\\', '\n', '"'}
  const QUERY_ESCAPED: set<char> := {'\\', '\n', '\r', '\t', '"'}

  lemma LabelOrderIsSafe()
    ensures SafeOrder(LABEL_ORDER, {}) && ToSet(LABEL_ORDER) == LABEL_ESCAPED
  {
    assert LABEL_ORDER[1..] == ['\n', '"'] && ['\n', '"'][1..] == ['"'] && ['"'][1..] == [];
    assert SafeOrder(['"'], {'\\'} + {'\n'});
    assert SafeOrder(['\n', '"'], {} + {'\\'});
  }

  lemma QueryOrderIsSafe()
    ensures SafeOrder(QUERY_ORDER, {}) && ToSet(QUERY_ORDER) == QUERY_ESCAPED
  {
    var rest := ['\n', '\r', '\t', '"'];
    assert QUERY_ORDER[1..] == rest && rest[1..] == ['\r', '\t', '"'];
    assert ['\r', '\t', '"'][1..] == ['\t', '"'] && ['\t', '"'][1..] == ['"'] && ['"'][1..] == [];
    assert SafeOrder(['"'], {} + {'\\'} + {'\n'} + {'\r'} + {'\t'});
    assert SafeOrder(['\t', '"'], {} + {'\\'} + {'\n'} + {'\r'});
    assert SafeOrder(['\r', '\t', '"'], {} + {'\\'} + {'\n'});
    assert SafeOrder(rest, {} + {'\\'});
  }

  /** The three replaces are one escaping pass. */
  lemma LabelEscapeIsOnePass(s: string)
    ensures EscapeLabelValue(s) == Escape(s, LABEL_ESCAPED)
  {
    LabelOrderIsSafe();
    EscapeNothing(s);
    ChainAfterEscape(s, LABEL_ORDER, {});
    assert {} + LABEL_ESCAPED == LABEL_ESCAPED;
  }

  /** ... and so are the five. */
  lemma QueryEscapeIsOnePass(s: string)
    ensures ReplaceChain(s, QUERY_ORDER) == Escape(s, QUERY_ESCAPED)
  {
    QueryOrderIsSafe();
    EscapeNothing(s);
    ChainAfterEscape(s, QUERY_ORDER, {});
    assert {} + QUERY_ESCAPED == QUERY_ESCAPED;
  }

  /** ## Reading a quoted value */

  function Decode(letter: char, escaped: set<char>): string {
    if letter == 'n' && '\n' in escaped then "\n"
    else if letter == 'r' && '\r' in escaped then "\r"
    else if letter == 't' && '\t' in escaped then "\t"
    else if letter in escaped then [letter]
    else ['\\', letter]
  }

  function Prepend(head: string, r: Option<(string, string)>): Option<(string, string)> {
    match r case None => None case Some((value, rest)) => Some((head + value, rest))
  }

  /** Reads up to the closing quote, and returns the value and what follows the quote. */
  function ReadQuoted(text: string, escaped: set<char>): Option<(string, string)>
    decreases |text|
  {
    if text == [] then None
    else if text[0] == '"' then Some(("", text[1..]))
    else if text[0] != '\\' then Prepend([text[0]], ReadQuoted(text[1..], escaped))
    else if |text| == 1 then None
    else Prepend(Decode(text[1], escaped), ReadQuoted(text[2..], escaped))
  }

  predicate Escapes(escaped: set<char>) {
    '\\' in escaped && '"' in escaped && escaped <= QUERY_ESCAPED
  }

  lemma ReadOneChar(c: char, text: string, escaped: set<char>)
    requires Escapes(escaped)
    ensures ReadQuoted(EscapeChar(c, escaped) + text, escaped) == Prepend([c], ReadQuoted(text, escaped))
  {
    var all := EscapeChar(c, escaped) + text;
    if c in escaped {
      assert all[2..] == text;
    } else {
      assert all[1..] == text;
    }
  }

  /** An escaped value followed by a quote reads back as itself, whatever comes after: no value can
      end its own quotes. */
  lemma {:induction false} ReadEscaped(s: string, rest: string, escaped: set<char>)
    requires Escapes(escaped)
    ensures ReadQuoted(Escape(s, escaped) + "\"" + rest, escaped) == Some((s, rest))
  {
    var text := Escape(s, escaped) + "\"" + rest;
    if s == [] {
      assert text == "\"" + rest && text[1..] == rest;
    } else {
      var tail := Escape(s[1..], escaped) + "\"" + rest;
      assert text == EscapeChar(s[0], escaped) + tail;
      ReadOneChar(s[0], tail, escaped);
      ReadEscaped(s[1..], rest, escaped);
      assert [s[0]] + s[1..] == s;
    }
  }

  lemma LabelValueReadsBack(s: string, rest: string)
    ensures ReadQuoted(EscapeLabelValue(s) + "\"" + rest, LABEL_ESCAPED) == Some((s, rest))
  {
    LabelEscapeIsOnePass(s);
    ReadEscaped(s, rest, LABEL_ESCAPED);
  }

  /** A selector is built if and only if the value has a character that is not a space, and then it
      selects exactly that value. */
  lemma QueryValueReadsBack(value: Option<string>, rest: string)
    ensures var r := EscapeQueryLabelValue(value);
      && (r.Some? <==> value.Some? && exists c :: c in value.value && !IsSpace(c))
      && (r.Some? ==> ReadQuoted(r.value + "\"" + rest, QUERY_ESCAPED) == Some((value.value, rest)))
  {
    if value.Some? {
      QueryEscapeIsOnePass(value.value);
      ReadEscaped(value.value, rest, QUERY_ESCAPED);
      var stripped := Strip(value.value);
      if stripped != "" { assert stripped[0] in value.value && !IsSpace(stripped[0]); }
    }
  }

  /** ## Label sets and sample lines */

  datatype Label = Label(key: string, value: string)

  function PrintLabel(l: Label): string { l.key + "=\"" + EscapeLabelValue(l.value) + "\"" }

  function PrintLabels(labels: seq<Label>): string
    requires labels != []
  {
    if |labels| == 1 then PrintLabel(labels[0]) else PrintLabel(labels[0]) + "," + PrintLabels(labels[1..])
  }

  function FormatLabels(labels: seq<Label>): string {
    if labels == [] then "" else "{" + PrintLabels(labels) + "}"
  }

  predicate NameIsPlain(s: string) {
    forall i :: 0 <= i < |s| ==> s[i] != '=' && s[i] != '{' && s[i] != ' ' && s[i] != '\n'
  }

  predicate NamesArePlain(labels: seq<Label>) {
    forall i :: 0 <= i < |labels| ==> NameIsPlain(labels[i].key)
  }

  /** The text before the first of `stops`, and the rest from there on. */
  function Until(text: string, stops: set<char>): (r: (string, string))
    ensures r.0 + r.1 == text && |r.1| <= |text|
  {
    if text == [] || text[0] in stops then ("", text)
    else var r := Until(text[1..], stops); ([text[0]] + r.0, r.1)
  }

  lemma {:induction false} UntilStop(name: string, rest: string, stops: set<char>)
    requires (forall i :: 0 <= i < |name| ==> name[i] !in stops) && rest != [] && rest[0] in stops
    ensures Until(name + rest, stops) == (name, rest)
  {
    if name == [] {
      assert name + rest == rest;
    } else {
      assert (name + rest)[1..] == name[1..] + rest;
      UntilStop(name[1..], rest, stops);
      assert [name[0]] + name[1..] == name;
    }
  }

  /** One label, and what follows its closing quote. */
  function ReadLabel(text: string): Option<(Label, string)> {
    var (key, rest) := Until(text, {'='});
    if |rest| < 2 || rest[1] != '"' then None
    else match ReadQuoted(rest[2..], LABEL_ESCAPED)
      case None => None
      case Some((value, after)) => Some((Label(key, value), after))
  }

  lemma {:induction false} ReadQuotedShrinks(text: string, escaped: set<char>)
    ensures var r := ReadQuoted(text, escaped); r.Some? ==> |r.value.1| < |text|
    decreases |text|
  {
    if text == [] || text[0] == '"' {
    } else if text[0] != '\\' {
      ReadQuotedShrinks(text[1..], escaped);
    } else if |text| > 1 {
      ReadQuotedShrinks(text[2..], escaped);
    }
  }

  lemma ReadLabelShrinks(text: string)
    ensures var r := ReadLabel(text); r.Some? ==> |r.value.1| < |text|
  {
    var rest := Until(text, {'='}).1;
    if |rest| >= 2 { ReadQuotedShrinks(rest[2..], LABEL_ESCAPED); }
  }

  function ReadLabels(text: string): Option<(seq<Label>, string)>
    decreases |text|
  {
    ReadLabelShrinks(text);
    match ReadLabel(text)
    case None => None
    case Some((first, after)) =>
      if after == [] then None
      else if after[0] == '}' then Some(([first], after[1..]))
      else if after[0] != ',' then None
      else match ReadLabels(after[1..])
        case None => None
        case Some((more, rest)) => Some(([first] + more, rest))
  }

  lemma ReadPrintedLabel(l: Label, rest: string)
    requires NameIsPlain(l.key)
    ensures ReadLabel(PrintLabel(l) + rest) == Some((l, rest))
  {
    var quoted := EscapeLabelValue(l.value) + "\"" + rest;
    var after := "=\"" + quoted;
    assert PrintLabel(l) + rest == l.key + after;
    UntilStop(l.key, after, {'='});
    assert after[2..] == quoted;
    LabelValueReadsBack(l.value, rest);
  }

  lemma {:induction false} ReadPrintedLabels(labels: seq<Label>, rest: string)
    requires labels != [] && NamesArePlain(labels)
    ensures ReadLabels(PrintLabels(labels) + "}" + rest) == Some((labels, rest))
  {
    var text := PrintLabels(labels) + "}" + rest;
    if |labels| == 1 {
      var after := "}" + rest;
      assert text == PrintLabel(labels[0]) + after;
      ReadPrintedLabel(labels[0], after);
      assert after[1..] == rest && labels == [labels[0]];
    } else {
      var more := PrintLabels(labels[1..]) + "}" + rest;
      var after := "," + more;
      assert text == PrintLabel(labels[0]) + after;
      ReadPrintedLabel(labels[0], after);
      ReadPrintedLabels(labels[1..], rest);
      assert after[1..] == more && labels == [labels[0]] + labels[1..];
    }
  }

  function SampleLine(name: string, labels: seq<Label>, number: string): string {
    name + FormatLabels(labels) + " " + number
  }

  datatype Sample = Sample(name: string, labels: seq<Label>, number: string)

  function ReadSampleTail(name: string, rest: string): Option<Sample> {
    if rest == [] then None
    else if rest[0] == ' ' then Some(Sample(name, [], rest[1..]))
    else match ReadLabels(rest[1..])
      case None => None
      case Some((labels, after)) =>
        if after == [] || after[0] != ' ' then None else Some(Sample(name, labels, after[1..]))
  }

  function ReadSample(line: string): Option<Sample> {
    var (name, rest) := Until(line, {'{', ' '});
    ReadSampleTail(name, rest)
  }

  lemma LabelledTail(name: string, text: string, labels: seq<Label>, number: string)
    requires ReadLabels(text) == Some((labels, " " + number))
    ensures ReadSampleTail(name, "{" + text) == Some(Sample(name, labels, number))
  {
    assert ("{" + text)[1..] == text;
    assert (" " + number)[1..] == number;
  }

  lemma TailReadsBack(name: string, labels: seq<Label>, number: string)
    requires NamesArePlain(labels)
    ensures ReadSampleTail(name, FormatLabels(labels) + (" " + number)) == Some(Sample(name, labels, number))
  {
    var tail := " " + number;
    if labels == [] {
      assert FormatLabels(labels) + tail == tail && tail[1..] == number;
    } else {
      var text := PrintLabels(labels) + "}" + tail;
      assert FormatLabels(labels) + tail == "{" + text;
      ReadPrintedLabels(labels, tail);
      LabelledTail(name, text, labels, number);
    }
  }

  /** A sample line determines its series and its value. */
  lemma SampleReadsBack(name: string, labels: seq<Label>, number: string)
    requires NameIsPlain(name) && NamesArePlain(labels)
    ensures ReadSample(SampleLine(name, labels, number)) == Some(Sample(name, labels, number))
  {
    var rest := FormatLabels(labels) + (" " + number);
    assert SampleLine(name, labels, number) == name + rest;
    UntilStop(name, rest, {'{', ' '});
    TailReadsBack(name, labels, number);
  }

  predicate OneLine(s: string) { forall i :: 0 <= i < |s| ==> s[i] != '\n' }

  lemma {:induction false} EscapedIsOneLine(s: string)
    ensures OneLine(Escape(s, LABEL_ESCAPED))
  {
    if s != [] { EscapedIsOneLine(s[1..]); }
  }

  lemma {:induction false} LabelsAreOneLine(labels: seq<Label>)
    requires labels != [] && NamesArePlain(labels)
    ensures OneLine(PrintLabels(labels))
  {
    LabelEscapeIsOnePass(labels[0].value);
    EscapedIsOneLine(labels[0].value);
    assert OneLine(PrintLabel(labels[0]));
    if |labels| > 1 { LabelsAreOneLine(labels[1..]); }
  }

  /** A line feed in a label value never splits a sample over two lines. */
  lemma SampleIsOneLine(name: string, labels: seq<Label>, number: string)
    requires NameIsPlain(name) && NamesArePlain(labels) && OneLine(number)
    ensures OneLine(SampleLine(name, labels, number))
  {
    if labels != [] { LabelsAreOneLine(labels); }
    assert OneLine(FormatLabels(labels));
  }
}
