/** JSON values as the Python service holds them, and the text `json.dumps` prints for them
    with `ensure_ascii=False`.  Objects keep insertion order, so an object is a sequence of
    fields; a well-formed value never repeats a key inside one object. */
module Json {

  datatype Field = Field(key: string, value: Json)

  datatype Json =
    | Null
    | Bool(b: bool)
    | Int(n: int)
    | Str(s: string)
    | Arr(items: seq<Json>)
    | Obj(fields: seq<Field>)

  /** The two separators passed to `json.dumps`. */
  datatype Style = Style(itemSep: string, keySep: string)

  const COMPACT := Style(",", ":")
  const SPACED := Style(", ", ": ")

  predicate DistinctKeys(fields: seq<Field>) {
    forall i, j :: 0 <= i < j < |fields| ==> fields[i].key != fields[j].key
  }

  predicate WellFormed(j: Json) {
    match j
    case Arr(items) => forall i :: 0 <= i < |items| ==> WellFormed(items[i])
    case Obj(fields) =>
      && DistinctKeys(fields)
      && forall i :: 0 <= i < |fields| ==> WellFormed(fields[i].value)
    case _ => true
  }

  // ---------- Printing ----------

  function Digit(d: nat): char
    requires d < 16
  {
    if d < 10 then '0' + d as char else 'a' + (d - 10) as char
  }

  function NatText(n: nat): string {
    if n < 10 then [Digit(n)] else NatText(n / 10) + [Digit(n % 10)]
  }

  function IntText(n: int): string {
    if n < 0 then "-" + NatText(-n) else NatText(n)
  }

  predicate IsControl(c: char) { c < ' ' }

  function EscapeChar(c: char): string {
    if c == '"' then "\\\""
    else if c == '\\' then "\\\\"
    else if c == '\n' then "\\n"
    else if c == '\r' then "\\r"
    else if c == '\t' then "\\t"
    else if c == '\U{0008}' then "\\b"
    else if c == '\U{000C}' then "\\f"
    else if IsControl(c) then "\\u00" + [Digit(c as int / 16), Digit(c as int % 16)]
    else [c]
  }

  function EscapeAll(s: string): string {
    if s == [] then [] else EscapeChar(s[0]) + EscapeAll(s[1..])
  }

  function Quote(s: string): string { "\"" + EscapeAll(s) + "\"" }

  function Dump(j: Json, style: Style): string
    decreases j, 1
  {
    match j
    case Null => "null"
    case Bool(b) => if b then "true" else "false"
    case Int(n) => IntText(n)
    case Str(s) => Quote(s)
    case Arr(items) => "[" + DumpItems(items, style) + "]"
    case Obj(fields) => "{" + DumpFields(fields, style) + "}"
  }

  function DumpItems(items: seq<Json>, style: Style): string
    decreases items, 0
  {
    if items == [] then []
    else if |items| == 1 then Dump(items[0], style)
    else Dump(items[0], style) + style.itemSep + DumpItems(items[1..], style)
  }

  function DumpField(field: Field, style: Style): string
    decreases field, 0
  {
    Quote(field.key) + style.keySep + Dump(field.value, style)
  }

  function DumpFields(fields: seq<Field>, style: Style): string
    decreases fields, 0
  {
    if fields == [] then []
    else if |fields| == 1 then DumpField(fields[0], style)
    else DumpField(fields[0], style) + style.itemSep + DumpFields(fields[1..], style)
  }

  // ---------- Printed text holds no control characters ----------

  predicate NoControls(s: string) { forall i :: 0 <= i < |s| ==> !IsControl(s[i]) }

  lemma {:induction false} NatTextHasNoControls(n: nat)
    ensures NoControls(NatText(n))
  {
    if n >= 10 { NatTextHasNoControls(n / 10); }
  }

  lemma {:induction false} QuoteHasNoControls(s: string)
    ensures NoControls(EscapeAll(s)) && NoControls(Quote(s))
  {
    if s != [] { QuoteHasNoControls(s[1..]); }
  }

  /** Whatever the value, the printed text contains no character below U+0020, so printing that
      text again as a JSON string can only lengthen it at quotes and backslashes. */
  lemma {:induction false} DumpHasNoControls(j: Json, style: Style)
    requires NoControls(style.itemSep) && NoControls(style.keySep)
    ensures NoControls(Dump(j, style))
    decreases j, 1
  {
    match j
    case Int(n) => NatTextHasNoControls(if n < 0 then -n else n);
    case Str(s) => QuoteHasNoControls(s);
    case Arr(items) => DumpItemsHasNoControls(items, style);
    case Obj(fields) => DumpFieldsHasNoControls(fields, style);
    case _ =>
  }

  lemma {:induction false} DumpItemsHasNoControls(items: seq<Json>, style: Style)
    requires NoControls(style.itemSep) && NoControls(style.keySep)
    ensures NoControls(DumpItems(items, style))
    decreases items, 0
  {
    if items != [] {
      DumpHasNoControls(items[0], style);
      DumpItemsHasNoControls(items[1..], style);
    }
  }

  lemma {:induction false} DumpFieldsHasNoControls(fields: seq<Field>, style: Style)
    requires NoControls(style.itemSep) && NoControls(style.keySep)
    ensures NoControls(DumpFields(fields, style))
    decreases fields, 0
  {
    if fields != [] {
      QuoteHasNoControls(fields[0].key);
      DumpHasNoControls(fields[0].value, style);
      DumpFieldsHasNoControls(fields[1..], style);
    }
  }
}
