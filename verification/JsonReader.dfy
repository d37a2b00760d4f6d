/** A reader for the compact text the tool cache uses as its key, and the proof that reading
    undoes printing.  It follows the value, string and object grammars of RFC 8259 sections 4, 5
    and 7, restricted to the integers the printer produces. */
module JsonReader {
  import opened Json

  datatype Parse<+T> = Ok(value: T, rest: string) | Err

  predicate IsDigit(c: char) { '0' <= c <= '9' }

  function HexValue(c: char): int {
    if '0' <= c <= '9' then c as int - '0' as int
    else if 'a' <= c <= 'f' then c as int - 'a' as int + 10
    else -1
  }

  /** Splits off the longest prefix of digits, folding it onto `acc`. */
  function ReadDigits(s: string, acc: nat): (r: (nat, string))
    ensures |r.1| <= |s|
  {
    if s == [] || !IsDigit(s[0]) then (acc, s)
    else ReadDigits(s[1..], 10 * acc + HexValue(s[0]))
  }

  function ReadInt(s: string): (r: Parse<Json>)
    ensures r.Ok? ==> |r.rest| < |s|
  {
    if s != [] && IsDigit(s[0]) then
      var (n, rest) := ReadDigits(s[1..], HexValue(s[0])); Ok(Int(n), rest)
    else if |s| > 1 && s[0] == '-' && IsDigit(s[1]) then
      var (n, rest) := ReadDigits(s[2..], HexValue(s[1])); Ok(Int(0 - (n as int)), rest)
    else Err
  }

  /** The character named by the letter after a backslash, for the one-letter escapes. */
  function ShortEscape(c: char): Parse<char> {
    if c == '"' || c == '\\' then Ok(c, "")
    else if c == 'n' then Ok('\n', "")
    else if c == 'r' then Ok('\r', "")
    else if c == 't' then Ok('\t', "")
    else if c == 'b' then Ok('\U{0008}', "")
    else if c == 'f' then Ok('\U{000C}', "")
    else Err
  }

  /** Reads one possibly escaped character. */
  function ReadChar(s: string): (r: Parse<char>)
    requires s != []
    ensures r.Ok? ==> |r.rest| < |s|
  {
    if s[0] != '\\' then Ok(s[0], s[1..])
    else if |s| < 2 then Err
    else if s[1] != 'u' then
      match ShortEscape(s[1])
      case Ok(c, _) => Ok(c, s[2..])
      case Err => Err
    else if |s| < 6 || s[2] != '0' || s[3] != '0' || HexValue(s[4]) < 0 || HexValue(s[5]) < 0 then Err
    else Ok((16 * HexValue(s[4]) + HexValue(s[5])) as char, s[6..])
  }

  /** Reads up to and including the closing quote. */
  function ReadChars(s: string): (r: Parse<string>)
    ensures r.Ok? ==> |r.rest| < |s|
  {
    if s == [] then Err
    else if s[0] == '"' then Ok([], s[1..])
    else match ReadChar(s)
      case Err => Err
      case Ok(c, rest) =>
        match ReadChars(rest)
        case Err => Err
        case Ok(text, after) => Ok([c] + text, after)
  }

  function ReadLiteral(s: string, literal: string, value: Json): (r: Parse<Json>)
    requires literal != []
    ensures r.Ok? ==> |r.rest| < |s|
  {
    if literal <= s then Ok(value, s[|literal|..]) else Err
  }

  function ReadValue(s: string): (r: Parse<Json>)
    ensures r.Ok? ==> |r.rest| < |s|
    decreases |s|, 1
  {
    if s == [] then Err
    else if s[0] == 'n' then ReadLiteral(s, "null", Null)
    else if s[0] == 't' then ReadLiteral(s, "true", Bool(true))
    else if s[0] == 'f' then ReadLiteral(s, "false", Bool(false))
    else if s[0] == '"' then
      match ReadChars(s[1..])
      case Ok(text, rest) => Ok(Str(text), rest)
      case Err => Err
    else if s[0] == '[' then
      if |s| > 1 && s[1] == ']' then Ok(Arr([]), s[2..])
      else match ReadItems(s[1..])
        case Ok(items, rest) => Ok(Arr(items), rest)
        case Err => Err
    else if s[0] == '{' then ReadObject(s)
    else ReadInt(s)
  }

  function ReadObject(s: string): (r: Parse<Json>)
    requires s != []
    ensures r.Ok? ==> |r.rest| < |s|
    decreases |s|, 0
  {
    if |s| > 1 && s[1] == '}' then Ok(Obj([]), s[2..])
    else match ReadFields(s[1..])
      case Ok(fields, rest) => Ok(Obj(fields), rest)
      case Err => Err
  }

  /** Reads one or more items up to and including the closing bracket. */
  function ReadItems(s: string): (r: Parse<seq<Json>>)
    ensures r.Ok? ==> |r.rest| < |s|
    decreases |s|, 2
  {
    match ReadValue(s)
    case Err => Err
    case Ok(item, rest) =>
      if rest == [] then Err
      else if rest[0] == ']' then Ok([item], rest[1..])
      else if rest[0] != ',' then Err
      else match ReadItems(rest[1..])
        case Err => Err
        case Ok(items, after) => Ok([item] + items, after)
  }

  function ReadField(s: string): (r: Parse<Field>)
    ensures r.Ok? ==> |r.rest| < |s|
    decreases |s|, 2
  {
    if s == [] || s[0] != '"' then Err
    else match ReadChars(s[1..])
      case Err => Err
      case Ok(key, rest) =>
        if rest == [] || rest[0] != ':' then Err
        else match ReadValue(rest[1..])
          case Err => Err
          case Ok(value, after) => Ok(Field(key, value), after)
  }

  /** Reads one or more fields up to and including the closing brace. */
  function ReadFields(s: string): (r: Parse<seq<Field>>)
    ensures r.Ok? ==> |r.rest| < |s|
    decreases |s|, 3
  {
    match ReadField(s)
    case Err => Err
    case Ok(field, rest) =>
      if rest == [] then Err
      else if rest[0] == '}' then Ok([field], rest[1..])
      else if rest[0] != ',' then Err
      else match ReadFields(rest[1..])
        case Err => Err
        case Ok(fields, after) => Ok([field] + fields, after)
  }

  // ---------- Reading undoes printing ----------

  /** Text that may follow a value: it cannot be taken for more digits of a number. */
  predicate Delimits(tail: string) { tail == [] || !IsDigit(tail[0]) }

  lemma {:induction false} ReadDigitsOfNat(n: nat, tail: string)
    ensures ReadDigits(NatText(n) + tail, 0) == ReadDigits(tail, n)
    ensures IsDigit(NatText(n)[0])
  {
    if n < 10 {
      assert ([Digit(n)] + tail)[1..] == tail;
    } else {
      var text, last := NatText(n / 10), [Digit(n % 10)];
      assert NatText(n) + tail == text + (last + tail);
      ReadDigitsOfNat(n / 10, last + tail);
      assert (last + tail)[1..] == tail;
    }
  }

  lemma ReadIntOfText(n: int, tail: string)
    requires Delimits(tail)
    ensures ReadInt(IntText(n) + tail) == Ok(Int(n), tail)
    ensures IntText(n) != [] && (IsDigit(IntText(n)[0]) || IntText(n)[0] == '-')
  {
    var m := if n < 0 then -n else n;
    var s := NatText(m) + tail;
    ReadDigitsOfNat(m, tail);
    if n < 0 {
      assert IntText(n) + tail == ['-'] + s;
      assert (['-'] + s)[2..] == s[1..];
    }
  }

  lemma ReadCharOfEscape(c: char, tail: string)
    ensures ReadChar(EscapeChar(c) + tail) == Ok(c, tail)
    ensures EscapeChar(c)[0] != '"'
  {
    var e := EscapeChar(c);
    assert (e + tail)[|e|..] == tail;
  }

  /** The reader's step over one escaped character. */
  lemma ReadCharsStep(c: char, after: string, text: string, tail: string)
    requires ReadChars(after) == Ok(text, tail)
    ensures ReadChars(EscapeChar(c) + after) == Ok([c] + text, tail)
  {
    ReadCharOfEscape(c, after);
    assert (EscapeChar(c) + after)[0] == EscapeChar(c)[0];
  }

  lemma Assoc(a: string, b: string, c: string)
    ensures a + b + c == a + (b + c)
  {
  }

  lemma {:induction false} ReadCharsOfEscape(s: string, rest: string)
    requires rest != [] && rest[0] == '"'
    ensures ReadChars(EscapeAll(s) + rest) == Ok(s, rest[1..])
  {
    if s == [] {
      assert EscapeAll(s) + rest == rest;
    } else {
      ReadCharsOfEscape(s[1..], rest);
      ReadCharsStep(s[0], EscapeAll(s[1..]) + rest, s[1..], rest[1..]);
      Assoc(EscapeChar(s[0]), EscapeAll(s[1..]), rest);
      assert [s[0]] + s[1..] == s;
    }
  }

  lemma InsideQuotes(q: char, inner: string, tail: string)
    ensures ([q] + inner + [q] + tail)[0] == q
    ensures ([q] + inner + [q] + tail)[1..] == inner + ([q] + tail)
    ensures ([q] + tail)[0] == q && ([q] + tail)[1..] == tail
  {
  }

  lemma ReadQuoted(s: string, tail: string)
    ensures (Quote(s) + tail)[0] == '"'
    ensures ReadChars((Quote(s) + tail)[1..]) == Ok(s, tail)
  {
    InsideQuotes('"', EscapeAll(s), tail);
    ReadCharsOfEscape(s, ['"'] + tail);
  }

  lemma ReadLiteralOf(literal: string, value: Json, tail: string)
    requires literal != []
    ensures ReadLiteral(literal + tail, literal, value) == Ok(value, tail)
  {
    assert (literal + tail)[|literal|..] == tail;
  }

  /** Reading the compact print of any value gives that value back and leaves what followed it. */
  lemma {:induction false} ReadValueOfDump(j: Json, tail: string)
    requires Delimits(tail)
    ensures ReadValue(Dump(j, COMPACT) + tail) == Ok(j, tail)
    ensures Dump(j, COMPACT) != [] && Dump(j, COMPACT)[0] != ']'
    decreases j, 1
  {
    var text := Dump(j, COMPACT);
    match j
    case Null => ReadLiteralOf("null", j, tail); assert (text + tail)[0] == 'n';
    case Bool(b) =>
      ReadLiteralOf(text, j, tail);
      assert (text + tail)[0] == if b then 't' else 'f';
    case Int(n) => ReadIntOfText(n, tail); assert (text + tail)[0] == IntText(n)[0];
    case Str(t) => ReadQuoted(t, tail);
    case Arr(items) => ReadArrOfDump(items, tail);
    case Obj(fields) => ReadObjOfDump(fields, tail);
  }

  /** The one step of the reader that enters a non-empty list. */
  lemma EnterList(text: string, items: seq<Json>, tail: string)
    requires text != [] && text[0] != ']' && ReadItems(text) == Ok(items, tail)
    ensures ReadValue("[" + text) == Ok(Arr(items), tail)
  {
    assert ("[" + text)[1..] == text;
  }

  lemma {:induction false} ReadArrOfDump(items: seq<Json>, tail: string)
    ensures ReadValue("[" + DumpItems(items, COMPACT) + "]" + tail) == Ok(Arr(items), tail)
    decreases items, 1
  {
    var s := "[" + DumpItems(items, COMPACT) + "]" + tail;
    if items == [] {
      assert s == "[]" + tail;
      assert s[2..] == tail;
    } else {
      var text := DumpItems(items, COMPACT) + ("]" + tail);
      ReadItemsOfDump(items, tail);
      EnterList(text, items, tail);
      assert s == "[" + text;
    }
  }

  lemma {:induction false} ReadItemsOfDump(items: seq<Json>, tail: string)
    requires items != []
    ensures ReadItems(DumpItems(items, COMPACT) + ("]" + tail)) == Ok(items, tail)
    ensures DumpItems(items, COMPACT) != [] && DumpItems(items, COMPACT)[0] != ']'
    decreases items, 0
  {
    var s := DumpItems(items, COMPACT) + ("]" + tail);
    if |items| == 1 {
      ReadValueOfDump(items[0], "]" + tail);
      assert ("]" + tail)[1..] == tail;
      assert [items[0]] == items;
    } else {
      var after := DumpItems(items[1..], COMPACT) + ("]" + tail);
      assert s == Dump(items[0], COMPACT) + ("," + after);
      ReadValueOfDump(items[0], "," + after);
      assert ("," + after)[1..] == after;
      ReadItemsOfDump(items[1..], tail);
      assert [items[0]] + items[1..] == items;
    }
  }

  lemma {:induction false} ReadFieldOfDump(field: Field, tail: string)
    requires Delimits(tail)
    ensures ReadField(DumpField(field, COMPACT) + tail) == Ok(field, tail)
    ensures DumpField(field, COMPACT) != [] && DumpField(field, COMPACT)[0] == '"'
    decreases field, 0
  {
    var value := Dump(field.value, COMPACT) + tail;
    assert DumpField(field, COMPACT) + tail == Quote(field.key) + (":" + value);
    ReadQuoted(field.key, ":" + value);
    assert (":" + value)[1..] == value;
    ReadValueOfDump(field.value, tail);
  }

  lemma EnterObject(text: string, fields: seq<Field>, tail: string)
    requires text != [] && text[0] != '}' && ReadFields(text) == Ok(fields, tail)
    ensures ReadObject("{" + text) == Ok(Obj(fields), tail)
  {
    assert ("{" + text)[1..] == text;
  }

  lemma {:induction false} ReadObjOfDump(fields: seq<Field>, tail: string)
    ensures ReadValue("{" + DumpFields(fields, COMPACT) + "}" + tail) == Ok(Obj(fields), tail)
    decreases fields, 1
  {
    var s := "{" + DumpFields(fields, COMPACT) + "}" + tail;
    if fields == [] {
      assert s == "{}" + tail;
      assert s[2..] == tail;
    } else {
      var text := DumpFields(fields, COMPACT) + ("}" + tail);
      ReadFieldsOfDump(fields, tail);
      EnterObject(text, fields, tail);
      assert s == "{" + text;
    }
  }

  lemma {:induction false} ReadFieldsOfDump(fields: seq<Field>, tail: string)
    requires fields != []
    ensures ReadFields(DumpFields(fields, COMPACT) + ("}" + tail)) == Ok(fields, tail)
    ensures DumpFields(fields, COMPACT) != [] && DumpFields(fields, COMPACT)[0] == '"'
    decreases fields, 0
  {
    var s := DumpFields(fields, COMPACT) + ("}" + tail);
    if |fields| == 1 {
      ReadFieldOfDump(fields[0], "}" + tail);
      assert ("}" + tail)[1..] == tail;
      assert [fields[0]] == fields;
    } else {
      var after := DumpFields(fields[1..], COMPACT) + ("}" + tail);
      assert s == DumpField(fields[0], COMPACT) + ("," + after);
      ReadFieldOfDump(fields[0], "," + after);
      assert ("," + after)[1..] == after;
      ReadFieldsOfDump(fields[1..], tail);
      assert [fields[0]] + fields[1..] == fields;
    }
  }

  /** The compact print is injective on all values. */
  lemma DumpIsInjective(a: Json, b: Json)
    ensures Dump(a, COMPACT) == Dump(b, COMPACT) <==> a == b
  {
    if Dump(a, COMPACT) == Dump(b, COMPACT) {
      ReadValueOfDump(a, "");
      ReadValueOfDump(b, "");
      assert Dump(a, COMPACT) + "" == Dump(a, COMPACT) && Dump(b, COMPACT) + "" == Dump(b, COMPACT);
    }
  }
}
