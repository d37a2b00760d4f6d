/** Search-index allowlist: a requested comma list of patterns is accepted when the text of each
    pattern matches some allowlist entry. The question is whether that keeps every index the request
    can reach inside the allowlist. */
module IndexAllowlist {
  import opened Text

  /** A compiled glob: `*`, or one character in (or outside) a set. */
  datatype Token = Star | Chars(negated: bool, chars: set<char>)

  predicate Accepts(t: Token, c: char)
    requires t.Chars?
  {
    (c in t.chars) != t.negated
  }

  predicate Matches(name: string, glob: seq<Token>)
    decreases |glob| + |name|
  {
    if glob == [] then name == []
    else if glob[0].Star? then
      Matches(name, glob[1..]) || (name != [] && Matches(name[1..], glob))
    else
      name != [] && Accepts(glob[0], name[0]) && Matches(name[1..], glob[1..])
  }

  function TokenOf(c: char): Token {
    if c == '*' then Star else if c == '?' then Chars(true, {}) else Chars(false, {c})
  }

  /** A glob without character classes. */
  function Tokens(text: string): (r: seq<Token>)
    ensures |r| == |text|
  {
    if text == [] then [] else [TokenOf(text[0])] + Tokens(text[1..])
  }

  /** How the search engine reads a requested pattern: only `*` is special. */
  function Requested(text: string): (r: seq<Token>)
    ensures |r| == |text|
  {
    if text == [] then []
    else [if text[0] == '*' then Star else Chars(false, {text[0]})] + Requested(text[1..])
  }

  /** The library's glob compiler; only what it does to text without `[` is known. */
  type Globber = string -> seq<Token>

  ghost predicate ReadsGlobs(compile: Globber) {
    forall text: string :: '[' !in text ==> compile(text) == Tokens(text)
  }

  /** ## What matching means */

  function Concat(pieces: seq<string>): string {
    if pieces == [] then "" else pieces[0] + Concat(pieces[1..])
  }

  /** One piece for each token: `*` takes any, a class one accepted character. */
  predicate PiecesFit(pieces: seq<string>, glob: seq<Token>) {
    && |pieces| == |glob|
    && forall i :: 0 <= i < |glob| && glob[i].Chars? ==> |pieces[i]| == 1 && Accepts(glob[i], pieces[i][0])
  }

  lemma {:induction false} MatchGivesPieces(name: string, glob: seq<Token>) returns (pieces: seq<string>)
    requires Matches(name, glob)
    ensures PiecesFit(pieces, glob) && Concat(pieces) == name
    decreases |glob| + |name|
  {
    if glob == [] { return []; }
    var first, rest;
    if glob[0].Chars? {
      rest := MatchGivesPieces(name[1..], glob[1..]);
      first := [name[0]];
    } else if Matches(name, glob[1..]) {
      rest := MatchGivesPieces(name, glob[1..]);
      first := "";
    } else {
      var all := MatchGivesPieces(name[1..], glob);
      first, rest := [name[0]] + all[0], all[1..];
    }
    pieces := [first] + rest;
    assert pieces[1..] == rest;
    assert forall i :: 1 <= i < |glob| ==> glob[i] == glob[1..][i - 1];
  }

  lemma {:induction false} PiecesGiveMatch(pieces: seq<string>, glob: seq<Token>)
    requires PiecesFit(pieces, glob)
    ensures Matches(Concat(pieces), glob)
    decreases |glob| + |Concat(pieces)|
  {
    if glob != [] {
      var first, rest, name := pieces[0], pieces[1..], Concat(pieces);
      assert name == first + Concat(rest);
      if glob[0].Chars? || first == "" {
        assert forall i :: 1 <= i < |glob| ==> glob[i] == glob[1..][i - 1];
        PiecesGiveMatch(rest, glob[1..]);
        assert name[|first|..] == Concat(rest);
      } else {
        var shorter := [first[1..]] + rest;
        assert shorter[1..] == rest;
        assert Concat(shorter) == name[1..];
        PiecesGiveMatch(shorter, glob);
      }
    }
  }

  /** A name matches exactly if it can be divided among the tokens. */
  lemma MatchesIffDivided(name: string, glob: seq<Token>)
    ensures Matches(name, glob) <==> exists pieces :: PiecesFit(pieces, glob) && Concat(pieces) == name
  {
    if Matches(name, glob) { var pieces := MatchGivesPieces(name, glob); }
    if pieces :| PiecesFit(pieces, glob) && Concat(pieces) == name { PiecesGiveMatch(pieces, glob); }
  }

  /** ## Language containment */

  predicate Transparent(glob: seq<Token>) {
    forall i :: 0 <= i < |glob| && glob[i].Chars? ==> !Accepts(glob[i], '*')
  }

  /** If the text `p` matches the entry, every name that `p` reaches matches it too. */
  lemma {:induction false} Containment(p: string, glob: seq<Token>, name: string)
    requires Matches(p, glob) && Matches(name, Requested(p)) && Transparent(glob)
    ensures Matches(name, glob)
    decreases |p| + |glob| + |name|
  {
    if glob == [] {
    } else if glob[0].Star? {
      if Matches(p, glob[1..]) {
        Containment(p, glob[1..], name);
      } else {
        assert Requested(p)[1..] == Requested(p[1..]);
        if p[0] == '*' && !Matches(name, Requested(p[1..])) {
          Containment(p, glob, name[1..]);
        } else if p[0] == '*' {
          Containment(p[1..], glob, name);
        } else {
          Containment(p[1..], glob, name[1..]);
        }
      }
    } else {
      assert p[0] != '*';
      assert Requested(p)[1..] == Requested(p[1..]);
      Containment(p[1..], glob[1..], name[1..]);
    }
  }

  function CharCount(glob: seq<Token>): nat {
    if glob == [] then 0 else (if glob[0].Chars? then 1 else 0) + CharCount(glob[1..])
  }

  lemma {:induction false} ShortNamesDoNotMatch(name: string, glob: seq<Token>)
    requires Matches(name, glob)
    ensures |name| >= CharCount(glob)
    decreases |glob| + |name|
  {
    if glob != [] {
      if glob[0].Chars? {
        ShortNamesDoNotMatch(name[1..], glob[1..]);
      } else if Matches(name, glob[1..]) {
        ShortNamesDoNotMatch(name, glob[1..]);
      } else {
        ShortNamesDoNotMatch(name[1..], glob);
      }
    }
  }

  predicate HasAccepted(t: Token, c: char) { t.Chars? ==> Accepts(t, c) }

  ghost predicate CanMatch(t: Token) { exists c: char :: HasAccepted(t, c) }

  ghost predicate Satisfiable(glob: seq<Token>) {
    forall i :: 0 <= i < |glob| ==> CanMatch(glob[i])
  }

  /** The shortest text an entry matches. */
  lemma {:induction false} ShortestText(glob: seq<Token>) returns (text: string)
    requires Satisfiable(glob)
    ensures Matches(text, glob) && |text| == CharCount(glob)
  {
    if glob == [] { return ""; }
    assert forall i :: 0 <= i < |glob[1..]| ==> glob[1..][i] == glob[i + 1];
    var rest := ShortestText(glob[1..]);
    if glob[0].Star? { return rest; }
    var c :| HasAccepted(glob[0], c);
    text := [c] + rest;
    assert text[1..] == rest;
  }

  lemma {:induction false} ReachesItself(p: string)
    ensures Matches(p, Requested(p))
  {
    if p != [] {
      ReachesItself(p[1..]);
      assert Requested(p)[1..] == Requested(p[1..]);
      if p[0] == '*' {
        assert Matches(p[1..], Requested(p));
      }
    }
  }

  /** An entry with a class that accepts `*` itself lets a request reach outside it: the request puts
      a `*` where the class is, the name has nothing there and is too short for the entry. */
  lemma {:induction false} OpaqueWitness(glob: seq<Token>, at: nat) returns (p: string, name: string)
    requires Satisfiable(glob) && at < |glob| && glob[at].Chars? && Accepts(glob[at], '*')
    ensures Matches(p, glob) && Matches(name, Requested(p)) && |name| < CharCount(glob)
  {
    assert forall i :: 0 <= i < |glob[1..]| ==> glob[1..][i] == glob[i + 1];
    if at == 0 {
      var rest := ShortestText(glob[1..]);
      p, name := ['*'] + rest, rest;
      ReachesItself(rest);
      assert p[1..] == rest && Requested(p)[1..] == Requested(rest);
    } else {
      var q, m := OpaqueWitness(glob[1..], at - 1);
      if glob[0].Star? { return q, m; }
      var c :| HasAccepted(glob[0], c);
      p, name := [c] + q, [c] + m;
      assert p[1..] == q && name[1..] == m && Requested(p)[1..] == Requested(q);
      assert c == '*' ==> Matches(name[1..], Requested(p));
    }
  }

  ghost predicate Reaches(p: string, name: string) { Matches(name, Requested(p)) }

  ghost predicate Contains(glob: seq<Token>) {
    forall p: string, name: string :: Matches(p, glob) && Reaches(p, name) ==> Matches(name, glob)
  }

  lemma {:induction false} MatchedIsSatisfiable(text: string, glob: seq<Token>)
    requires Matches(text, glob)
    ensures Satisfiable(glob)
    decreases |glob| + |text|
  {
    if glob != [] {
      if glob[0].Chars? {
        assert HasAccepted(glob[0], text[0]);
        MatchedIsSatisfiable(text[1..], glob[1..]);
      } else {
        assert HasAccepted(glob[0], '*');
        if Matches(text, glob[1..]) {
          MatchedIsSatisfiable(text, glob[1..]);
        } else {
          MatchedIsSatisfiable(text[1..], glob);
        }
      }
      assert forall i :: 1 <= i < |glob| ==> glob[i] == glob[1..][i - 1];
    }
  }

  /** Exactly which globs contain what they let through: those in which no class accepts `*`, and those
      that match nothing at all. */
  lemma ContainsIffTransparent(glob: seq<Token>)
    ensures Contains(glob) <==> Transparent(glob) || !Satisfiable(glob)
  {
    forall p: string, name: string | Matches(p, glob) && Reaches(p, name)
      ensures Satisfiable(glob) && (Transparent(glob) ==> Matches(name, glob))
    {
      MatchedIsSatisfiable(p, glob);
      if Transparent(glob) { Containment(p, glob, name); }
    }
    if !Transparent(glob) && Satisfiable(glob) {
      var at :| 0 <= at < |glob| && glob[at].Chars? && Accepts(glob[at], '*');
      var p, name := OpaqueWitness(glob, at);
      assert Reaches(p, name);
      if Matches(name, glob) { ShortNamesDoNotMatch(name, glob); }
    }
  }

  lemma {:induction false} TokensAt(text: string, i: nat)
    requires i < |text|
    ensures Tokens(text)[i] == TokenOf(text[i])
  {
    if i > 0 { TokensAt(text[1..], i - 1); }
  }

  /** For an entry without classes: it contains its requests if and only if it has no `?`. */
  lemma PlainEntryContainsIff(entry: string)
    ensures Satisfiable(Tokens(entry))
    ensures Contains(Tokens(entry)) <==> '?' !in entry
  {
    var glob := Tokens(entry);
    forall i | 0 <= i < |glob| ensures glob[i] == TokenOf(entry[i]) && CanMatch(glob[i]) {
      TokensAt(entry, i);
      assert HasAccepted(glob[i], entry[i]);
    }
    ContainsIffTransparent(glob);
    if '?' in entry {
      var i :| 0 <= i < |entry| && entry[i] == '?';
      assert glob[i].Chars? && Accepts(glob[i], '*');
    }
  }

  lemma {:induction false} MatchesItself(entry: string)
    ensures Matches(entry, Tokens(entry))
  {
    if entry != [] {
      MatchesItself(entry[1..]);
      assert Tokens(entry)[1..] == Tokens(entry[1..]);
      if entry[0] == '*' { assert Matches(entry[1..], Tokens(entry)); }
    }
  }

  /** ## What an entry lets through */

  /** The entry with every `?` replaced by `*`. */
  function Starred(entry: string): (r: string)
    ensures |r| == |entry|
    ensures forall i :: 0 <= i < |r| ==> r[i] == if entry[i] == '?' then '*' else entry[i]
  {
    if entry == [] then [] else [if entry[0] == '?' then '*' else entry[0]] + Starred(entry[1..])
  }

  lemma {:induction false} StarredMatchesEntry(entry: string)
    ensures Matches(Starred(entry), Tokens(entry))
  {
    if entry != [] {
      var text := Starred(entry);
      StarredMatchesEntry(entry[1..]);
      assert Tokens(entry)[1..] == Tokens(entry[1..]) && text[1..] == Starred(entry[1..]);
      if entry[0] == '*' { assert Matches(text[1..], Tokens(entry)); }
    }
  }

  lemma {:induction false} StarringLoosens(p: string, entry: string)
    requires Matches(p, Tokens(entry))
    ensures Matches(p, Tokens(Starred(entry)))
    decreases |p| + |entry|
  {
    if entry != [] {
      var glob, loose := Tokens(entry), Tokens(Starred(entry));
      assert glob[1..] == Tokens(entry[1..]) && loose[1..] == Tokens(Starred(entry)[1..]);
      assert Starred(entry)[1..] == Starred(entry[1..]);
      if entry[0] == '*' {
        if Matches(p, glob[1..]) { StarringLoosens(p, entry[1..]); } else { StarringLoosens(p[1..], entry); }
      } else {
        StarringLoosens(p[1..], entry[1..]);
        assert entry[0] == '?' ==> Matches(p[1..], loose);
      }
    }
  }

  lemma {:induction false} RequestedIsTokens(text: string)
    requires '?' !in text
    ensures Requested(text) == Tokens(text)
  {
    if text != [] { RequestedIsTokens(text[1..]); }
  }

  /** The names that the requests matching an entry can reach: exactly those that match the entry with
      every `?` replaced by `*`. */
  lemma ReachOfEntry(entry: string, name: string)
    ensures (exists p :: Matches(p, Tokens(entry)) && Reaches(p, name)) <==> Matches(name, Tokens(Starred(entry)))
  {
    var starred := Starred(entry);
    assert '?' !in starred;
    PlainEntryContainsIff(starred);
    ContainsIffTransparent(Tokens(starred));
    forall p | Matches(p, Tokens(entry)) && Reaches(p, name) ensures Matches(name, Tokens(starred)) {
      StarringLoosens(p, entry);
    }
    if Matches(name, Tokens(starred)) {
      StarredMatchesEntry(entry);
      RequestedIsTokens(starred);
      assert Reaches(starred, name);
    }
  }

  /** A character that stands for itself in an entry occurs in every text the entry matches. */
  lemma {:induction false} LiteralOccurs(text: string, entry: string, c: char)
    requires Matches(text, Tokens(entry)) && c in entry && c != '*' && c != '?'
    ensures c in text
    decreases |text| + |entry|
  {
    var glob := Tokens(entry);
    assert glob[1..] == Tokens(entry[1..]);
    assert entry == [entry[0]] + entry[1..];
    if entry[0] == '*' {
      if Matches(text, glob[1..]) {
        LiteralOccurs(text, entry[1..], c);
      } else {
        LiteralOccurs(text[1..], entry, c);
      }
    } else if entry[0] != c {
      LiteralOccurs(text[1..], entry[1..], c);
    }
  }

  /** ## Parsing */

  function StripAll(parts: seq<string>): (r: seq<string>)
    ensures |r| == |parts| && forall i :: 0 <= i < |r| ==> r[i] == Strip(parts[i])
  {
    seq(|parts|, i requires 0 <= i < |parts| => Strip(parts[i]))
  }

  function NonEmpty(parts: seq<string>): (r: seq<string>)
    ensures forall p :: p in r <==> p in parts && p != ""
  {
    if parts == [] then []
    else
      assert parts == [parts[0]] + parts[1..];
      (if parts[0] != "" then [parts[0]] else []) + NonEmpty(parts[1..])
  }

  /** ## The two entry points */

  datatype Allowlist = EmptyAllowlist | Allowlist(entries: seq<string>)

  function ParseAllowlist(value: string): (r: Allowlist)
  {
    var entries := NonEmpty(StripAll(Split(value, ',')));
    if entries == [] then EmptyAllowlist else Allowlist(entries)
  }

  lemma AllowlistEntriesAreClean(value: string)
    ensures var r := ParseAllowlist(value);
      r.Allowlist? ==>
        r.entries != [] && Free(r.entries, ',') && forall e :: e in r.entries ==> e != "" && IsStripped(e)
  {
    var parts := Split(value, ',');
    SplitIsFree(value, ',');
    var stripped := StripAll(parts);
    forall e | e in NonEmpty(stripped) ensures ',' !in e && e != "" && IsStripped(e) {
      var i :| 0 <= i < |stripped| && stripped[i] == e;
      assert e == Strip(parts[i]);
    }
    assert forall i :: 0 <= i < |NonEmpty(stripped)| ==> NonEmpty(stripped)[i] in NonEmpty(stripped);
  }

  datatype Verdict = Accepted | EmptyPattern | PathSeparator | NotAllowlisted

  predicate AllowedBy(pattern: string, allowlist: seq<string>, compile: Globber) {
    exists i :: 0 <= i < |allowlist| && Matches(pattern, compile(allowlist[i]))
  }

  predicate HasSeparator(pattern: string) { '/' in pattern || '\\' in pattern }

  function ValidateIndexPattern(indexPattern: string, allowlist: seq<string>, compile: Globber): Verdict {
    var patterns := StripAll(Split(indexPattern, ','));
    if "" in patterns then EmptyPattern
    else if exists p :: p in patterns && HasSeparator(p) then PathSeparator
    else if forall p :: p in patterns ==> AllowedBy(p, allowlist, compile) then Accepted
    else NotAllowlisted
  }

  predicate Blank(part: string) { forall c :: c in part ==> IsSpace(c) }

  lemma BlankIff(part: string)
    ensures Strip(part) == "" <==> Blank(part)
  {
    if Strip(part) != "" { assert Strip(part)[0] in part && !IsSpace(Strip(part)[0]); }
  }

  /** The verdict for every request: accepted exactly if each part between commas, spaces stripped, is
      not blank, has no path separator and matches some entry; otherwise the first of these that fails
      for some part is reported. */
  lemma VerdictIff(request: string, allowlist: seq<string>, compile: Globber)
    ensures var parts, v := Split(request, ','), ValidateIndexPattern(request, allowlist, compile);
      && (v.EmptyPattern? <==> exists p :: p in parts && Blank(p))
      && (v.PathSeparator? <==>
            (forall p :: p in parts ==> !Blank(p)) && exists p :: p in parts && HasSeparator(Strip(p)))
      && (v.Accepted? <==> forall p :: p in parts ==>
            !Blank(p) && !HasSeparator(Strip(p))
            && exists i :: 0 <= i < |allowlist| && Matches(Strip(p), compile(allowlist[i])))
  {
    var parts := Split(request, ',');
    var stripped := StripAll(parts);
    forall p ensures Strip(p) == "" <==> Blank(p) { BlankIff(p); }
    forall p | p in parts ensures Strip(p) in stripped {
      var i :| 0 <= i < |parts| && parts[i] == p;
      assert stripped[i] == Strip(p);
    }
    forall q | q in stripped ensures exists p :: p in parts && Strip(p) == q {
      var i :| 0 <= i < |stripped| && stripped[i] == q;
      assert parts[i] in parts;
    }
  }

  /** The parsed entries are the stripped non-blank parts, in order, and none at all is an error. */
  lemma EntriesAreTheParts(value: string)
    ensures var parts, r := Split(value, ','), ParseAllowlist(value);
      && (r.EmptyAllowlist? <==> forall p :: p in parts ==> Blank(p))
      && (r.Allowlist? ==> r.entries == StrippedParts(parts))
  {
    var parts := Split(value, ',');
    NonEmptyOfStripped(parts);
    StrippedPartsEmptyIff(parts);
  }

  /** The non-blank parts, stripped. */
  function StrippedParts(parts: seq<string>): seq<string> {
    if parts == [] then []
    else (if Blank(parts[0]) then [] else [Strip(parts[0])]) + StrippedParts(parts[1..])
  }

  lemma {:induction false} StrippedPartsEmptyIff(parts: seq<string>)
    ensures StrippedParts(parts) == [] <==> forall p :: p in parts ==> Blank(p)
  {
    if parts != [] {
      StrippedPartsEmptyIff(parts[1..]);
      assert parts[0] in parts;
      assert forall p :: p in parts <==> p == parts[0] || p in parts[1..];
    }
  }

  lemma {:induction false} NonEmptyOfStripped(parts: seq<string>)
    ensures NonEmpty(StripAll(parts)) == StrippedParts(parts)
  {
    if parts != [] {
      NonEmptyOfStripped(parts[1..]);
      BlankIff(parts[0]);
      assert StripAll(parts)[1..] == StripAll(parts[1..]);
    }
  }

  /** Some pattern of the request reaches this index. */
  ghost predicate RequestReaches(indexPattern: string, name: string) {
    exists p :: p in StripAll(Split(indexPattern, ',')) && Reaches(p, name)
  }

  /** Soundness: when no class in an allowlist entry accepts `*`, an accepted request reaches only
      indices that some allowlist entry matches. */
  lemma AcceptedRequestsStayInside(indexPattern: string, allowlist: seq<string>, compile: Globber, name: string)
    requires forall i :: 0 <= i < |allowlist| ==> Transparent(compile(allowlist[i]))
    requires ValidateIndexPattern(indexPattern, allowlist, compile).Accepted? && RequestReaches(indexPattern, name)
    ensures AllowedBy(name, allowlist, compile)
  {
    var p :| p in StripAll(Split(indexPattern, ',')) && Reaches(p, name);
    var i :| 0 <= i < |allowlist| && Matches(p, compile(allowlist[i]));
    Containment(p, compile(allowlist[i]), name);
  }

  predicate Plain(allowlist: seq<string>) {
    forall i :: 0 <= i < |allowlist| ==> '[' !in allowlist[i] && '?' !in allowlist[i]
  }

  /** ... in particular with an allowlist of literals and `*`. */
  lemma PlainAllowlistIsSound(indexPattern: string, allowlist: seq<string>, compile: Globber, name: string)
    requires ReadsGlobs(compile) && Plain(allowlist)
    requires ValidateIndexPattern(indexPattern, allowlist, compile).Accepted? && RequestReaches(indexPattern, name)
    ensures AllowedBy(name, allowlist, compile)
  {
    forall i | 0 <= i < |allowlist| ensures Transparent(compile(allowlist[i])) {
      PlainEntryContainsIff(allowlist[i]);
      ContainsIffTransparent(Tokens(allowlist[i]));
    }
    AcceptedRequestsStayInside(indexPattern, allowlist, compile, name);
  }

  /** What the validator is for: no accepted request reaches outside the allowlist. */
  ghost predicate IsSound(allowlist: seq<string>, compile: Globber) {
    forall r: string, name: string ::
      ValidateIndexPattern(r, allowlist, compile).Accepted? && RequestReaches(r, name) ==>
        AllowedBy(name, allowlist, compile)
  }

  /** Each entry that can be requested, with its `?` read as `*`, stays inside the allowlist. */
  ghost predicate StarredStaysInside(allowlist: seq<string>, compile: Globber) {
    forall e: string, name: string ::
      e in allowlist && !HasSeparator(e) && Matches(name, Tokens(Starred(e))) ==> AllowedBy(name, allowlist, compile)
  }

  /** An allowlist as it is parsed, without classes. */
  predicate ClassFree(allowlist: seq<string>) {
    forall e :: e in allowlist ==> Listable(e) && '[' !in e
  }

  lemma StarredIsListable(e: string)
    requires Listable(e)
    ensures Listable(Starred(e)) && (HasSeparator(Starred(e)) <==> HasSeparator(e))
  {
    forall c | c == '/' || c == '\\' || c == ',' ensures c in Starred(e) <==> c in e {
      if c in e {
        var i :| 0 <= i < |e| && e[i] == c;
        assert Starred(e)[i] == c;
      }
    }
  }

  /** An entry with its `?` starred is an accepted request of one pattern. */
  lemma OneEntryRequest(e: string, allowlist: seq<string>, compile: Globber)
    requires ReadsGlobs(compile) && ClassFree(allowlist) && e in allowlist && !HasSeparator(e)
    ensures StripAll(Split(Starred(e), ',')) == [Starred(e)]
    ensures ValidateIndexPattern(Starred(e), allowlist, compile).Accepted?
  {
    var text := Starred(e);
    StarredIsListable(e);
    ListIsTakenApart([text]);
    assert Join([text], ',') == text;
    StarredMatchesEntry(e);
    var i :| 0 <= i < |allowlist| && allowlist[i] == e;
    assert Matches(text, compile(allowlist[i]));
    assert AllowedBy(text, allowlist, compile);
  }

  lemma SoundStaysInside(allowlist: seq<string>, compile: Globber)
    requires ReadsGlobs(compile) && ClassFree(allowlist) && IsSound(allowlist, compile)
    ensures StarredStaysInside(allowlist, compile)
  {
    forall e: string, name: string | e in allowlist && !HasSeparator(e) && Matches(name, Tokens(Starred(e)))
      ensures AllowedBy(name, allowlist, compile)
    {
      var text := Starred(e);
      OneEntryRequest(e, allowlist, compile);
      assert '?' !in text;
      RequestedIsTokens(text);
      assert Reaches(text, name);
      assert text in StripAll(Split(text, ','));
      assert RequestReaches(text, name);
    }
  }

  lemma InsideIsSound(allowlist: seq<string>, compile: Globber, r: string, name: string)
    requires ReadsGlobs(compile) && ClassFree(allowlist) && StarredStaysInside(allowlist, compile)
    requires ValidateIndexPattern(r, allowlist, compile).Accepted? && RequestReaches(r, name)
    ensures AllowedBy(name, allowlist, compile)
  {
    var p :| p in StripAll(Split(r, ',')) && Reaches(p, name);
    var i :| 0 <= i < |allowlist| && Matches(p, compile(allowlist[i]));
    var e := allowlist[i];
    assert e in allowlist;
    assert !HasSeparator(p);
    if HasSeparator(e) { LiteralOccurs(p, e, if '/' in e then '/' else '\\'); }
    ReachOfEntry(e, name);
  }

  /** Exactly when the validator is sound for an allowlist without classes. */
  lemma SoundIff(allowlist: seq<string>, compile: Globber)
    requires ReadsGlobs(compile) && ClassFree(allowlist)
    ensures IsSound(allowlist, compile) <==> StarredStaysInside(allowlist, compile)
  {
    if IsSound(allowlist, compile) { SoundStaysInside(allowlist, compile); }
    if StarredStaysInside(allowlist, compile) {
      forall r: string, name: string
        | ValidateIndexPattern(r, allowlist, compile).Accepted? && RequestReaches(r, name)
        ensures AllowedBy(name, allowlist, compile)
      {
        InsideIsSound(allowlist, compile, r, name);
      }
    }
  }

  lemma AnyEntryAccepted(entry: string, allowlist: seq<string>, compile: Globber)
    requires ReadsGlobs(compile) && entry in allowlist && '[' !in entry
    ensures AllowedBy(entry, allowlist, compile)
  {
    var i :| 0 <= i < |allowlist| && allowlist[i] == entry;
    MatchesItself(entry);
    assert Matches(entry, compile(allowlist[i]));
  }

  predicate Listable(e: string) { e != "" && IsStripped(e) && ',' !in e }

  /** A comma list of stripped, comma-free texts is taken apart into those texts. */
  lemma ListIsTakenApart(chosen: seq<string>)
    requires chosen != [] && forall i :: 0 <= i < |chosen| ==> Listable(chosen[i])
    ensures StripAll(Split(Join(chosen, ','), ',')) == chosen
  {
    SplitOfJoin(chosen, ',');
  }

  /** Completeness: any comma list of entries of a parsed allowlist is accepted, unless one has a
      path separator. */
  lemma EntriesAreAccepted(value: string, chosen: seq<string>, compile: Globber)
    requires ReadsGlobs(compile) && ParseAllowlist(value).Allowlist? && chosen != []
    requires forall e :: e in chosen ==> e in ParseAllowlist(value).entries && '[' !in e && !HasSeparator(e)
    ensures ValidateIndexPattern(Join(chosen, ','), ParseAllowlist(value).entries, compile).Accepted?
  {
    var entries := ParseAllowlist(value).entries;
    AllowlistEntriesAreClean(value);
    forall e | e in entries ensures Listable(e) {
      var i :| 0 <= i < |entries| && entries[i] == e;
    }
    forall i | 0 <= i < |chosen| ensures Listable(chosen[i]) { assert chosen[i] in chosen; }
    ListIsTakenApart(chosen);
    forall e | e in chosen ensures AllowedBy(e, entries, compile) { AnyEntryAccepted(e, entries, compile); }
  }

  /** A `?` can break soundness: the request `a*` is accepted by the entry `a?` and reaches
      the index `a`. */
  lemma QuestionMarkLeaks(compile: Globber)
    requires ReadsGlobs(compile)
    ensures ValidateIndexPattern("a*", ["a?"], compile).Accepted?
    ensures RequestReaches("a*", "a") && !AllowedBy("a", ["a?"], compile)
  {
    SplitOfJoin(["a*"], ',');
    var patterns := StripAll(Split("a*", ','));
    assert patterns == ["a*"];
    var glob := Tokens("a?");
    assert "a?"[1..] == "?" && "?"[1..] == "" && "a*"[1..] == "*" && "*"[1..] == "" && "a"[1..] == "";
    assert Tokens("?") == [Chars(true, {})];
    assert glob == [Chars(false, {'a'}), Chars(true, {})];
    assert glob[1..] == [Chars(true, {})] && glob[1..][1..] == [];
    assert Matches("*", glob[1..]);
    assert Matches("a*", compile(["a?"][0]));
    assert Requested("*") == [Star];
    assert Requested("a*") == [Chars(false, {'a'}), Star];
    assert Requested("a*")[1..] == [Star] && [Star][1..] == [];
    assert Matches("", [Star]);
    assert Reaches("a*", "a");
    assert "a*" in patterns;
    assert !Matches("", glob[1..]);
    assert !Matches("a", glob);
  }
}
