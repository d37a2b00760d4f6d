/** Public identifiers: a readable prefix, a readable user part and a short hash, cut to 120
    characters. */
module PublicIds {
  import opened Options

  const PUBLIC_ID_MAX_LENGTH := 120
  const PUBLIC_ID_HASH_LENGTH := 8

  predicate IsSafe(c: char) { 'a' <= c <= 'z' || '0' <= c <= '9' || c == '-' }

  predicate IsAlnum(c: char) { 'a' <= c <= 'z' || 'A' <= c <= 'Z' || '0' <= c <= '9' }

  predicate IsIdentifierChar(c: char) { IsAlnum(c) || c == '_' || c == '.' || c == ':' || c == '-' }

  predicate ValidIdentifier(s: string) {
    1 <= |s| <= 120 && IsAlnum(s[0]) && forall i :: 1 <= i < |s| ==> IsIdentifierChar(s[i])
  }

  /** `lower` is the library's; only its effect on text already in lower case is known.  `digest` is
      an unknown function with hexadecimal text of 64 characters. */
  type Lower = string -> string
  type Digest = string -> string

  predicate AllSafe(s: string) { forall i :: 0 <= i < |s| ==> IsSafe(s[i]) }

  ghost predicate KeepsLower(lower: Lower) { forall s: string :: AllSafe(s) ==> lower(s) == s }

  predicate IsHex(s: string) { forall i :: 0 <= i < |s| ==> '0' <= s[i] <= '9' || 'a' <= s[i] <= 'f' }

  ghost predicate IsHexDigest(digest: Digest) { forall s: string :: |digest(s)| == 64 && IsHex(digest(s)) }

  /** ## Normalizing */

  /** Each maximal run of characters of `run` becomes one dash. */
  function SubRuns(s: string, run: char -> bool): string {
    if s == [] then []
    else if !run(s[0]) then [s[0]] + SubRuns(s[1..], run)
    else if |s| > 1 && run(s[1]) then SubRuns(s[1..], run)
    else ['-'] + SubRuns(s[1..], run)
  }

  function StripDashes(s: string): (r: string)
    decreases |s|
  {
    if s == [] then []
    else if s[0] == '-' then StripDashes(s[1..])
    else if s[|s| - 1] == '-' then StripDashes(s[..|s| - 1])
    else s
  }

  function OrId(s: string): string { if s == "" then "id" else s }

  const DISALLOWED: char -> bool := (c: char) => !IsSafe(c)
  const DASH: char -> bool := (c: char) => c == '-'

  function Normalize(value: string, lower: Lower): string {
    OrId(StripDashes(SubRuns(SubRuns(lower(value), DISALLOWED), DASH)))
  }

  predicate NoDoubleDash(s: string) { forall i :: 0 <= i < |s| - 1 ==> !(s[i] == '-' && s[i + 1] == '-') }

  /** A clean part: what an identifier may be made of. */
  predicate Clean(s: string) {
    AllSafe(s) && NoDoubleDash(s) && s != [] && s[0] != '-' && s[|s| - 1] != '-'
  }

  lemma {:induction false} DisallowedLeavesSafe(s: string)
    ensures AllSafe(SubRuns(s, DISALLOWED))
    ensures AllSafe(s) ==> SubRuns(s, DISALLOWED) == s
  {
    if s != [] {
      DisallowedLeavesSafe(s[1..]);
      assert s == [s[0]] + s[1..];
    }
  }

  lemma {:induction false} DashRunsCollapse(s: string)
    requires AllSafe(s)
    ensures AllSafe(SubRuns(s, DASH)) && NoDoubleDash(SubRuns(s, DASH))
    ensures s != [] ==> SubRuns(s, DASH) != [] && SubRuns(s, DASH)[0] == s[0]
    ensures NoDoubleDash(s) ==> SubRuns(s, DASH) == s
  {
    if s != [] {
      DashRunsCollapse(s[1..]);
      assert s == [s[0]] + s[1..];
    }
  }

  lemma {:induction false} StripDashesTrims(s: string)
    requires AllSafe(s) && NoDoubleDash(s)
    ensures var r := StripDashes(s); r != [] ==> Clean(r)
    ensures Clean(s) ==> StripDashes(s) == s
    decreases |s|
  {
    if s == [] {
    } else if s[0] == '-' {
      StripDashesTrims(s[1..]);
    } else if s[|s| - 1] == '-' {
      StripDashesTrims(s[..|s| - 1]);
    }
  }

  lemma NormalizedIsClean(value: string, lower: Lower)
    ensures Clean(Normalize(value, lower))
  {
    var safe := SubRuns(lower(value), DISALLOWED);
    DisallowedLeavesSafe(lower(value));
    DashRunsCollapse(safe);
    StripDashesTrims(SubRuns(safe, DASH));
  }

  /** Exactly the clean texts are left alone, so normalizing twice is normalizing once. */
  lemma NormalizeFixesExactlyClean(value: string, lower: Lower)
    requires KeepsLower(lower)
    ensures Normalize(value, lower) == value <==> Clean(value)
    ensures Normalize(Normalize(value, lower), lower) == Normalize(value, lower)
  {
    NormalizedIsClean(value, lower);
    CleanIsFixed(Normalize(value, lower), lower);
    if Clean(value) { CleanIsFixed(value, lower); }
  }

  lemma CleanIsFixed(value: string, lower: Lower)
    requires KeepsLower(lower) && Clean(value)
    ensures Normalize(value, lower) == value
  {
    DisallowedLeavesSafe(value);
    DashRunsCollapse(value);
    StripDashesTrims(value);
  }

  /** ## What normalizing keeps */

  /** The characters that make up words. */
  predicate IsWordChar(c: char) { 'a' <= c <= 'z' || '0' <= c <= '9' }

  /** The word characters in order, each with whether others stand between it and the one before. */
  function Marked(s: string, gap: bool): seq<(char, bool)> {
    if s == [] then []
    else if IsWordChar(s[0]) then [(s[0], gap)] + Marked(s[1..], false)
    else Marked(s[1..], true)
  }

  function Marks(s: string): seq<(char, bool)> { Marked(s, true) }

  lemma {:induction false} SubRunsKeepsMarks(s: string, run: char -> bool, gap: bool)
    requires forall c :: run(c) ==> !IsWordChar(c)
    ensures Marked(SubRuns(s, run), gap) == Marked(s, gap)
  {
    if s != [] {
      var rest := SubRuns(s[1..], run);
      if !run(s[0]) {
        assert ([s[0]] + rest)[1..] == rest;
        SubRunsKeepsMarks(s[1..], run, if IsWordChar(s[0]) then false else true);
      } else if |s| > 1 && run(s[1]) {
        SubRunsKeepsMarks(s[1..], run, gap);
        assert Marked(s[1..], gap) == Marked(s[1..], true);
      } else {
        assert (['-'] + rest)[1..] == rest;
        SubRunsKeepsMarks(s[1..], run, true);
      }
    }
  }

  lemma {:induction false} LastDashHasNoMark(s: string, gap: bool)
    ensures Marked(s + ['-'], gap) == Marked(s, gap)
  {
    if s == [] {
      assert s + ['-'] == ['-'] && ['-'][1..] == [];
    } else {
      assert (s + ['-'])[1..] == s[1..] + ['-'];
      LastDashHasNoMark(s[1..], !IsWordChar(s[0]));
    }
  }

  lemma {:induction false} StripKeepsMarks(s: string)
    ensures Marks(StripDashes(s)) == Marks(s)
    decreases |s|
  {
    if s == [] {
    } else if s[0] == '-' {
      StripKeepsMarks(s[1..]);
    } else if s[|s| - 1] == '-' {
      StripKeepsMarks(s[..|s| - 1]);
      assert s == s[..|s| - 1] + ['-'];
      LastDashHasNoMark(s[..|s| - 1], true);
    }
  }

  /** Normalizing keeps the letters and digits of the lower-case text in order, with a break between two
      of them exactly where others stood between; a text without any becomes "id". */
  lemma NormalizeKeepsWords(value: string, lower: Lower)
    ensures Marks(lower(value)) != [] ==> Marks(Normalize(value, lower)) == Marks(lower(value))
    ensures Marks(lower(value)) == [] ==> Normalize(value, lower) == "id"
  {
    var low := lower(value);
    var dashed := SubRuns(low, DISALLOWED);
    var single := SubRuns(dashed, DASH);
    SubRunsKeepsMarks(low, DISALLOWED, true);
    SubRunsKeepsMarks(dashed, DASH, true);
    StripKeepsMarks(single);
    DisallowedLeavesSafe(low);
    DashRunsCollapse(dashed);
    StripDashesTrims(single);
    if StripDashes(single) != [] { assert IsWordChar(StripDashes(single)[0]); }
  }

  /** In a clean text each break is one dash, so the marks determine it. */
  lemma CleanByMarks(a: string, b: string)
    requires Clean(a) && Clean(b) && Marks(a) == Marks(b)
    ensures a == b
  {
    SameTail(a, b, true);
  }

  /** No doubled dash and no dash at the end. */
  predicate CleanTail(s: string) { AllSafe(s) && NoDoubleDash(s) && (s != [] ==> s[|s| - 1] != '-') }

  lemma TailIsClean(s: string)
    requires CleanTail(s) && s != []
    ensures CleanTail(s[1..]) && (s[0] == '-' ==> |s| > 1 && s[1] != '-')
    ensures IsWordChar(s[0]) || s[0] == '-'
  {
  }

  lemma FirstMark(s: string, gap: bool)
    requires CleanTail(s) && s != []
    ensures var m := Marked(s, gap);
      && m != []
      && (IsWordChar(s[0]) ==> m[0] == (s[0], gap) && m[1..] == Marked(s[1..], false))
      && (s[0] == '-' ==> m == Marked(s[1..], true) && m[0].1 && s[1..] != [] && s[1] != '-')
    ensures IsWordChar(s[0]) || s[0] == '-'
  {
    TailIsClean(s);
    if s[0] == '-' { TailIsClean(s[1..]); }
  }

  lemma {:induction false} SameTail(a: string, b: string, gap: bool)
    requires CleanTail(a) && CleanTail(b) && Marked(a, gap) == Marked(b, gap)
    requires gap ==> (a != [] ==> a[0] != '-') && (b != [] ==> b[0] != '-')
    ensures a == b
    decreases |a| + |b|
  {
    if a != [] { FirstMark(a, gap); TailIsClean(a); }
    if b != [] { FirstMark(b, gap); TailIsClean(b); }
    if a != [] && b != [] && a[0] == b[0] {
      SameTail(a[1..], b[1..], a[0] == '-');
      assert a == [a[0]] + a[1..] && b == [b[0]] + b[1..];
    }
  }

  /** ## Building */

  datatype PublicId = InvalidPrefix | InvalidUserId | PublicId(text: string)

  function Cut(s: string, n: int): string
    requires n >= 0
  {
    if |s| <= n then s else s[..n]
  }

  /** `s[:n].strip("-") or "id"`. */
  function CutPart(s: string, n: int): string
    requires n >= 0
  {
    OrId(StripDashes(Cut(s, n)))
  }

  /** A cut clean part is clean and no longer than the limit: its first character is never a dash, so
      the fallback is not taken. */
  lemma CutPartIsClean(s: string, n: int)
    requires Clean(s) && n >= 1
    ensures var r := CutPart(s, n);
      Clean(r) && r <= s && |r| <= n && n - 1 <= |r| + (if |s| < n then n - |s| else 0)
    ensures |s| <= n ==> CutPart(s, n) == s
  {
    var c := Cut(s, n);
    if c[|c| - 1] == '-' {
      var d := c[..|c| - 1];
      assert c[0] == s[0] && |c| >= 2;
      assert s[|c| - 2] != '-';
      assert d == s[..|c| - 1];
      assert StripDashes(c) == StripDashes(d);
      assert StripDashes(d) == d;
    } else {
      assert StripDashes(c) == c;
    }
  }

  function BuildPublicId(prefix: string, userId: string, lower: Lower, digest: Digest): PublicId
    requires IsHexDigest(digest)
  {
    if prefix == "" then InvalidPrefix
    else if userId == "" then InvalidUserId
    else
      var safePrefix := CutPart(Normalize(prefix, lower), PUBLIC_ID_MAX_LENGTH - PUBLIC_ID_HASH_LENGTH - 3);
      var userHash := digest(userId)[..PUBLIC_ID_HASH_LENGTH];
      NormalizedIsClean(prefix, lower);
      CutPartIsClean(Normalize(prefix, lower), PUBLIC_ID_MAX_LENGTH - PUBLIC_ID_HASH_LENGTH - 3);
      var userPart := CutPart(Normalize(userId, lower), PUBLIC_ID_MAX_LENGTH - |safePrefix| - |userHash| - 2);
      PublicId(safePrefix + "-" + userPart + "-" + userHash)
  }

  lemma JoinClean(a: string, b: string)
    requires Clean(a) && Clean(b)
    ensures Clean(a + "-" + b)
  {
    var r := a + "-" + b;
    assert forall i :: 0 <= i < |a| ==> r[i] == a[i];
    assert r[|a|] == '-';
    assert forall i :: |a| < i < |r| ==> r[i] == b[i - |a| - 1];
    forall i | 0 <= i < |r| - 1 ensures !(r[i] == '-' && r[i + 1] == '-') {
      assert i > |a| ==> r[i] == b[i - |a| - 1] && r[i + 1] == b[i - |a|];
    }
  }

  lemma CleanIsValid(s: string)
    requires Clean(s) && |s| <= 120
    ensures ValidIdentifier(s)
  {
    assert IsSafe(s[0]);
  }

  lemma HexIsClean(s: string)
    requires IsHex(s) && s != []
    ensures Clean(s)
  {
  }

  lemma JoinThree(a: string, b: string, h: string)
    requires Clean(a) && Clean(b) && Clean(h) && |a| + |b| + |h| <= 118
    ensures var r := a + "-" + b + "-" + h;
      Clean(r) && ValidIdentifier(r) && |r| == |a| + |b| + |h| + 2 && r[|r| - |h|..] == h
  {
    JoinClean(a, b);
    JoinClean(a + "-" + b, h);
    CleanIsValid(a + "-" + b + "-" + h);
  }

  /** The two readable parts are clean and leave room for the hash. */
  lemma PartsFit(prefix: string, userId: string, lower: Lower)
    ensures var a := CutPart(Normalize(prefix, lower), 109);
      1 <= |a| <= 109 && Clean(a)
      && (var b := CutPart(Normalize(userId, lower), 110 - |a|);
          Clean(b) && |a| + |b| <= 110)
  {
    NormalizedIsClean(prefix, lower);
    NormalizedIsClean(userId, lower);
    CutPartIsClean(Normalize(prefix, lower), 109);
    var a := CutPart(Normalize(prefix, lower), 109);
    CutPartIsClean(Normalize(userId, lower), 110 - |a|);
  }

  lemma BuiltText(prefix: string, userId: string, lower: Lower, digest: Digest)
    requires IsHexDigest(digest) && prefix != "" && userId != ""
    requires 1 <= |CutPart(Normalize(prefix, lower), 109)| <= 109
    ensures var a := CutPart(Normalize(prefix, lower), 109);
      var b := CutPart(Normalize(userId, lower), 110 - |a|);
      BuildPublicId(prefix, userId, lower, digest) == PublicId(a + "-" + b + "-" + digest(userId)[..8])
  {
  }

  /** Every public id is clean, fits, passes the identifier check and ends in the user's hash. */
  lemma PublicIdIsValid(prefix: string, userId: string, lower: Lower, digest: Digest)
    requires IsHexDigest(digest)
    ensures var id := BuildPublicId(prefix, userId, lower, digest);
      && (id.InvalidPrefix? <==> prefix == "")
      && (id.InvalidUserId? <==> prefix != "" && userId == "")
      && (id.PublicId? ==> Clean(id.text) && |id.text| <= PUBLIC_ID_MAX_LENGTH && ValidIdentifier(id.text))
      && (id.PublicId? ==> |id.text| >= 8 && id.text[|id.text| - 8..] == digest(userId)[..8])
  {
    if prefix != "" && userId != "" {
      PartsFit(prefix, userId, lower);
      BuiltText(prefix, userId, lower, digest);
      var a := CutPart(Normalize(prefix, lower), 109);
      var b := CutPart(Normalize(userId, lower), 110 - |a|);
      var h := digest(userId)[..8];
      HexIsClean(h);
      JoinThree(a, b, h);
    }
  }

  /** Two users share an id only if their short hashes collide, whatever their names look like. */
  lemma EqualIdsHaveEqualHashes(p: string, u: string, q: string, v: string, lower: Lower, digest: Digest)
    requires IsHexDigest(digest)
    requires BuildPublicId(p, u, lower, digest).PublicId?
    requires BuildPublicId(p, u, lower, digest) == BuildPublicId(q, v, lower, digest)
    ensures digest(u)[..8] == digest(v)[..8]
  {
    PublicIdIsValid(p, u, lower, digest);
    PublicIdIsValid(q, v, lower, digest);
  }

  /** The prefix is only cut past 109 characters; a prefix that fits is there in full. */
  lemma ShortPrefixIsKept(prefix: string, userId: string, lower: Lower, digest: Digest)
    requires IsHexDigest(digest) && prefix != "" && userId != "" && |Normalize(prefix, lower)| <= 109
    ensures Normalize(prefix, lower) + "-" <= BuildPublicId(prefix, userId, lower, digest).text
  {
    NormalizedIsClean(prefix, lower);
    CutPartIsClean(Normalize(prefix, lower), 109);
  }

  /** Both readable parts are beginnings of the normalized texts, and in full when they fit. */
  lemma PublicIdParts(prefix: string, userId: string, lower: Lower, digest: Digest)
    requires IsHexDigest(digest) && prefix != "" && userId != ""
    ensures var p, u := Normalize(prefix, lower), Normalize(userId, lower);
      exists a, b :: (
        && BuildPublicId(prefix, userId, lower, digest) == PublicId(a + "-" + b + "-" + digest(userId)[..8])
        && a != "" && a <= p && (|p| <= 109 ==> a == p)
        && b != "" && b <= u && (|a| + |u| <= 110 ==> b == u)
        && (|p| > 109 ==> |a| >= 108) && (|a| + |u| > 110 ==> |a| + |b| >= 109))
  {
    var p, u := Normalize(prefix, lower), Normalize(userId, lower);
    PartsFit(prefix, userId, lower);
    BuiltText(prefix, userId, lower, digest);
    NormalizedIsClean(prefix, lower);
    NormalizedIsClean(userId, lower);
    var a := CutPart(p, 109);
    CutPartIsClean(p, 109);
    CutPartIsClean(u, 110 - |a|);
    var b := CutPart(u, 110 - |a|);
  }

  /** ## The checkout pair */

  datatype Checkout = Rejected(field: string) | Preview(checkoutIntentId: string)

  function CreateBnplCheckout(userId: string, checkoutIntentId: string, token: Option<string>): Checkout {
    if !ValidIdentifier(userId) then Rejected("user_id")
    else if !ValidIdentifier(checkoutIntentId) then Rejected("checkout_intent_id")
    else if token.Some? && !ValidIdentifier(token.value) then Rejected("confirmation_token")
    else Preview(checkoutIntentId)
  }

  const INTENT_PREFIX := "checkout-intent"

  /** The intent id that one call hands out is never the reason the next call rejects. */
  lemma IntentIsAccepted(userId: string, token: Option<string>, lower: Lower, digest: Digest)
    requires IsHexDigest(digest) && userId != ""
    ensures var intent := BuildPublicId(INTENT_PREFIX, userId, lower, digest);
      && intent.PublicId?
      && (CreateBnplCheckout(userId, intent.text, token).Preview? <==>
          ValidIdentifier(userId) && (token.Some? ==> ValidIdentifier(token.value)))
  {
    PublicIdIsValid(INTENT_PREFIX, userId, lower, digest);
  }
}
