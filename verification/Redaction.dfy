/** The two recursive rewrites applied to tool payloads: `sanitize_payload` drops execution-context
    keys, `mask_payload` overwrites the values at sensitive keys.  `lower` stands for the Python
    `str.lower`; nothing below depends on what it does. */
module Redaction {
  import opened Options
  import opened Json

  type Lower = string -> string

  const EXECUTION_CONTEXT_KEYS: set<string> :=
    {"access_token", "api_key", "authorization", "password", "secret", "token"}

  const MASKED_VALUE := "***MASKED***"

  const SENSITIVE_KEYWORDS: seq<string> := [
    "password", "passwd", "secret", "token", "api_key", "apikey",
    "authorization", "access_key", "refresh_key", "private_key"
  ]

  predicate IsContextKey(key: string, lower: Lower) { lower(key) in EXECUTION_CONTEXT_KEYS }

  function Underscored(s: string): string {
    seq(|s|, i requires 0 <= i < |s| => if s[i] == '-' then '_' else s[i])
  }

  predicate Contains(s: string, part: string) {
    exists i :: 0 <= i <= |s| && part <= s[i..]
  }

  predicate IsSensitiveKey(key: string, lower: Lower) {
    exists i :: 0 <= i < |SENSITIVE_KEYWORDS| && Contains(Underscored(lower(key)), SENSITIVE_KEYWORDS[i])
  }

  function Sanitize(j: Json, lower: Lower): Json
    decreases j, 1
  {
    match j
    case Obj(fields) => Obj(SanitizeFields(fields, lower))
    case Arr(items) => Arr(SanitizeItems(items, lower))
    case _ => j
  }

  function SanitizeFields(fields: seq<Field>, lower: Lower): seq<Field>
    decreases fields, 0
  {
    if fields == [] then []
    else
      var rest := SanitizeFields(fields[1..], lower);
      if IsContextKey(fields[0].key, lower) then rest
      else [Field(fields[0].key, Sanitize(fields[0].value, lower))] + rest
  }

  function SanitizeItems(items: seq<Json>, lower: Lower): (r: seq<Json>)
    ensures |r| == |items|
    ensures forall i :: 0 <= i < |items| ==> r[i] == Sanitize(items[i], lower)
    decreases items, 0
  {
    if items == [] then [] else [Sanitize(items[0], lower)] + SanitizeItems(items[1..], lower)
  }

  function Mask(j: Json, lower: Lower): Json
    decreases j, 1
  {
    match j
    case Obj(fields) => Obj(MaskFields(fields, lower))
    case Arr(items) => Arr(MaskItems(items, lower))
    case _ => j
  }

  function MaskedValue(field: Field, lower: Lower): Json
    decreases field, 0
  {
    if IsSensitiveKey(field.key, lower) then Str(MASKED_VALUE) else Mask(field.value, lower)
  }

  function MaskFields(fields: seq<Field>, lower: Lower): (r: seq<Field>)
    ensures |r| == |fields|
    ensures forall i :: 0 <= i < |fields| ==> r[i] == Field(fields[i].key, MaskedValue(fields[i], lower))
    decreases fields, 0
  {
    if fields == [] then []
    else [Field(fields[0].key, MaskedValue(fields[0], lower))] + MaskFields(fields[1..], lower)
  }

  function MaskItems(items: seq<Json>, lower: Lower): (r: seq<Json>)
    ensures |r| == |items|
    ensures forall i :: 0 <= i < |items| ==> r[i] == Mask(items[i], lower)
    decreases items, 0
  {
    if items == [] then [] else [Mask(items[0], lower)] + MaskItems(items[1..], lower)
  }

  // ---------- What each rewrite does, stated on paths into the payload ----------

  datatype Step = Key(key: string) | Index(i: nat)

  function FindKey(fields: seq<Field>, key: string): Option<Json> {
    if fields == [] then None
    else if fields[0].key == key then Some(fields[0].value)
    else FindKey(fields[1..], key)
  }

  function Child(j: Json, step: Step): Option<Json> {
    match step
    case Key(key) => if j.Obj? then FindKey(j.fields, key) else None
    case Index(i) => if j.Arr? && i < |j.items| then Some(j.items[i]) else None
  }

  /** The value reached by following `path` from `j`, if there is one. */
  function At(j: Json, path: seq<Step>): Option<Json>
    decreases path
  {
    if path == [] then Some(j)
    else match Child(j, path[0])
      case None => None
      case Some(child) => At(child, path[1..])
  }

  predicate CrossesContext(path: seq<Step>, lower: Lower) {
    exists i :: 0 <= i < |path| && path[i].Key? && IsContextKey(path[i].key, lower)
  }

  lemma {:induction false} FindSanitized(fields: seq<Field>, key: string, lower: Lower)
    ensures FindKey(SanitizeFields(fields, lower), key) ==
      if IsContextKey(key, lower) then None
      else match FindKey(fields, key) case None => None case Some(v) => Some(Sanitize(v, lower))
  {
    if fields != [] { FindSanitized(fields[1..], key, lower); }
  }

  /** Sanitizing removes exactly the paths through an execution-context key, at any depth; every
      other path still leads to the (sanitized) value it led to before. */
  lemma {:induction false} SanitizeAtPath(j: Json, path: seq<Step>, lower: Lower)
    ensures At(Sanitize(j, lower), path) ==
      if CrossesContext(path, lower) then None
      else match At(j, path) case None => None case Some(v) => Some(Sanitize(v, lower))
    decreases path
  {
    if path != [] {
      if path[0].Key? && j.Obj? { FindSanitized(j.fields, path[0].key, lower); }
      assert CrossesContext(path, lower) <==>
        (path[0].Key? && IsContextKey(path[0].key, lower)) || CrossesContext(path[1..], lower) by {
        assert path == [path[0]] + path[1..];
      }
      match Child(j, path[0])
      case None =>
      case Some(child) => SanitizeAtPath(child, path[1..], lower);
    }
  }

  predicate IsSecretStep(step: Step, lower: Lower) { step.Key? && IsSensitiveKey(step.key, lower) }

  predicate NoSecretStep(path: seq<Step>, lower: Lower) {
    forall i :: 0 <= i < |path| ==> !IsSecretStep(path[i], lower)
  }

  /** The word stands at `i`, with a dash allowed for each underscore. */
  predicate StandsAt(text: string, word: string, i: nat) {
    && i + |word| <= |text|
    && forall k :: 0 <= k < |word| ==> text[i + k] == word[k] || (word[k] == '_' && text[i + k] == '-')
  }

  ghost predicate Occurs(text: string, word: string) { exists i: nat :: StandsAt(text, word, i) }

  lemma LetterMatches(text: string, word: string, i: nat, k: nat)
    requires '-' !in word && i + |word| <= |text| && k < |word|
    ensures Underscored(text)[i + k] == word[k] <==> text[i + k] == word[k] || (word[k] == '_' && text[i + k] == '-')
  {
    assert word[k] in word;
  }

  lemma ContainsIffOccurs(text: string, word: string)
    requires '-' !in word
    ensures Contains(Underscored(text), word) <==> Occurs(text, word)
  {
    var s := Underscored(text);
    if i :| 0 <= i <= |s| && word <= s[i..] {
      forall k | 0 <= k < |word| ensures text[i + k] == word[k] || (word[k] == '_' && text[i + k] == '-') {
        assert word[k] == s[i..][k] == s[i + k];
        LetterMatches(text, word, i, k);
      }
      assert StandsAt(text, word, i);
    }
    if i: nat :| StandsAt(text, word, i) {
      forall k | 0 <= k < |word| ensures s[i..][k] == word[k] {
        LetterMatches(text, word, i, k);
      }
      assert s[i..][..|word|] == word;
    }
  }

  /** A key is sensitive exactly if one of the words occurs in its lower-cased text, dashes counting as
      underscores. */
  lemma SensitiveIff(key: string, lower: Lower)
    ensures IsSensitiveKey(key, lower) <==> exists w :: w in SENSITIVE_KEYWORDS && Occurs(lower(key), w)
  {
    forall i | 0 <= i < |SENSITIVE_KEYWORDS|
      ensures Contains(Underscored(lower(key)), SENSITIVE_KEYWORDS[i]) <==> Occurs(lower(key), SENSITIVE_KEYWORDS[i])
    {
      KeywordsHaveNoDash(i);
      ContainsIffOccurs(lower(key), SENSITIVE_KEYWORDS[i]);
    }
  }

  lemma KeywordsHaveNoDash(i: nat)
    requires i < |SENSITIVE_KEYWORDS|
    ensures '-' !in SENSITIVE_KEYWORDS[i]
  {
  }

  lemma NoSecretTail(path: seq<Step>, lower: Lower)
    requires path != [] && NoSecretStep(path, lower)
    ensures NoSecretStep(path[1..], lower)
  {
    var tail := path[1..];
    forall i | 0 <= i < |tail| ensures !IsSecretStep(tail[i], lower) {
      assert tail[i] == path[i + 1];
    }
  }

  lemma {:induction false} FindMasked(fields: seq<Field>, key: string, lower: Lower)
    ensures FindKey(MaskFields(fields, lower), key) ==
      match FindKey(fields, key)
      case None => None
      case Some(v) => Some(if IsSensitiveKey(key, lower) then Str(MASKED_VALUE) else Mask(v, lower))
  {
    if fields != [] {
      FindMasked(fields[1..], key, lower);
      assert MaskFields(fields, lower)[1..] == MaskFields(fields[1..], lower);
    }
  }

  /** Masking hides everything at and below a sensitive key, at any depth, behind one constant, and
      leaves every other path where it was. */
  lemma {:induction false} MaskAtPath(j: Json, path: seq<Step>, lower: Lower)
    ensures NoSecretStep(path, lower) ==>
      At(Mask(j, lower), path) == match At(j, path) case None => None case Some(v) => Some(Mask(v, lower))
    ensures forall k :: 0 <= k < |path| && IsSecretStep(path[k], lower) && NoSecretStep(path[..k], lower) ==>
      At(Mask(j, lower), path) ==
        if k + 1 == |path| && At(j, path).Some? then Some(Str(MASKED_VALUE)) else None
    decreases path
  {
    if path != [] {
      var rest := path[1..];
      assert path == [path[0]] + rest;
      if path[0].Key? && j.Obj? { FindMasked(j.fields, path[0].key, lower); }
      forall k | 0 < k < |path| && IsSecretStep(path[k], lower) && NoSecretStep(path[..k], lower)
        ensures IsSecretStep(rest[k - 1], lower) && NoSecretStep(rest[..k - 1], lower)
        ensures !IsSecretStep(path[0], lower)
      {
        assert path[..k][0] == path[0];
        assert path[..k][1..] == rest[..k - 1];
        NoSecretTail(path[..k], lower);
      }
      if IsSecretStep(path[0], lower) {
        MaskedLeafHasNoChildren(rest);
        assert path[..0] == [];
      } else {
        match Child(j, path[0])
        case None =>
        case Some(child) => MaskAtPath(child, rest, lower);
      }
    }
  }

  lemma MaskedLeafHasNoChildren(path: seq<Step>)
    ensures At(Str(MASKED_VALUE), path) == if path == [] then Some(Str(MASKED_VALUE)) else None
  {
  }

  // ---------- Algebra of the two rewrites ----------

  lemma {:induction false} SanitizeIdempotent(j: Json, lower: Lower)
    ensures Sanitize(Sanitize(j, lower), lower) == Sanitize(j, lower)
    decreases j, 1
  {
    match j
    case Obj(fields) => SanitizeFieldsIdempotent(fields, lower);
    case Arr(items) =>
      forall i | 0 <= i < |items| { SanitizeIdempotent(items[i], lower); }
    case _ =>
  }

  lemma {:induction false} SanitizeFieldsIdempotent(fields: seq<Field>, lower: Lower)
    ensures SanitizeFields(SanitizeFields(fields, lower), lower) == SanitizeFields(fields, lower)
    decreases fields, 0
  {
    if fields != [] {
      SanitizeIdempotent(fields[0].value, lower);
      SanitizeFieldsIdempotent(fields[1..], lower);
    }
  }

  lemma {:induction false} MaskIdempotent(j: Json, lower: Lower)
    ensures Mask(Mask(j, lower), lower) == Mask(j, lower)
  {
    match j
    case Obj(fields) =>
      forall i | 0 <= i < |fields|
        ensures MaskedValue(Field(fields[i].key, MaskedValue(fields[i], lower)), lower) == MaskedValue(fields[i], lower)
      {
        MaskIdempotent(fields[i].value, lower);
      }
    case Arr(items) =>
      forall i | 0 <= i < |items| { MaskIdempotent(items[i], lower); }
    case _ =>
  }

  /** Masking and sanitizing may be done in either order. */
  lemma {:induction false} MaskAndSanitizeCommute(j: Json, lower: Lower)
    ensures Mask(Sanitize(j, lower), lower) == Sanitize(Mask(j, lower), lower)
    decreases j, 1
  {
    match j
    case Obj(fields) => MaskAndSanitizeFieldsCommute(fields, lower);
    case Arr(items) =>
      forall i | 0 <= i < |items| { MaskAndSanitizeCommute(items[i], lower); }
      assert MaskItems(SanitizeItems(items, lower), lower) == SanitizeItems(MaskItems(items, lower), lower);
    case _ =>
  }

  lemma {:induction false} MaskAndSanitizeFieldsCommute(fields: seq<Field>, lower: Lower)
    ensures MaskFields(SanitizeFields(fields, lower), lower) == SanitizeFields(MaskFields(fields, lower), lower)
    decreases fields, 0
  {
    if fields != [] {
      MaskAndSanitizeCommute(fields[0].value, lower);
      MaskAndSanitizeFieldsCommute(fields[1..], lower);
      assert MaskFields(fields, lower)[1..] == MaskFields(fields[1..], lower);
    }
  }

  /** Equal everywhere except, perhaps, in the values held at sensitive keys. */
  predicate AgreeOffSecrets(a: Json, b: Json, lower: Lower)
    decreases a
  {
    match a
    case Obj(fs) =>
      && b.Obj? && |fs| == |b.fields|
      && forall i :: 0 <= i < |fs| ==>
           && fs[i].key == b.fields[i].key
           && (IsSensitiveKey(fs[i].key, lower) || AgreeOffSecrets(fs[i].value, b.fields[i].value, lower))
    case Arr(xs) =>
      && b.Arr? && |xs| == |b.items|
      && forall i :: 0 <= i < |xs| ==> AgreeOffSecrets(xs[i], b.items[i], lower)
    case _ => a == b
  }

  /** The masked payload reveals exactly what lies outside the sensitive values: it never depends on
      a secret, and it never confuses two payloads that differ elsewhere. */
  lemma {:induction false} MaskRevealsExactlyNonSecrets(a: Json, b: Json, lower: Lower)
    ensures Mask(a, lower) == Mask(b, lower) <==> AgreeOffSecrets(a, b, lower)
    decreases a
  {
    match a
    case Obj(fs) =>
      if b.Obj? {
        var ma, mb := MaskFields(fs, lower), MaskFields(b.fields, lower);
        forall i | 0 <= i < |fs| && i < |b.fields|
          ensures Mask(fs[i].value, lower) == Mask(b.fields[i].value, lower)
            <==> AgreeOffSecrets(fs[i].value, b.fields[i].value, lower)
        {
          MaskRevealsExactlyNonSecrets(fs[i].value, b.fields[i].value, lower);
        }
        if Mask(a, lower) == Mask(b, lower) {
          forall i | 0 <= i < |fs|
            ensures fs[i].key == b.fields[i].key
            ensures IsSensitiveKey(fs[i].key, lower) || AgreeOffSecrets(fs[i].value, b.fields[i].value, lower)
          {
            assert ma[i] == mb[i];
          }
        }
        if AgreeOffSecrets(a, b, lower) {
          forall i | 0 <= i < |fs| ensures ma[i] == mb[i] {
          }
          assert ma == mb;
        }
      }
    case Arr(xs) =>
      if b.Arr? {
        forall i | 0 <= i < |xs| && i < |b.items| { MaskRevealsExactlyNonSecrets(xs[i], b.items[i], lower); }
        if Mask(a, lower) == Mask(b, lower) {
          forall i | 0 <= i < |xs| ensures AgreeOffSecrets(xs[i], b.items[i], lower) {
            assert MaskItems(xs, lower)[i] == MaskItems(b.items, lower)[i];
          }
        }
        if AgreeOffSecrets(a, b, lower) {
          assert MaskItems(xs, lower) == MaskItems(b.items, lower);
        }
      }
    case _ =>
  }

  // ---------- Well-formedness is kept ----------

  lemma {:induction false} SanitizeKeepsWellFormed(j: Json, lower: Lower)
    requires WellFormed(j)
    ensures WellFormed(Sanitize(j, lower))
    decreases j, 1
  {
    match j
    case Obj(fields) => SanitizeFieldsKeepsWellFormed(fields, lower);
    case Arr(items) =>
      forall i | 0 <= i < |items| { SanitizeKeepsWellFormed(items[i], lower); }
    case _ =>
  }

  lemma {:induction false} SanitizeFieldsKeepsWellFormed(fields: seq<Field>, lower: Lower)
    requires WellFormed(Obj(fields))
    ensures WellFormed(Obj(SanitizeFields(fields, lower)))
    ensures forall f :: f in SanitizeFields(fields, lower) ==> exists i :: 0 <= i < |fields| && fields[i].key == f.key
    decreases fields, 0
  {
    if fields != [] {
      var rest := SanitizeFields(fields[1..], lower);
      SanitizeFieldsKeepsWellFormed(fields[1..], lower);
      SanitizeKeepsWellFormed(fields[0].value, lower);
      forall f | f in rest ensures exists i :: 0 < i < |fields| && fields[i].key == f.key {
        var i :| 0 <= i < |fields[1..]| && fields[1..][i].key == f.key;
        assert fields[i + 1].key == f.key;
      }
    }
  }
}
