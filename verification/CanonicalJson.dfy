/** `json.dumps(..., sort_keys=True)`: every object's fields in key order.  Two well-formed values
    have the same canonical form exactly when they are equal up to the order of object keys. */
module CanonicalJson {
  import opened Json
  import opened StableSort
  import opened Text

  const BY_NAME: (Field, Field) -> bool := (a: Field, b: Field) => StrLeq(a.key, b.key)

  lemma ByNameIsPreorder()
    ensures IsPreorder(BY_NAME)
  {
    forall a: Field, b: Field ensures BY_NAME(a, b) || BY_NAME(b, a) { StrLeqTotal(a.key, b.key); }
    forall a: Field, b: Field, c: Field | BY_NAME(a, b) && BY_NAME(b, c) ensures BY_NAME(a, c) {
      StrLeqTransitive(a.key, b.key, c.key);
    }
  }

  function SortFields(fields: seq<Field>): seq<Field> { Sort(fields, BY_NAME) }

  ghost function Elements(fields: seq<Field>): set<Field> { set f | f in fields }

  /** Sorting keeps exactly the same fields. */
  lemma SortFieldsElements(fields: seq<Field>)
    ensures Elements(SortFields(fields)) == Elements(fields)
    ensures |SortFields(fields)| == |fields|
  {
    SortIsPermutation(fields, BY_NAME);
  }

  predicate LacksKey(key: string, fields: seq<Field>) {
    forall i :: 0 <= i < |fields| ==> fields[i].key != key
  }

  lemma LacksKeyByMembers(key: string, a: seq<Field>, b: seq<Field>)
    requires LacksKey(key, a) && forall f :: f in b ==> f in a
    ensures LacksKey(key, b)
  {
    forall i | 0 <= i < |b| ensures b[i].key != key { assert b[i] in b; }
  }

  lemma {:induction false} InsertKeepsDistinct(f: Field, fields: seq<Field>)
    requires DistinctKeys(fields) && LacksKey(f.key, fields)
    ensures DistinctKeys(Insert(f, fields, BY_NAME))
  {
    if fields != [] && !BY_NAME(f, fields[0]) {
      InsertKeepsDistinct(f, fields[1..]);
      InsertMembers(f, fields[1..], BY_NAME);
      LacksKeyByMembers(fields[0].key, [f] + fields[1..], Insert(f, fields[1..], BY_NAME));
    }
  }

  lemma {:induction false} SortFieldsSorts(fields: seq<Field>)
    requires DistinctKeys(fields)
    ensures Sorted(SortFields(fields), BY_NAME) && DistinctKeys(SortFields(fields))
  {
    ByNameIsPreorder();
    SortSorts(fields, BY_NAME);
    if fields != [] {
      SortFieldsSorts(fields[1..]);
      SortIsPermutation(fields[1..], BY_NAME);
      LacksKeyByMembers(fields[0].key, fields[1..], SortFields(fields[1..]));
      InsertKeepsDistinct(fields[0], SortFields(fields[1..]));
    }
  }

  /** Key order and contents leave only one arrangement of fields with distinct keys. */
  lemma {:induction false} SortedFieldsAreUnique(a: seq<Field>, b: seq<Field>)
    requires Sorted(a, BY_NAME) && Sorted(b, BY_NAME) && DistinctKeys(a) && DistinctKeys(b)
    requires Elements(a) == Elements(b) && |a| == |b|
    ensures a == b
  {
    if a != [] {
      assert a[0] in Elements(b);
      assert b[0] in Elements(a);
      var i :| 0 <= i < |b| && b[i] == a[0];
      var j :| 0 <= j < |a| && a[j] == b[0];
      if i != 0 {
        assert BY_NAME(b[0], b[i]);
        if j != 0 { assert BY_NAME(a[0], a[j]); StrLeqAntisymmetric(a[0].key, b[0].key); }
        assert false;
      }
      TailElements(a);
      TailElements(b);
      SortedFieldsAreUnique(a[1..], b[1..]);
      assert a == [a[0]] + a[1..] && b == [b[0]] + b[1..];
    }
  }

  lemma TailElements(a: seq<Field>)
    requires a != [] && DistinctKeys(a)
    ensures Elements(a[1..]) == Elements(a) - {a[0]}
  {
    assert a == [a[0]] + a[1..];
    forall f ensures f in Elements(a[1..]) <==> f in Elements(a) - {a[0]} {
      if f in a[1..] {
        var k :| 0 <= k < |a[1..]| && a[1..][k] == f;
        assert a[0].key != a[k + 1].key;
      }
    }
  }

  // ---------- Canonical form ----------

  function Canon(j: Json): Json
    decreases j, 1
  {
    match j
    case Arr(items) => Arr(CanonItems(items))
    case Obj(fields) => Obj(SortFields(CanonFields(fields)))
    case _ => j
  }

  function CanonItems(items: seq<Json>): (r: seq<Json>)
    ensures |r| == |items|
    ensures forall i :: 0 <= i < |items| ==> r[i] == Canon(items[i])
    decreases items, 0
  {
    if items == [] then [] else [Canon(items[0])] + CanonItems(items[1..])
  }

  function CanonFields(fields: seq<Field>): (r: seq<Field>)
    ensures |r| == |fields|
    ensures forall i :: 0 <= i < |fields| ==> r[i] == Field(fields[i].key, Canon(fields[i].value))
    decreases fields, 0
  {
    if fields == [] then []
    else [Field(fields[0].key, Canon(fields[0].value))] + CanonFields(fields[1..])
  }

  /** Equality up to the order of object keys, at every depth. */
  ghost predicate Same(a: Json, b: Json)
    decreases a, 0
  {
    match a
    case Arr(xs) =>
      && b.Arr? && |xs| == |b.items|
      && forall i :: 0 <= i < |xs| ==> Same(xs[i], b.items[i])
    case Obj(fs) =>
      && b.Obj? && |fs| == |b.fields|
      && forall i :: 0 <= i < |fs| ==> HasSame(fs[i].key, fs[i].value, b.fields)
    case _ => a == b
  }

  /** Some field of `fs` carries `key` and a value equal to `v` up to key order. */
  ghost predicate HasSame(key: string, v: Json, fs: seq<Field>)
    decreases v, 1
  {
    exists k :: 0 <= k < |fs| && fs[k].key == key && Same(v, fs[k].value)
  }

  lemma {:induction false} CanonImpliesSame(a: Json, b: Json)
    requires Canon(a) == Canon(b)
    ensures Same(a, b)
    decreases a
  {
    match a
    case Arr(xs) =>
      forall i | 0 <= i < |xs| ensures Same(xs[i], b.items[i]) {
        assert Canon(a).items[i] == Canon(b).items[i];
        CanonImpliesSame(xs[i], b.items[i]);
      }
    case Obj(fs) =>
      var ca, cb := CanonFields(fs), CanonFields(b.fields);
      SortFieldsElements(ca);
      SortFieldsElements(cb);
      forall i | 0 <= i < |fs| ensures HasSame(fs[i].key, fs[i].value, b.fields) {
        assert ca[i] in Elements(cb);
        var k :| 0 <= k < |cb| && cb[k] == ca[i];
        CanonImpliesSame(fs[i].value, b.fields[k].value);
      }
    case _ =>
  }

  lemma {:induction false} DistinctCount(a: seq<Field>)
    requires DistinctKeys(a)
    ensures |Elements(a)| == |a|
  {
    if a != [] {
      TailElements(a);
      DistinctCount(a[1..]);
    }
  }

  /** Two duplicate-free field lists of one length, the first inside the second, hold the same fields. */
  lemma InclusionIsEquality(a: seq<Field>, b: seq<Field>)
    requires DistinctKeys(a) && DistinctKeys(b) && |a| == |b|
    requires Elements(a) <= Elements(b)
    ensures Elements(a) == Elements(b)
  {
    DistinctCount(a);
    DistinctCount(b);
    assert Elements(b) == Elements(a) + (Elements(b) - Elements(a));
    assert |Elements(b) - Elements(a)| == 0;
  }

  lemma {:induction false} SameImpliesCanon(a: Json, b: Json)
    requires WellFormed(a) && WellFormed(b) && Same(a, b)
    ensures Canon(a) == Canon(b)
    decreases a
  {
    match a
    case Arr(xs) =>
      forall i | 0 <= i < |xs| ensures Canon(xs[i]) == Canon(b.items[i]) {
        SameImpliesCanon(xs[i], b.items[i]);
      }
      assert CanonItems(xs) == CanonItems(b.items);
    case Obj(fs) =>
      var ca, cb := CanonFields(fs), CanonFields(b.fields);
      forall i | 0 <= i < |ca| ensures ca[i] in Elements(cb) {
        assert HasSame(fs[i].key, fs[i].value, b.fields);
        var k :| 0 <= k < |b.fields| && b.fields[k].key == fs[i].key && Same(fs[i].value, b.fields[k].value);
        SameImpliesCanon(fs[i].value, b.fields[k].value);
        assert cb[k] == ca[i];
      }
      InclusionIsEquality(ca, cb);
      SortFieldsElements(ca);
      SortFieldsElements(cb);
      SortFieldsSorts(ca);
      SortFieldsSorts(cb);
      SortedFieldsAreUnique(SortFields(ca), SortFields(cb));
    case _ =>
  }

  /** The canonical print identifies exactly the values equal up to key order. */
  lemma CanonicalTextIffSame(a: Json, b: Json)
    requires WellFormed(a) && WellFormed(b)
    ensures Canon(a) == Canon(b) <==> Same(a, b)
  {
    if Canon(a) == Canon(b) { CanonImpliesSame(a, b); }
    if Same(a, b) { SameImpliesCanon(a, b); }
  }
}
