/** Container image references: `repository[:tag][@digest]`, cut at the first `@` and at the last
    colon of the last path segment. */
module ImageReference {
  import opened Options

  datatype Name = Name(repository: Option<string>, tag: Option<string>)

  datatype Reference = Reference(image: string, name: Name, digest: Option<string>)

  /** Where `str.partition` cuts: the first `c`, or the end. */
  function First(s: string, c: char): (i: nat)
    ensures i <= |s| && (i < |s| ==> s[i] == c) && forall k :: 0 <= k < i ==> s[k] != c
  {
    if s == [] || s[0] == c then 0
    else
      var rest := s[1..];
      assert forall k :: 1 <= k < |s| ==> s[k] == rest[k - 1];
      First(rest, c) + 1
  }

  /** Just past the last `c`, or 0: where `str.rsplit` with one split resumes. */
  function AfterLast(s: string, c: char): (i: nat)
    ensures i <= |s| && (i > 0 ==> s[i - 1] == c) && forall k :: i <= k < |s| ==> s[k] != c
  {
    if s == [] then 0
    else if s[|s| - 1] == c then |s|
    else AfterLast(s[..|s| - 1], c)
  }

  function LastSegment(s: string): string { s[AfterLast(s, '/')..] }

  predicate HasColonInLastSegment(name: string) { ':' in LastSegment(name) }

  lemma MemberAfter(s: string, from: nat, last: nat, c: char)
    requires from <= |s| && last <= |s| && (last > 0 ==> s[last - 1] == c)
    requires forall k :: last <= k < |s| ==> s[k] != c
    ensures c in s[from..] <==> last > from
  {
    var t := s[from..];
    if last > from { assert t[last - 1 - from] == c; }
  }

  lemma ColonInLastSegment(name: string)
    ensures HasColonInLastSegment(name) <==> AfterLast(name, ':') > AfterLast(name, '/')
  {
    MemberAfter(name, AfterLast(name, '/'), AfterLast(name, ':'), ':');
  }

  function ParseName(name: string): Name {
    if HasColonInLastSegment(name) then
      var colon := AfterLast(name, ':');
      ColonInLastSegment(name);
      Name(OrNone(name[..colon - 1]), Some(name[colon..]))
    else
      Name(OrNone(name), None)
  }

  /** The reference cut at `at`, with the mark itself dropped. */
  function CutAt(image: string, at: nat): Reference
    requires at <= |image|
  {
    Reference(image, ParseName(image[..at]), if at < |image| then Some(image[at + 1..]) else None)
  }

  function ParseImageReference(image: string): Reference {
    CutAt(image, First(image, '@'))
  }

  function OrNone(s: string): Option<string> {
    if s == "" then None else Some(s)
  }

  function Text(part: Option<string>): string {
    match part case None => "" case Some(r) => r
  }

  function Suffix(mark: char, part: Option<string>): string {
    match part case None => "" case Some(p) => [mark] + p
  }

  function PrintName(n: Name): string {
    Text(n.repository) + Suffix(':', n.tag)
  }

  function Print(n: Name, digest: Option<string>): string {
    PrintName(n) + Suffix('@', digest)
  }

  lemma Cut(s: string, i: nat, c: char)
    requires i < |s| && s[i] == c
    ensures s[..i] + ([c] + s[i + 1..]) == s
  {
  }

  lemma JoinRestoresName(name: string)
    ensures PrintName(ParseName(name)) == name
  {
    ColonInLastSegment(name);
    if HasColonInLastSegment(name) {
      Cut(name, AfterLast(name, ':') - 1, ':');
    } else {
      assert name + "" == name;
    }
  }

  /** No text is lost: joining the parts restores the reference, whatever it was. */
  lemma {:induction false} JoinRestoresImage(image: string)
    ensures var r := ParseImageReference(image); Print(r.name, r.digest) == image
  {
    JoinParts(image, First(image, '@'));
  }

  lemma PrintOf(n: Name, digest: Option<string>, name: string)
    requires PrintName(n) == name
    ensures Print(n, digest) == name + Suffix('@', digest)
  {
  }

  lemma JoinParts(image: string, at: nat)
    requires at <= |image| && (at < |image| ==> image[at] == '@')
    ensures var r := CutAt(image, at); Print(r.name, r.digest) == image
  {
    var r, name := CutAt(image, at), image[..at];
    JoinRestoresName(name);
    PrintOf(r.name, r.digest, name);
    if at < |image| {
      Cut(image, at, '@');
    } else {
      assert name == image && image + "" == image;
    }
  }

  predicate HasNone(s: string, c: char) { forall i :: 0 <= i < |s| ==> s[i] != c }

  /** The parts that mean what they say: an absent repository is not an empty one, and no separator
      hides in a part. */
  predicate Unambiguous(n: Name) {
    && n.repository != Some("")
    && HasNone(Text(n.repository), '@')
    && (n.tag.Some? ==> HasNone(n.tag.value, '/') && HasNone(n.tag.value, ':') && HasNone(n.tag.value, '@'))
    && (n.tag.None? ==> !HasColonInLastSegment(Text(n.repository)))
  }

  /** Parsing yields only such parts: a tag never has `/`, `:` or `@`. */
  lemma {:induction false} ParsedPartsAreUnambiguous(image: string)
    ensures Unambiguous(ParseImageReference(image).name)
  {
    ParsedNameIsUnambiguous(image[..First(image, '@')]);
  }

  lemma ParsedNameIsUnambiguous(name: string)
    requires HasNone(name, '@')
    ensures Unambiguous(ParseName(name))
  {
    ColonInLastSegment(name);
    if HasColonInLastSegment(name) {
      var colon := AfterLast(name, ':');
      var tag := name[colon..];
      assert forall i :: 0 <= i < |tag| ==> tag[i] == name[colon + i];
    }
  }

  lemma FirstOfJoined(name: string, digest: Option<string>)
    requires HasNone(name, '@')
    ensures First(name + Suffix('@', digest), '@') == |name|
  {
    var image := name + Suffix('@', digest);
    assert forall i :: 0 <= i < |name| ==> image[i] == name[i];
    assert digest.Some? ==> image[|name|] == '@';
  }

  lemma LastOfJoined(repository: string, tag: string)
    requires HasNone(tag, '/') && HasNone(tag, ':')
    ensures var name := repository + ([':'] + tag);
      HasColonInLastSegment(name) && AfterLast(name, ':') == |repository| + 1
  {
    var name := repository + ([':'] + tag);
    assert name[|repository|] == ':';
    assert forall k :: |repository| < k < |name| ==> name[k] == tag[k - |repository| - 1];
    ColonInLastSegment(name);
  }

  lemma PrintThenParseName(n: Name)
    requires Unambiguous(n)
    ensures ParseName(PrintName(n)) == n && HasNone(PrintName(n), '@')
  {
    var repository := Text(n.repository);
    if n.tag.Some? {
      var name := repository + ([':'] + n.tag.value);
      LastOfJoined(repository, n.tag.value);
      assert name[..|repository|] == repository && name[|repository| + 1..] == n.tag.value;
    } else {
      assert repository + "" == repository;
    }
  }

  /** Which parts survive printing and parsing: exactly the unambiguous ones. */
  lemma PrintThenParse(n: Name, digest: Option<string>)
    ensures var r := ParseImageReference(Print(n, digest));
      (r.name == n && r.digest == digest) <==> Unambiguous(n)
  {
    ParsedPartsAreUnambiguous(Print(n, digest));
    if Unambiguous(n) {
      PrintThenParseName(n);
      FirstOfJoined(PrintName(n), digest);
      CutJoined(PrintName(n), digest);
    }
  }

  lemma CutJoined(name: string, digest: Option<string>)
    ensures var r := CutAt(name + Suffix('@', digest), |name|);
      r.name == ParseName(name) && r.digest == digest
  {
    var image := name + Suffix('@', digest);
    assert image[..|name|] == name;
    if digest.Some? { assert image[|name| + 1..] == digest.value; }
  }
}
