/**
 * Queue keys. The controller turns a pod into the string key
 * "namespace/name" (just "name" when the namespace is empty) with
 * cache.MetaNamespaceKeyFunc, and turns a key back into a namespace and a
 * name with cache.SplitMetaNamespaceKey, which accepts a key of one or two
 * '/'-separated parts and rejects any other.
 */
module Keys {
  import opened Wrappers
  import opened Pods

  const Separator: char := '/'

  /** A name or namespace as Kubernetes allows it: it never holds the separator. */
  predicate WellFormed(s: string)
  {
    Separator !in s
  }

  /** cache.MetaNamespaceKeyFunc applied to an object with this metadata. */
  function MetaNamespaceKey(ref: PodRef): (key: string)
    ensures ref.namespace == "" ==> key == ref.name
    ensures ref.namespace != "" ==>
      |key| == |ref.namespace| + 1 + |ref.name| && key[..|ref.namespace|] == ref.namespace
      && key[|ref.namespace|] == Separator && key[|ref.namespace| + 1..] == ref.name
  {
    if ref.namespace == "" then ref.name else ref.namespace + [Separator] + ref.name
  }

  /** The position of the first occurrence of `c` in `s`. */
  function FirstIndex(s: string, c: char): (i: nat)
    requires c in s
    ensures i < |s| && s[i] == c
    ensures c !in s[..i]
  {
    if s[0] == c then 0
    else
      assert s == [s[0]] + s[1..];
      var j := FirstIndex(s[1..], c);
      assert s[..j + 1] == [s[0]] + s[1..][..j];
      j + 1
  }

  /**
   * cache.SplitMetaNamespaceKey: a key without a separator is a name in the
   * empty namespace; a key with exactly one separator is namespace/name;
   * a key with two or more separators is invalid.
   */
  function SplitMetaNamespaceKey(key: string): (r: Option<PodRef>)
    ensures Separator !in key ==> r == Some(PodRef("", key))
    ensures r.Some? ==> Separator !in r.value.name && Separator !in r.value.namespace
    ensures r.Some? && r.value.namespace != "" ==> key == r.value.namespace + [Separator] + r.value.name
  {
    if Separator !in key then Some(PodRef("", key))
    else
      var i := FirstIndex(key, Separator);
      var rest := key[i + 1..];
      if Separator in rest then None
      else
        assert key == key[..i] + [Separator] + rest;
        Some(PodRef(key[..i], rest))
  }

  /**
   * A key with exactly one separator is split there, even when the part
   * before it is empty ("/b" is the name "b" in the empty namespace).
   */
  lemma SplitOneSeparator(a: string, b: string)
    requires WellFormed(a) && WellFormed(b)
    ensures SplitMetaNamespaceKey(a + [Separator] + b) == Some(PodRef(a, b))
  {
    var key := a + [Separator] + b;
    assert key[|a|] == Separator;
    var i := FirstIndex(key, Separator);
    assert i == |a|;
    assert key[..i] == a;
    assert key[i + 1..] == b;
  }

  /** Splitting the key of a well-formed identity gives that identity back. */
  lemma SplitInvertsKey(ref: PodRef)
    requires WellFormed(ref.namespace) && WellFormed(ref.name)
    ensures SplitMetaNamespaceKey(MetaNamespaceKey(ref)) == Some(ref)
  {
    var key := MetaNamespaceKey(ref);
    if ref.namespace != "" {
      assert key[|ref.namespace|] == Separator;
      assert key[..|ref.namespace|] == ref.namespace;
      var i := FirstIndex(key, Separator);
      assert i == |ref.namespace|;
      assert key[i + 1..] == ref.name;
    }
  }

  /** A key with more than one separator is rejected. */
  lemma TwoSeparatorsInvalid(a: string, b: string, c: string)
    requires WellFormed(a)
    ensures SplitMetaNamespaceKey(a + [Separator] + b + [Separator] + c) == None
  {
    var key := a + [Separator] + b + [Separator] + c;
    assert key[|a|] == Separator;
    var i := FirstIndex(key, Separator);
    assert i == |a|;
    assert key[i + 1..][|b|] == Separator;
  }
}
