/** The wire codec of a unit-variant enumeration, as serde derives it.

    serde's derive keeps the variants' wire names in declaration order (its `VARIANTS` array).
    Serializing a variant writes its name. Deserializing compares the incoming string with the
    names in order: the first match gives the variant. A string that is no variant's name is
    rejected with an `unknown_variant` error, never coerced.

    An enumeration is described by its variants in declaration order, `variants`, its wire
    names, `names`, and the declaration index of each variant, `index`.
 */
module EnumCodec {
  import opened Wrappers

  /** No two variants share a wire name. */
  predicate Distinct(names: seq<string>) {
    forall i, j :: 0 <= i < j < |names| ==> names[i] != names[j]
  }

  /** `variants`, `names` and `index` describe one enumeration: one distinct name per variant,
      and `index` gives every value's position in the declaration order. */
  ghost predicate IsTable<E(!new)>(variants: seq<E>, names: seq<string>, index: E -> nat) {
    && |variants| == |names|
    && Distinct(names)
    && (forall k :: 0 <= k < |variants| ==> index(variants[k]) == k)
    && (forall e :: index(e) < |variants| && variants[index(e)] == e)
  }

  /** The position of the first name equal to `s`. */
  function FirstIndex(names: seq<string>, s: string): (r: Option<nat>)
    ensures r.Some? ==> r.value < |names| && names[r.value] == s
    ensures r.Some? ==> forall j :: 0 <= j < r.value ==> names[j] != s
    ensures r.None? <==> s !in names
  {
    if names == [] then None
    else if names[0] == s then Some(0)
    else match FirstIndex(names[1..], s)
      case None => None
      case Some(k) => Some(k + 1)
  }

  /** serde's derived visitor: the variant whose name matches first, or a rejection. */
  function Decode<E>(variants: seq<E>, names: seq<string>, s: string): (r: Option<E>)
    requires |variants| == |names|
    ensures r.None? <==> s !in names
    ensures r.Some? ==> exists k :: 0 <= k < |names| && names[k] == s && variants[k] == r.value
  {
    match FirstIndex(names, s)
    case None => None
    case Some(k) => Some(variants[k])
  }

  /** Decoding a variant's own name gives the variant back. */
  lemma DecodeInvertsEncode<E(!new)>(variants: seq<E>, names: seq<string>, index: E -> nat, e: E)
    requires IsTable(variants, names, index)
    ensures Decode(variants, names, names[index(e)]) == Some(e)
  {
    var k := index(e);
    var r := FirstIndex(names, names[k]);
    assert r.Some?;
    if r.value < k {
      assert false;
    }
  }

  /** Whatever decodes, encodes back to the string it came from. */
  lemma EncodeInvertsDecode<E(!new)>(variants: seq<E>, names: seq<string>, index: E -> nat, s: string)
    requires IsTable(variants, names, index)
    ensures Decode(variants, names, s).Some? ==> names[index(Decode(variants, names, s).value)] == s
  {
    var r := Decode(variants, names, s);
    if r.Some? {
      var k :| 0 <= k < |names| && names[k] == s && variants[k] == r.value;
      assert index(variants[k]) == k;
    }
  }

  /** Distinct variants have distinct wire names. */
  lemma EncodeInjective<E(!new)>(variants: seq<E>, names: seq<string>, index: E -> nat, a: E, b: E)
    requires IsTable(variants, names, index)
    ensures names[index(a)] == names[index(b)] ==> a == b
  {
    if names[index(a)] == names[index(b)] {
      DecodeInvertsEncode(variants, names, index, a);
      DecodeInvertsEncode(variants, names, index, b);
    }
  }
}
