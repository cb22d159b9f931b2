/** JSON values as serde's derived (de)serializers see them, and the field readers the derives
    use for struct fields.

    A JSON object is a map from keys to values: a struct's derived visitor looks each of its
    fields up by wire name and ignores every other key (none of the payload types sets
    `deny_unknown_fields`). A struct is described by its field table, the wire names of its
    fields in declaration order; `Slots` reads that table out of an object, and `ObjectOf` is the
    derived serializer's partner, writing one entry per field.

    Three kinds of field appear in the payload types:
    - a required field: missing is an error (`Required`);
    - a plain `Option<T>` field: missing or `null` is `None` (`Optional`);
    - an `Option<T>` field with a `#[serde(with = ...)]` adapter: serde does not default such a
      field when it is missing, so missing is an error and only `null` is `None`
      (`NullableRequired`).
 */
module Json {
  import opened Wrappers
  import EnumCodec

  datatype Json =
    | Null
    | Bool(b: bool)
    | Int(i: int)           // a number without fraction or exponent
    | Frac(text: string)    // any other number, kept as its literal text
    | Str(s: string)
    | Arr(items: seq<Json>)
    | Obj(fields: Object)

  type Object = map<string, Json>

  /** Rust's `u64` and `u8`. */
  type uint64 = x: int | 0 <= x < 0x1_0000_0000_0000_0000
  type uint8 = x: int | 0 <= x < 0x100

  function AsString(v: Json): (r: Option<string>)
    ensures r.Some? <==> v.Str?
    ensures r.Some? ==> v == Str(r.value)
  {
    if v.Str? then Some(v.s) else None
  }

  function AsBool(v: Json): (r: Option<bool>)
    ensures r.Some? <==> v.Bool?
    ensures r.Some? ==> v == Bool(r.value)
  {
    if v.Bool? then Some(v.b) else None
  }

  /** A `u64`: an integer in range, taken over unchanged; anything else is rejected. */
  function AsU64(v: Json): (r: Option<uint64>)
    ensures r.Some? <==> v.Int? && 0 <= v.i < 0x1_0000_0000_0000_0000
    ensures r.Some? ==> v == Int(r.value)
  {
    if v.Int? && 0 <= v.i < 0x1_0000_0000_0000_0000 then Some(v.i) else None
  }

  /** A `u8`: an integer in range. */
  function AsU8(v: Json): (r: Option<uint8>)
    ensures r.Some? <==> v.Int? && 0 <= v.i < 0x100
    ensures r.Some? ==> v == Int(r.value)
  {
    if v.Int? && 0 <= v.i < 0x100 then Some(v.i) else None
  }

  /** The primitive writers, partners of the readers above. */
  function FromString(s: string): Json {
    Str(s)
  }

  function FromBool(b: bool): Json {
    Bool(b)
  }

  function FromU64(n: uint64): Json {
    Int(n)
  }

  function FromU8(n: uint8): Json {
    Int(n)
  }

  /** Each primitive reads back what was written for it, and nothing is written as `null`. */
  lemma PrimitivesRoundTrip(s: string, b: bool, n: uint64, m: uint8)
    ensures AsString(FromString(s)) == Some(s) && FromString(s) != Null
    ensures AsBool(FromBool(b)) == Some(b) && FromBool(b) != Null
    ensures AsU64(FromU64(n)) == Some(n) && FromU64(n) != Null
    ensures AsU8(FromU8(m)) == Some(m) && FromU8(m) != Null
  {
  }

  /** A number outside `u64` is rejected rather than wrapped or clamped. */
  lemma U64RejectsOutOfRange(i: int)
    requires i < 0 || i >= 0x1_0000_0000_0000_0000
    ensures AsU64(Int(i)).None?
  {
  }

  // Unit variants

  /** An object with a single key. */
  lemma SingleKey(o: Object, a: string, b: string)
    requires |o| == 1 && a in o && b in o
    ensures a == b
  {
    if a != b {
      assert {a, b} <= o.Keys;
      assert |{a, b}| == 2;
      SubsetCard({a, b}, o.Keys);
    }
  }

  lemma SubsetCard(s: set<string>, t: set<string>)
    requires s <= t
    ensures |s| <= |t|
  {
    if s != {} {
      var x :| x in s;
      SubsetCard(s - {x}, t - {x});
    }
  }

  /** The key of a one-entry object. */
  function OnlyKey(o: Object): (k: string)
    requires |o| == 1
    ensures k in o && forall j :: j in o ==> j == k
  {
    var k :| k in o;
    assert forall a, b :: a in o && b in o ==> a == b by {
      forall a, b | a in o && b in o ensures a == b {
        SingleKey(o, a, b);
      }
    }
    k
  }

  /** The variant name of a unit variant as serde_json reads it: a string holding the name, or
      an object with the name as its only key and `null` as its value. Whether the name is one
      of the enumeration's is for the enumeration's decoder to say. */
  function UnitVariantName(v: Json): (r: Option<string>)
    ensures r.Some? <==> v.Str? || (v.Obj? && |v.fields| == 1 && forall k :: k in v.fields ==> v.fields[k] == Null)
    ensures r.Some? ==> v == Str(r.value) || v == Obj(map[r.value := Null])
  {
    if v.Str? then Some(v.s)
    else if v.Obj? && |v.fields| == 1 then
      var k := OnlyKey(v.fields);
      if v.fields[k] == Null then
        assert v.fields == map[k := Null];
        Some(k)
      else None
    else None
  }

  /** Both forms of a name read as that name. */
  lemma UnitVariantForms(name: string)
    ensures UnitVariantName(Str(name)) == Some(name)
    ensures UnitVariantName(Obj(map[name := Null])) == Some(name)
  {
    var o := map[name := Null];
    assert o.Keys == {name};
    var r := UnitVariantName(Obj(o));
    assert r.Some?;
  }

  /** A `Vec<T>`: an array whose every element reads. */
  function AsArray<T>(v: Json, read: Json -> Option<T>): (r: Option<seq<T>>)
    ensures r.Some? <==> v.Arr? && forall i :: 0 <= i < |v.items| ==> read(v.items[i]).Some?
    ensures r.Some? ==> |r.value| == |v.items|
    ensures r.Some? ==> forall i :: 0 <= i < |v.items| ==> read(v.items[i]) == Some(r.value[i])
  {
    if v.Arr? then ReadAll(v.items, read) else None
  }

  function ReadAll<T>(items: seq<Json>, read: Json -> Option<T>): (r: Option<seq<T>>)
    ensures r.Some? <==> forall i :: 0 <= i < |items| ==> read(items[i]).Some?
    ensures r.Some? ==> |r.value| == |items|
    ensures r.Some? ==> forall i :: 0 <= i < |items| ==> read(items[i]) == Some(r.value[i])
  {
    if items == [] then Some([])
    else
      var x :- read(items[0]);
      var xs :- ReadAll(items[1..], read);
      assert forall i :: 1 <= i < |items| ==> items[i] == items[1..][i - 1];
      Some([x] + xs)
  }

  /** The serializer of a `Vec<T>`. */
  function FromArray<T>(xs: seq<T>, write: T -> Json): (v: Json)
    ensures v.Arr? && |v.items| == |xs|
  {
    Arr(seq(|xs|, i requires 0 <= i < |xs| => write(xs[i])))
  }

  /** Reading back a written array gives the elements back, when each element does. */
  lemma ArrayRoundTrip<T>(xs: seq<T>, read: Json -> Option<T>, write: T -> Json)
    requires forall i :: 0 <= i < |xs| ==> read(write(xs[i])) == Some(xs[i])
    ensures AsArray(FromArray(xs, write), read) == Some(xs)
  {
    var v := FromArray(xs, write);
    assert forall i :: 0 <= i < |xs| ==> v.items[i] == write(xs[i]);
    var r := AsArray(v, read);
    assert r.Some?;
    assert forall i :: 0 <= i < |xs| ==> r.value[i] == xs[i];
    assert r.value == xs;
  }

  /** One bad element rejects the whole array. */
  lemma ArrayRejectsBadElement<T>(v: Json, read: Json -> Option<T>, i: nat)
    requires v.Arr? && i < |v.items| && read(v.items[i]).None?
    ensures AsArray(v, read).None?
  {
  }

  /** The serializer of an `Option<T>`: `None` is written as `null`. */
  function FromOption<T>(x: Option<T>, write: T -> Json): (v: Json)
    ensures x.None? <==> v == Null
    ensures x.Some? ==> v == write(x.value)
    requires x.Some? ==> write(x.value) != Null
  {
    match x
    case None => Null
    case Some(y) => write(y)
  }

  // Struct fields

  /** The value stored under each key of a field table, `None` for a missing key. Unknown keys
      of the object are never looked at. */
  function Slots(o: Object, keys: seq<string>): (r: seq<Option<Json>>)
    ensures |r| == |keys|
  {
    seq(|keys|, i requires 0 <= i < |keys| => if keys[i] in o then Some(o[keys[i]]) else None)
  }

  /** The derived serializer of a struct: one entry per field, under the field's wire name. */
  function ObjectOf(keys: seq<string>, values: seq<Json>): Object
    requires |keys| == |values|
  {
    if keys == [] then map[] else ObjectOf(keys[1..], values[1..])[keys[0] := values[0]]
  }

  /** The written object has exactly the struct's field names as keys. */
  lemma {:induction false} ObjectOfKeys(keys: seq<string>, values: seq<Json>)
    requires |keys| == |values|
    ensures forall k :: k in ObjectOf(keys, values) <==> k in keys
  {
    if keys != [] {
      ObjectOfKeys(keys[1..], values[1..]);
      assert keys == [keys[0]] + keys[1..];
    }
  }

  /** The slots of an object that has every field. */
  function Present(values: seq<Json>): (r: seq<Option<Json>>)
    ensures |r| == |values| && forall i :: 0 <= i < |values| ==> r[i] == Some(values[i])
  {
    seq(|values|, i requires 0 <= i < |values| => Some(values[i]))
  }

  /** Every field is found again under its own name, when no two fields share a name. */
  lemma {:induction false} ObjectOfLookup(keys: seq<string>, values: seq<Json>)
    requires |keys| == |values| && EnumCodec.Distinct(keys)
    ensures forall i :: 0 <= i < |keys| ==> keys[i] in ObjectOf(keys, values) && ObjectOf(keys, values)[keys[i]] == values[i]
  {
    if keys != [] {
      ObjectOfLookup(keys[1..], values[1..]);
      forall i | 0 <= i < |keys|
        ensures keys[i] in ObjectOf(keys, values) && ObjectOf(keys, values)[keys[i]] == values[i]
      {
        if i > 0 {
          assert keys[i] == keys[1..][i - 1];
          assert keys[i] != keys[0];
        }
      }
    }
  }

  /** Reading a struct's fields from the object written for it gives every value back. */
  lemma SlotsOfObject(keys: seq<string>, values: seq<Json>)
    requires |keys| == |values| && EnumCodec.Distinct(keys)
    ensures Slots(ObjectOf(keys, values), keys) == Present(values)
  {
    ObjectOfLookup(keys, values);
  }

  /** Keys outside the field table do not change what a struct reads. */
  lemma SlotsIgnoreUnknownKeys(o: Object, extra: Object, keys: seq<string>)
    requires forall k :: k in extra ==> k !in keys
    ensures Slots(o + extra, keys) == Slots(o, keys)
  {
  }

  /** A required field: present and well-formed. */
  function Required<T>(slot: Option<Json>, read: Json -> Option<T>): (r: Option<T>)
    ensures r.Some? <==> slot.Some? && read(slot.value).Some?
    ensures r.Some? ==> read(slot.value) == r
  {
    match slot
    case None => None
    case Some(v) => read(v)
  }

  /** A plain `Option<T>` field: missing or `null` is `None`; any other value must read. */
  function Optional<T>(slot: Option<Json>, read: Json -> Option<T>): (r: Option<Option<T>>)
    ensures (slot.None? || slot == Some(Null)) ==> r == Some(None)
    ensures slot.Some? && slot.value != Null ==> (r.Some? <==> read(slot.value).Some?)
    ensures r.Some? && r.value.Some? ==> slot.Some? && slot.value != Null && read(slot.value) == r.value
  {
    match slot
    case None => Some(None)
    case Some(Null) => Some(None)
    case Some(v) =>
      var x :- read(v);
      Some(Some(x))
  }

  /** An `Option<T>` field with a `with` adapter: `null` is `None`, but the key must be there. */
  function NullableRequired<T>(slot: Option<Json>, read: Json -> Option<T>): (r: Option<Option<T>>)
    ensures slot.None? ==> r.None?
    ensures slot == Some(Null) ==> r == Some(None)
    ensures slot.Some? && slot.value != Null ==> (r.Some? <==> read(slot.value).Some?)
    ensures r.Some? && r.value.Some? ==> slot.Some? && slot.value != Null && read(slot.value) == r.value
  {
    match slot
    case None => None
    case Some(Null) => Some(None)
    case Some(v) =>
      var x :- read(v);
      Some(Some(x))
  }

  /** A plain optional field never makes up a value: `Some` only for a present, non-null key,
      so a missing optional string is `None`, not the empty string. */
  lemma OptionalNeverInvents<T>(slot: Option<Json>, read: Json -> Option<T>)
    ensures Optional(slot, read).Some? && Optional(slot, read).value.Some? ==> slot.Some? && slot.value != Null
  {
  }

  /** Both optional readers give back what `FromOption` wrote. */
  lemma OptionRoundTrip<T>(x: Option<T>, read: Json -> Option<T>, write: T -> Json)
    requires x.Some? ==> write(x.value) != Null && read(write(x.value)) == Some(x.value)
    ensures Optional(Some(FromOption(x, write)), read) == Some(x)
    ensures NullableRequired(Some(FromOption(x, write)), read) == Some(x)
  {
  }
}
