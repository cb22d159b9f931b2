/** The OAuth2 permission grants of the API (`Scope` in src/types.rs).

    A scope has two textual forms: its serde wire name (`rename_all = "snake_case"`), used when a
    `Scope` appears inside a JSON payload, and its hand-written `Display`, used for the OAuth2
    scope strings and in error messages. The model proves the two agree.
 */
module Scopes {
  import opened Wrappers
  import opened Json
  import EnumCodec

  datatype Scope = Profile | AccreditationStatus | Identity

  /** Declaration order and wire names: `rename_all = "snake_case"`. */
  const AllScopes: seq<Scope> := [Profile, AccreditationStatus, Identity]
  const ScopeNames: seq<string> := ["profile", "accreditation_status", "identity"]

  function ScopeIndex(s: Scope): (k: nat)
    ensures k < |AllScopes| && AllScopes[k] == s
  {
    match s
    case Profile => 0
    case AccreditationStatus => 1
    case Identity => 2
  }

  lemma ScopeTable()
    ensures EnumCodec.IsTable(AllScopes, ScopeNames, ScopeIndex)
  {
  }

  /** The serde wire name. */
  function EncodeScope(s: Scope): string {
    ScopeNames[ScopeIndex(s)]
  }

  /** The serde wire decoder: strict, unknown names are rejected. */
  function DecodeScope(name: string): (r: Option<Scope>)
    ensures r.None? <==> name !in ScopeNames
    ensures r.Some? ==> EncodeScope(r.value) == name
  {
    ScopeTable();
    EnumCodec.EncodeInvertsDecode(AllScopes, ScopeNames, ScopeIndex, name);
    EnumCodec.Decode(AllScopes, ScopeNames, name)
  }

  lemma ScopeRoundTrip(s: Scope)
    ensures DecodeScope(EncodeScope(s)) == Some(s)
  {
    ScopeTable();
    EnumCodec.DecodeInvertsEncode(AllScopes, ScopeNames, ScopeIndex, s);
  }

  lemma ScopeInjective(a: Scope, b: Scope)
    ensures EncodeScope(a) == EncodeScope(b) ==> a == b
  {
    ScopeTable();
    EnumCodec.EncodeInjective(AllScopes, ScopeNames, ScopeIndex, a, b);
  }

  /** The JSON form: the wire name, as a string or as the only key of an object whose value is
      `null`; serde_json reads a unit variant from either. */
  function AsScope(v: Json): (r: Option<Scope>)
    ensures r.Some? <==> UnitVariantName(v).Some? && UnitVariantName(v).value in ScopeNames
    ensures r.Some? ==> v == Str(EncodeScope(r.value)) || v == Obj(map[EncodeScope(r.value) := Null])
  {
    match UnitVariantName(v)
    case None => None
    case Some(name) => DecodeScope(name)
  }

  function FromScope(s: Scope): Json {
    Str(EncodeScope(s))
  }

  /** `impl fmt::Display for Scope`: a hand-written match, independent of serde. */
  function Display(s: Scope): string {
    match s
    case Profile => "profile"
    case AccreditationStatus => "accreditation_status"
    case Identity => "identity"
  }

  /** The hand-written `Display` agrees with the serde name, so the string sent in the OAuth2
      negotiation and the one read back from a payload name the same scope. */
  lemma DisplayIsWireName(s: Scope)
    ensures Display(s) == EncodeScope(s)
    ensures DecodeScope(Display(s)) == Some(s)
  {
    ScopeRoundTrip(s);
  }

  /** Distinct scopes display differently. */
  lemma DisplayInjective(a: Scope, b: Scope)
    ensures Display(a) == Display(b) ==> a == b
  {
    DisplayIsWireName(a);
    DisplayIsWireName(b);
    ScopeInjective(a, b);
  }
}
