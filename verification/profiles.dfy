/** The two profile shapes, `IndividualProfile` and `BusinessProfile`, and how the untagged
    `profile` fields choose between them.

    `ProfileResponse.profile` tries the individual shape first; `BeneficialOwnerReference.profile`
    tries the business shape first. Each shape reads exactly the objects that carry its required
    fields, and the two shapes written by the serializer never overlap, so both fields read back
    what was written. An object carrying both sets of fields reads differently in the two places.
 */
module Profiles {
  import opened Wrappers
  import opened Json
  import opened Untagged
  import EnumCodec
  import Enums

  /** `IndividualProfile` (src/types.rs:83-88). */
  datatype IndividualProfile = IndividualProfile(
    firstName: string,
    lastName: string,
    email: Option<string>
  )

  /** Wire names of the fields, in declaration order. */
  const IndividualProfileKeys: seq<string> := ["first_name", "last_name", "email"]

  lemma IndividualProfileKeysDistinct()
    ensures EnumCodec.Distinct(IndividualProfileKeys)
  {
  }

  function DecodeIndividualProfile(v: Json): (r: Option<IndividualProfile>)
    ensures r.Some? ==> v.Obj?
  {
    if v.Obj? then IndividualProfileFromSlots(Slots(v.fields, IndividualProfileKeys)) else None
  }

  function IndividualProfileFromSlots(f: seq<Option<Json>>): Option<IndividualProfile>
    requires |f| == |IndividualProfileKeys|
  {
    var firstName := Required(f[0], AsString);
    var lastName := Required(f[1], AsString);
    var email := Optional(f[2], AsString);
    if firstName.Some? && lastName.Some? && email.Some? then
      Some(IndividualProfile(firstName.value, lastName.value, email.value))
    else None
  }

  function EncodeIndividualProfile(x: IndividualProfile): (v: Json)
    ensures v.Obj?
  {
    Obj(ObjectOf(IndividualProfileKeys, IndividualProfileFields(x)))
  }

  /** The serialized value of field `i`. */
  function IndividualProfileField(x: IndividualProfile, i: nat): Json
    requires i < |IndividualProfileKeys|
  {
    match i
    case 0 => FromString(x.firstName)
    case 1 => FromString(x.lastName)
    case 2 => FromOption(x.email, FromString)
  }

  /** The serialized field values, in declaration order. */
  function IndividualProfileFields(x: IndividualProfile): (vs: seq<Json>)
    ensures |vs| == |IndividualProfileKeys|
  {
    seq(|IndividualProfileKeys|, i requires 0 <= i < |IndividualProfileKeys| => IndividualProfileField(x, i))
  }

  /** Every slot reads as the corresponding field of `x`. */
  predicate IndividualProfileSlotsRead(f: seq<Option<Json>>, x: IndividualProfile)
    requires |f| == |IndividualProfileKeys|
  {
    && Required(f[0], AsString) == Some(x.firstName)
    && Required(f[1], AsString) == Some(x.lastName)
    && Optional(f[2], AsString) == Some(x.email)
  }

  /** The decoder reads a value exactly when every slot reads as that value's field. */
  lemma IndividualProfileReadsFieldwise(f: seq<Option<Json>>, x: IndividualProfile)
    requires |f| == |IndividualProfileKeys|
    ensures IndividualProfileFromSlots(f) == Some(x) ==> IndividualProfileSlotsRead(f, x)
    ensures IndividualProfileSlotsRead(f, x) ==> IndividualProfileFromSlots(f) == Some(x)
  {
  }

  lemma IndividualProfileEmailRoundTrip(x: IndividualProfile)
    ensures Optional(Present(IndividualProfileFields(x))[2], AsString) == Some(x.email)
  {
    assert IndividualProfileFields(x)[2] == FromOption(x.email, FromString);
    OptionRoundTrip(x.email, AsString, FromString);
  }

  lemma IndividualProfilePlainFieldsRoundTrip(x: IndividualProfile)
    ensures Required(Present(IndividualProfileFields(x))[0], AsString) == Some(x.firstName)
    ensures Required(Present(IndividualProfileFields(x))[1], AsString) == Some(x.lastName)
  {
  }

  lemma IndividualProfileFieldsRoundTrip(x: IndividualProfile)
    ensures IndividualProfileFromSlots(Present(IndividualProfileFields(x))) == Some(x)
  {
    IndividualProfilePlainFieldsRoundTrip(x);
    IndividualProfileEmailRoundTrip(x);
    IndividualProfileReadsFieldwise(Present(IndividualProfileFields(x)), x);
  }

  lemma IndividualProfileRoundTrip(x: IndividualProfile)
    ensures DecodeIndividualProfile(EncodeIndividualProfile(x)) == Some(x)
  {
    IndividualProfileKeysDistinct();
    SlotsOfObject(IndividualProfileKeys, IndividualProfileFields(x));
    IndividualProfileFieldsRoundTrip(x);
  }

  /** `BusinessProfile` (src/types.rs:76-81). */
  datatype BusinessProfile = BusinessProfile(
    name: string,
    businessType: Enums.BusinessType,
    primaryContact: Option<IndividualProfile>
  )

  /** Wire names of the fields, in declaration order. */
  const BusinessProfileKeys: seq<string> := ["name", "business_type", "primary_contact"]

  lemma BusinessProfileKeysDistinct()
    ensures EnumCodec.Distinct(BusinessProfileKeys)
  {
  }

  function DecodeBusinessProfile(v: Json): (r: Option<BusinessProfile>)
    ensures r.Some? ==> v.Obj?
  {
    if v.Obj? then BusinessProfileFromSlots(Slots(v.fields, BusinessProfileKeys)) else None
  }

  function BusinessProfileFromSlots(f: seq<Option<Json>>): Option<BusinessProfile>
    requires |f| == |BusinessProfileKeys|
  {
    var name := Required(f[0], AsString);
    var businessType := Required(f[1], Enums.AsBusinessType);
    var primaryContact := Optional(f[2], DecodeIndividualProfile);
    if name.Some? && businessType.Some? && primaryContact.Some? then
      Some(BusinessProfile(name.value, businessType.value, primaryContact.value))
    else None
  }

  function EncodeBusinessProfile(x: BusinessProfile): (v: Json)
    ensures v.Obj?
  {
    Obj(ObjectOf(BusinessProfileKeys, BusinessProfileFields(x)))
  }

  /** The serialized value of field `i`. */
  function BusinessProfileField(x: BusinessProfile, i: nat): Json
    requires i < |BusinessProfileKeys|
  {
    match i
    case 0 => FromString(x.name)
    case 1 => Enums.FromBusinessType(x.businessType)
    case 2 => FromOption(x.primaryContact, EncodeIndividualProfile)
  }

  /** The serialized field values, in declaration order. */
  function BusinessProfileFields(x: BusinessProfile): (vs: seq<Json>)
    ensures |vs| == |BusinessProfileKeys|
  {
    seq(|BusinessProfileKeys|, i requires 0 <= i < |BusinessProfileKeys| => BusinessProfileField(x, i))
  }

  /** Every slot reads as the corresponding field of `x`. */
  predicate BusinessProfileSlotsRead(f: seq<Option<Json>>, x: BusinessProfile)
    requires |f| == |BusinessProfileKeys|
  {
    && Required(f[0], AsString) == Some(x.name)
    && Required(f[1], Enums.AsBusinessType) == Some(x.businessType)
    && Optional(f[2], DecodeIndividualProfile) == Some(x.primaryContact)
  }

  /** The decoder reads a value exactly when every slot reads as that value's field. */
  lemma BusinessProfileReadsFieldwise(f: seq<Option<Json>>, x: BusinessProfile)
    requires |f| == |BusinessProfileKeys|
    ensures BusinessProfileFromSlots(f) == Some(x) ==> BusinessProfileSlotsRead(f, x)
    ensures BusinessProfileSlotsRead(f, x) ==> BusinessProfileFromSlots(f) == Some(x)
  {
  }

  lemma BusinessProfileBusinessTypeRoundTrip(x: BusinessProfile)
    ensures Required(Present(BusinessProfileFields(x))[1], Enums.AsBusinessType) == Some(x.businessType)
  {
    assert BusinessProfileFields(x)[1] == Enums.FromBusinessType(x.businessType);
    Enums.BusinessTypeRoundTrip(x.businessType);
  }

  lemma BusinessProfilePrimaryContactRoundTrip(x: BusinessProfile)
    ensures Optional(Present(BusinessProfileFields(x))[2], DecodeIndividualProfile) == Some(x.primaryContact)
  {
    assert BusinessProfileFields(x)[2] == FromOption(x.primaryContact, EncodeIndividualProfile);
    if x.primaryContact.Some? {
      IndividualProfileRoundTrip(x.primaryContact.value);
    }
    OptionRoundTrip(x.primaryContact, DecodeIndividualProfile, EncodeIndividualProfile);
  }

  lemma BusinessProfilePlainFieldsRoundTrip(x: BusinessProfile)
    ensures Required(Present(BusinessProfileFields(x))[0], AsString) == Some(x.name)
  {
  }

  lemma BusinessProfileFieldsRoundTrip(x: BusinessProfile)
    ensures BusinessProfileFromSlots(Present(BusinessProfileFields(x))) == Some(x)
  {
    BusinessProfilePlainFieldsRoundTrip(x);
    BusinessProfileBusinessTypeRoundTrip(x);
    BusinessProfilePrimaryContactRoundTrip(x);
    BusinessProfileReadsFieldwise(Present(BusinessProfileFields(x)), x);
  }

  lemma BusinessProfileRoundTrip(x: BusinessProfile)
    ensures DecodeBusinessProfile(EncodeBusinessProfile(x)) == Some(x)
  {
    BusinessProfileKeysDistinct();
    SlotsOfObject(BusinessProfileKeys, BusinessProfileFields(x));
    BusinessProfileFieldsRoundTrip(x);
  }


  // Required-field shapes

  /** An object carrying the individual profile's required fields, each of the right kind. */
  predicate IndividualProfileShape(v: Json) {
    && v.Obj?
    && "first_name" in v.fields && v.fields["first_name"].Str?
    && "last_name" in v.fields && v.fields["last_name"].Str?
    && ("email" in v.fields ==> v.fields["email"].Null? || v.fields["email"].Str?)
  }

  /** A business type in either of its wire forms: its name as a string, or an object whose
      only key is its name and whose value is `null`. */
  predicate NamesBusinessType(w: Json) {
    || (w.Str? && w.s in Enums.BusinessTypeNames)
    || (w.Obj? && |w.fields| == 1 && forall k :: k in w.fields ==> k in Enums.BusinessTypeNames && w.fields[k] == Null)
  }

  /** An object carrying the business profile's required fields, each of the right kind. */
  predicate BusinessProfileShape(v: Json) {
    && v.Obj?
    && "name" in v.fields && v.fields["name"].Str?
    && "business_type" in v.fields && NamesBusinessType(v.fields["business_type"])
    && ("primary_contact" in v.fields ==>
          v.fields["primary_contact"].Null? || IndividualProfileShape(v.fields["primary_contact"]))
  }

  lemma IndividualProfileReadsItsShape(v: Json)
    ensures DecodeIndividualProfile(v).Some? <==> IndividualProfileShape(v)
  {
  }

  lemma BusinessProfileReadsItsShape(v: Json)
    ensures DecodeBusinessProfile(v).Some? <==> BusinessProfileShape(v)
  {
    if v.Obj? && "primary_contact" in v.fields {
      IndividualProfileReadsItsShape(v.fields["primary_contact"]);
    }
  }

  /** What the serializer writes for one shape never has the other shape's required fields. */
  lemma ShapesOfWrittenProfilesAreDisjoint(p: IndividualProfile, b: BusinessProfile)
    ensures DecodeBusinessProfile(EncodeIndividualProfile(p)).None?
    ensures DecodeIndividualProfile(EncodeBusinessProfile(b)).None?
  {
    ObjectOfKeys(IndividualProfileKeys, IndividualProfileFields(p));
    ObjectOfKeys(BusinessProfileKeys, BusinessProfileFields(b));
    assert "name" !in IndividualProfileKeys;
    assert "first_name" !in BusinessProfileKeys;
  }

  // The untagged `profile` fields

  /** `ProfileResponse.profile`: `Either<IndividualProfile, BusinessProfile>`, individual first. */
  function AsProfile(v: Json): Option<Either<IndividualProfile, BusinessProfile>> {
    DecodeUntagged(v, DecodeIndividualProfile, DecodeBusinessProfile)
  }

  function FromProfile(e: Either<IndividualProfile, BusinessProfile>): Json {
    EncodeUntagged(e, EncodeIndividualProfile, EncodeBusinessProfile)
  }

  /** `BeneficialOwnerReference.profile`: `Either<BusinessProfile, IndividualProfile>`, business
      first. */
  function AsOwnerProfile(v: Json): Option<Either<BusinessProfile, IndividualProfile>> {
    DecodeUntagged(v, DecodeBusinessProfile, DecodeIndividualProfile)
  }

  function FromOwnerProfile(e: Either<BusinessProfile, IndividualProfile>): Json {
    EncodeUntagged(e, EncodeBusinessProfile, EncodeIndividualProfile)
  }

  lemma ProfileRoundTrip(e: Either<IndividualProfile, BusinessProfile>)
    ensures AsProfile(FromProfile(e)) == Some(e)
  {
    match e
    case Left(p) =>
      IndividualProfileRoundTrip(p);
    case Right(b) =>
      BusinessProfileRoundTrip(b);
      ShapesOfWrittenProfilesAreDisjoint(IndividualProfile("", "", None), b);
    UntaggedRoundTrip(e, DecodeIndividualProfile, DecodeBusinessProfile, EncodeIndividualProfile, EncodeBusinessProfile);
  }

  lemma OwnerProfileRoundTrip(e: Either<BusinessProfile, IndividualProfile>)
    ensures AsOwnerProfile(FromOwnerProfile(e)) == Some(e)
  {
    match e
    case Left(b) =>
      BusinessProfileRoundTrip(b);
    case Right(p) =>
      IndividualProfileRoundTrip(p);
      ShapesOfWrittenProfilesAreDisjoint(p, BusinessProfile("", Enums.PublicCharity, None));
    UntaggedRoundTrip(e, DecodeBusinessProfile, DecodeIndividualProfile, EncodeBusinessProfile, EncodeIndividualProfile);
  }

  /** An object with both shapes is an individual in a profile response and a business in a
      beneficial-owner reference. */
  lemma TrialOrderDecidesOverlap(v: Json)
    requires IndividualProfileShape(v) && BusinessProfileShape(v)
    ensures AsProfile(v) == Some(Left(DecodeIndividualProfile(v).value))
    ensures AsOwnerProfile(v) == Some(Left(DecodeBusinessProfile(v).value))
  {
    IndividualProfileReadsItsShape(v);
    BusinessProfileReadsItsShape(v);
  }

  /** Such objects exist: the two shapes share no required key. */
  const BothShapes: Json := Obj(map[
    "first_name" := Str("Ada"),
    "last_name" := Str("Lovelace"),
    "name" := Str("Analytical Engines"),
    "business_type" := Str("Partnership LLC")
  ])

  lemma BothShapesHasBoth()
    ensures IndividualProfileShape(BothShapes) && BusinessProfileShape(BothShapes)
  {
    assert "Partnership LLC" == Enums.BusinessTypeNames[6];
  }

  lemma BothShapesOverlap()
    ensures AsProfile(BothShapes).Some? && AsProfile(BothShapes).value.Left?
    ensures AsOwnerProfile(BothShapes).Some? && AsOwnerProfile(BothShapes).value.Left?
  {
    BothShapesHasBoth();
    TrialOrderDecidesOverlap(BothShapes);
  }
}
