/** The payloads of the four client calls: `ProfileResponse`, `AccreditationsResponse`,
    `IdentityResponse` and `DependencyIdentityResponse`.

    `access_expires_at` and `indicated_unaccredited` use the `option` variants of the `time` serde
    adapters: `null` reads as `None`, but the key must be there. `access_revoked_by` is a plain
    option: a missing key or `null` reads as `None`.
 */
module Responses {
  import opened Wrappers
  import opened Json
  import opened Leaves
  import opened Untagged
  import EnumCodec
  import Enums
  import Profiles
  import Accreditations
  import Identity

  /** `ProfileResponse` (src/types.rs:353-366). */
  datatype ProfileResponse = ProfileResponse(
    id: string,
    entityType: Enums.EntityType,
    profile: Either<Profiles.IndividualProfile, Profiles.BusinessProfile>,
    userId: string,
    userProfile: Profiles.IndividualProfile,
    userProvidingFor: Enums.ProvidingFor,
    accessExpiresAt: Option<Rfc3339Time>,
    accessRevokedBy: Option<Enums.RevokeType>
  )

  /** Wire names of the fields, in declaration order. */
  const ProfileResponseKeys: seq<string> := [
    "id",
    "type",
    "profile",
    "user_id",
    "user_profile",
    "user_providing_for",
    "access_expires_at",
    "access_revoked_by"
  ]

  lemma ProfileResponseKeysDistinct()
    ensures EnumCodec.Distinct(ProfileResponseKeys)
  {
  }

  function DecodeProfileResponse(v: Json): (r: Option<ProfileResponse>)
    ensures r.Some? ==> v.Obj?
  {
    if v.Obj? then ProfileResponseFromSlots(Slots(v.fields, ProfileResponseKeys)) else None
  }

  function ProfileResponseFromSlots(f: seq<Option<Json>>): Option<ProfileResponse>
    requires |f| == |ProfileResponseKeys|
  {
    var id := Required(f[0], AsString);
    var entityType := Required(f[1], Enums.AsEntityType);
    var profile := Required(f[2], Profiles.AsProfile);
    var userId := Required(f[3], AsString);
    var userProfile := Required(f[4], Profiles.DecodeIndividualProfile);
    var userProvidingFor := Required(f[5], Enums.AsProvidingFor);
    var accessExpiresAt := NullableRequired(f[6], AsRfc3339Time);
    var accessRevokedBy := Optional(f[7], Enums.AsRevokeType);
    if
      && id.Some?
      && entityType.Some?
      && profile.Some?
      && userId.Some?
      && userProfile.Some?
      && userProvidingFor.Some?
      && accessExpiresAt.Some?
      && accessRevokedBy.Some?
    then
      Some(ProfileResponse(
        id.value,
        entityType.value,
        profile.value,
        userId.value,
        userProfile.value,
        userProvidingFor.value,
        accessExpiresAt.value,
        accessRevokedBy.value
      ))
    else None
  }

  function EncodeProfileResponse(x: ProfileResponse): (v: Json)
    ensures v.Obj?
  {
    Obj(ObjectOf(ProfileResponseKeys, ProfileResponseFields(x)))
  }

  /** The serialized value of field `i`. */
  function ProfileResponseField(x: ProfileResponse, i: nat): Json
    requires i < |ProfileResponseKeys|
  {
    match i
    case 0 => FromString(x.id)
    case 1 => Enums.FromEntityType(x.entityType)
    case 2 => Profiles.FromProfile(x.profile)
    case 3 => FromString(x.userId)
    case 4 => Profiles.EncodeIndividualProfile(x.userProfile)
    case 5 => Enums.FromProvidingFor(x.userProvidingFor)
    case 6 => FromOption(x.accessExpiresAt, FromRfc3339Time)
    case 7 => FromOption(x.accessRevokedBy, Enums.FromRevokeType)
  }

  /** The serialized field values, in declaration order. */
  function ProfileResponseFields(x: ProfileResponse): (vs: seq<Json>)
    ensures |vs| == |ProfileResponseKeys|
  {
    seq(|ProfileResponseKeys|, i requires 0 <= i < |ProfileResponseKeys| => ProfileResponseField(x, i))
  }

  /** Every slot reads as the corresponding field of `x`. */
  predicate ProfileResponseSlotsRead(f: seq<Option<Json>>, x: ProfileResponse)
    requires |f| == |ProfileResponseKeys|
  {
    && Required(f[0], AsString) == Some(x.id)
    && Required(f[1], Enums.AsEntityType) == Some(x.entityType)
    && Required(f[2], Profiles.AsProfile) == Some(x.profile)
    && Required(f[3], AsString) == Some(x.userId)
    && Required(f[4], Profiles.DecodeIndividualProfile) == Some(x.userProfile)
    && Required(f[5], Enums.AsProvidingFor) == Some(x.userProvidingFor)
    && NullableRequired(f[6], AsRfc3339Time) == Some(x.accessExpiresAt)
    && Optional(f[7], Enums.AsRevokeType) == Some(x.accessRevokedBy)
  }

  /** The decoder reads a value exactly when every slot reads as that value's field. */
  lemma ProfileResponseReadsFieldwise(f: seq<Option<Json>>, x: ProfileResponse)
    requires |f| == |ProfileResponseKeys|
    ensures ProfileResponseFromSlots(f) == Some(x) ==> ProfileResponseSlotsRead(f, x)
    ensures ProfileResponseSlotsRead(f, x) ==> ProfileResponseFromSlots(f) == Some(x)
  {
  }

  lemma ProfileResponseEntityTypeRoundTrip(x: ProfileResponse)
    ensures Required(Present(ProfileResponseFields(x))[1], Enums.AsEntityType) == Some(x.entityType)
  {
    assert ProfileResponseFields(x)[1] == Enums.FromEntityType(x.entityType);
    Enums.EntityTypeRoundTrip(x.entityType);
  }

  lemma ProfileResponseProfileRoundTrip(x: ProfileResponse)
    ensures Required(Present(ProfileResponseFields(x))[2], Profiles.AsProfile) == Some(x.profile)
  {
    assert ProfileResponseFields(x)[2] == Profiles.FromProfile(x.profile);
    Profiles.ProfileRoundTrip(x.profile);
  }

  lemma ProfileResponseUserProfileRoundTrip(x: ProfileResponse)
    ensures Required(Present(ProfileResponseFields(x))[4], Profiles.DecodeIndividualProfile) == Some(x.userProfile)
  {
    assert ProfileResponseFields(x)[4] == Profiles.EncodeIndividualProfile(x.userProfile);
    Profiles.IndividualProfileRoundTrip(x.userProfile);
  }

  lemma ProfileResponseUserProvidingForRoundTrip(x: ProfileResponse)
    ensures Required(Present(ProfileResponseFields(x))[5], Enums.AsProvidingFor) == Some(x.userProvidingFor)
  {
    assert ProfileResponseFields(x)[5] == Enums.FromProvidingFor(x.userProvidingFor);
    Enums.ProvidingForRoundTrip(x.userProvidingFor);
  }

  lemma ProfileResponseAccessExpiresAtRoundTrip(x: ProfileResponse)
    ensures NullableRequired(Present(ProfileResponseFields(x))[6], AsRfc3339Time) == Some(x.accessExpiresAt)
  {
    assert ProfileResponseFields(x)[6] == FromOption(x.accessExpiresAt, FromRfc3339Time);
    OptionRoundTrip(x.accessExpiresAt, AsRfc3339Time, FromRfc3339Time);
  }

  lemma ProfileResponseAccessRevokedByRoundTrip(x: ProfileResponse)
    ensures Optional(Present(ProfileResponseFields(x))[7], Enums.AsRevokeType) == Some(x.accessRevokedBy)
  {
    assert ProfileResponseFields(x)[7] == FromOption(x.accessRevokedBy, Enums.FromRevokeType);
    if x.accessRevokedBy.Some? {
      Enums.RevokeTypeRoundTrip(x.accessRevokedBy.value);
    }
    OptionRoundTrip(x.accessRevokedBy, Enums.AsRevokeType, Enums.FromRevokeType);
  }

  lemma ProfileResponsePlainFieldsRoundTrip(x: ProfileResponse)
    ensures Required(Present(ProfileResponseFields(x))[0], AsString) == Some(x.id)
    ensures Required(Present(ProfileResponseFields(x))[3], AsString) == Some(x.userId)
  {
  }

  lemma ProfileResponseFieldsRoundTrip(x: ProfileResponse)
    ensures ProfileResponseFromSlots(Present(ProfileResponseFields(x))) == Some(x)
  {
    ProfileResponsePlainFieldsRoundTrip(x);
    ProfileResponseEntityTypeRoundTrip(x);
    ProfileResponseProfileRoundTrip(x);
    ProfileResponseUserProfileRoundTrip(x);
    ProfileResponseUserProvidingForRoundTrip(x);
    ProfileResponseAccessExpiresAtRoundTrip(x);
    ProfileResponseAccessRevokedByRoundTrip(x);
    ProfileResponseReadsFieldwise(Present(ProfileResponseFields(x)), x);
  }

  lemma ProfileResponseRoundTrip(x: ProfileResponse)
    ensures DecodeProfileResponse(EncodeProfileResponse(x)) == Some(x)
  {
    ProfileResponseKeysDistinct();
    SlotsOfObject(ProfileResponseKeys, ProfileResponseFields(x));
    ProfileResponseFieldsRoundTrip(x);
  }

  /** `AccreditationsResponse` (src/types.rs:368-379). */
  datatype AccreditationsResponse = AccreditationsResponse(
    id: string,
    entityType: Enums.EntityType,
    userId: string,
    indicatedUnaccredited: Option<UnixTime>,
    accreditations: Either<seq<Accreditations.IndividualAccreditation>, seq<Accreditations.BusinessAccreditation>>
  )

  /** Wire names of the fields, in declaration order. */
  const AccreditationsResponseKeys: seq<string> := [
    "id",
    "type",
    "user_id",
    "indicated_unaccredited",
    "accreditations"
  ]

  lemma AccreditationsResponseKeysDistinct()
    ensures EnumCodec.Distinct(AccreditationsResponseKeys)
  {
  }

  function DecodeAccreditationsResponse(v: Json): (r: Option<AccreditationsResponse>)
    ensures r.Some? ==> v.Obj?
  {
    if v.Obj? then AccreditationsResponseFromSlots(Slots(v.fields, AccreditationsResponseKeys)) else None
  }

  function AccreditationsResponseFromSlots(f: seq<Option<Json>>): Option<AccreditationsResponse>
    requires |f| == |AccreditationsResponseKeys|
  {
    var id := Required(f[0], AsString);
    var entityType := Required(f[1], Enums.AsEntityType);
    var userId := Required(f[2], AsString);
    var indicatedUnaccredited := NullableRequired(f[3], AsUnixTime);
    var accreditations := Required(f[4], Accreditations.AsAccreditationLists);
    if
      && id.Some?
      && entityType.Some?
      && userId.Some?
      && indicatedUnaccredited.Some?
      && accreditations.Some?
    then
      Some(AccreditationsResponse(
        id.value,
        entityType.value,
        userId.value,
        indicatedUnaccredited.value,
        accreditations.value
      ))
    else None
  }

  function EncodeAccreditationsResponse(x: AccreditationsResponse): (v: Json)
    ensures v.Obj?
  {
    Obj(ObjectOf(AccreditationsResponseKeys, AccreditationsResponseFields(x)))
  }

  /** The serialized value of field `i`. */
  function AccreditationsResponseField(x: AccreditationsResponse, i: nat): Json
    requires i < |AccreditationsResponseKeys|
  {
    match i
    case 0 => FromString(x.id)
    case 1 => Enums.FromEntityType(x.entityType)
    case 2 => FromString(x.userId)
    case 3 => FromOption(x.indicatedUnaccredited, FromUnixTime)
    case 4 => Accreditations.FromAccreditationLists(x.accreditations)
  }

  /** The serialized field values, in declaration order. */
  function AccreditationsResponseFields(x: AccreditationsResponse): (vs: seq<Json>)
    ensures |vs| == |AccreditationsResponseKeys|
  {
    seq(|AccreditationsResponseKeys|, i requires 0 <= i < |AccreditationsResponseKeys| => AccreditationsResponseField(x, i))
  }

  /** Every slot reads as the corresponding field of `x`. */
  predicate AccreditationsResponseSlotsRead(f: seq<Option<Json>>, x: AccreditationsResponse)
    requires |f| == |AccreditationsResponseKeys|
  {
    && Required(f[0], AsString) == Some(x.id)
    && Required(f[1], Enums.AsEntityType) == Some(x.entityType)
    && Required(f[2], AsString) == Some(x.userId)
    && NullableRequired(f[3], AsUnixTime) == Some(x.indicatedUnaccredited)
    && Required(f[4], Accreditations.AsAccreditationLists) == Some(x.accreditations)
  }

  /** The decoder reads a value exactly when every slot reads as that value's field. */
  lemma AccreditationsResponseReadsFieldwise(f: seq<Option<Json>>, x: AccreditationsResponse)
    requires |f| == |AccreditationsResponseKeys|
    ensures AccreditationsResponseFromSlots(f) == Some(x) ==> AccreditationsResponseSlotsRead(f, x)
    ensures AccreditationsResponseSlotsRead(f, x) ==> AccreditationsResponseFromSlots(f) == Some(x)
  {
  }

  lemma AccreditationsResponseEntityTypeRoundTrip(x: AccreditationsResponse)
    ensures Required(Present(AccreditationsResponseFields(x))[1], Enums.AsEntityType) == Some(x.entityType)
  {
    assert AccreditationsResponseFields(x)[1] == Enums.FromEntityType(x.entityType);
    Enums.EntityTypeRoundTrip(x.entityType);
  }

  lemma AccreditationsResponseIndicatedUnaccreditedRoundTrip(x: AccreditationsResponse)
    ensures NullableRequired(Present(AccreditationsResponseFields(x))[3], AsUnixTime) == Some(x.indicatedUnaccredited)
  {
    assert AccreditationsResponseFields(x)[3] == FromOption(x.indicatedUnaccredited, FromUnixTime);
    OptionRoundTrip(x.indicatedUnaccredited, AsUnixTime, FromUnixTime);
  }

  lemma AccreditationsResponseAccreditationsRoundTrip(x: AccreditationsResponse)
    requires x.accreditations != Right([])
    ensures Required(Present(AccreditationsResponseFields(x))[4], Accreditations.AsAccreditationLists) == Some(x.accreditations)
  {
    assert AccreditationsResponseFields(x)[4] == Accreditations.FromAccreditationLists(x.accreditations);
    Accreditations.AccreditationListsRoundTrip(x.accreditations);
  }

  lemma AccreditationsResponsePlainFieldsRoundTrip(x: AccreditationsResponse)
    ensures Required(Present(AccreditationsResponseFields(x))[0], AsString) == Some(x.id)
    ensures Required(Present(AccreditationsResponseFields(x))[2], AsString) == Some(x.userId)
  {
  }

  lemma AccreditationsResponseFieldsRoundTrip(x: AccreditationsResponse)
    requires x.accreditations != Right([])
    ensures AccreditationsResponseFromSlots(Present(AccreditationsResponseFields(x))) == Some(x)
  {
    AccreditationsResponsePlainFieldsRoundTrip(x);
    AccreditationsResponseEntityTypeRoundTrip(x);
    AccreditationsResponseIndicatedUnaccreditedRoundTrip(x);
    AccreditationsResponseAccreditationsRoundTrip(x);
    AccreditationsResponseReadsFieldwise(Present(AccreditationsResponseFields(x)), x);
  }

  lemma AccreditationsResponseRoundTrip(x: AccreditationsResponse)
    requires x.accreditations != Right([])
    ensures DecodeAccreditationsResponse(EncodeAccreditationsResponse(x)) == Some(x)
  {
    AccreditationsResponseKeysDistinct();
    SlotsOfObject(AccreditationsResponseKeys, AccreditationsResponseFields(x));
    AccreditationsResponseFieldsRoundTrip(x);
  }

  /** `IdentityResponse` (src/types.rs:381-393). */
  datatype IdentityResponse = IdentityResponse(
    id: string,
    entityType: Enums.EntityType,
    identityDetails: Either<Identity.BusinessIdentityDetails, Identity.IndividualIdentityDetails>,
    userId: string,
    userProvidingFor: Enums.ProvidingFor,
    accessExpiresAt: Option<Rfc3339Time>,
    accessRevokedBy: Option<Enums.RevokeType>
  )

  /** Wire names of the fields, in declaration order. */
  const IdentityResponseKeys: seq<string> := [
    "id",
    "type",
    "identity_details",
    "user_id",
    "user_providing_for",
    "access_expires_at",
    "access_revoked_by"
  ]

  lemma IdentityResponseKeysDistinct()
    ensures EnumCodec.Distinct(IdentityResponseKeys)
  {
  }

  function DecodeIdentityResponse(v: Json): (r: Option<IdentityResponse>)
    ensures r.Some? ==> v.Obj?
  {
    if v.Obj? then IdentityResponseFromSlots(Slots(v.fields, IdentityResponseKeys)) else None
  }

  function IdentityResponseFromSlots(f: seq<Option<Json>>): Option<IdentityResponse>
    requires |f| == |IdentityResponseKeys|
  {
    var id := Required(f[0], AsString);
    var entityType := Required(f[1], Enums.AsEntityType);
    var identityDetails := Required(f[2], Identity.AsIdentityDetails);
    var userId := Required(f[3], AsString);
    var userProvidingFor := Required(f[4], Enums.AsProvidingFor);
    var accessExpiresAt := NullableRequired(f[5], AsRfc3339Time);
    var accessRevokedBy := Optional(f[6], Enums.AsRevokeType);
    if
      && id.Some?
      && entityType.Some?
      && identityDetails.Some?
      && userId.Some?
      && userProvidingFor.Some?
      && accessExpiresAt.Some?
      && accessRevokedBy.Some?
    then
      Some(IdentityResponse(
        id.value,
        entityType.value,
        identityDetails.value,
        userId.value,
        userProvidingFor.value,
        accessExpiresAt.value,
        accessRevokedBy.value
      ))
    else None
  }

  function EncodeIdentityResponse(x: IdentityResponse): (v: Json)
    ensures v.Obj?
  {
    Obj(ObjectOf(IdentityResponseKeys, IdentityResponseFields(x)))
  }

  /** The serialized value of field `i`. */
  function IdentityResponseField(x: IdentityResponse, i: nat): Json
    requires i < |IdentityResponseKeys|
  {
    match i
    case 0 => FromString(x.id)
    case 1 => Enums.FromEntityType(x.entityType)
    case 2 => Identity.FromIdentityDetails(x.identityDetails)
    case 3 => FromString(x.userId)
    case 4 => Enums.FromProvidingFor(x.userProvidingFor)
    case 5 => FromOption(x.accessExpiresAt, FromRfc3339Time)
    case 6 => FromOption(x.accessRevokedBy, Enums.FromRevokeType)
  }

  /** The serialized field values, in declaration order. */
  function IdentityResponseFields(x: IdentityResponse): (vs: seq<Json>)
    ensures |vs| == |IdentityResponseKeys|
  {
    seq(|IdentityResponseKeys|, i requires 0 <= i < |IdentityResponseKeys| => IdentityResponseField(x, i))
  }

  /** Every slot reads as the corresponding field of `x`. */
  predicate IdentityResponseSlotsRead(f: seq<Option<Json>>, x: IdentityResponse)
    requires |f| == |IdentityResponseKeys|
  {
    && Required(f[0], AsString) == Some(x.id)
    && Required(f[1], Enums.AsEntityType) == Some(x.entityType)
    && Required(f[2], Identity.AsIdentityDetails) == Some(x.identityDetails)
    && Required(f[3], AsString) == Some(x.userId)
    && Required(f[4], Enums.AsProvidingFor) == Some(x.userProvidingFor)
    && NullableRequired(f[5], AsRfc3339Time) == Some(x.accessExpiresAt)
    && Optional(f[6], Enums.AsRevokeType) == Some(x.accessRevokedBy)
  }

  /** The decoder reads a value exactly when every slot reads as that value's field. */
  lemma IdentityResponseReadsFieldwise(f: seq<Option<Json>>, x: IdentityResponse)
    requires |f| == |IdentityResponseKeys|
    ensures IdentityResponseFromSlots(f) == Some(x) ==> IdentityResponseSlotsRead(f, x)
    ensures IdentityResponseSlotsRead(f, x) ==> IdentityResponseFromSlots(f) == Some(x)
  {
  }

  lemma IdentityResponseEntityTypeRoundTrip(x: IdentityResponse)
    ensures Required(Present(IdentityResponseFields(x))[1], Enums.AsEntityType) == Some(x.entityType)
  {
    assert IdentityResponseFields(x)[1] == Enums.FromEntityType(x.entityType);
    Enums.EntityTypeRoundTrip(x.entityType);
  }

  lemma IdentityResponseIdentityDetailsRoundTrip(x: IdentityResponse)
    ensures Required(Present(IdentityResponseFields(x))[2], Identity.AsIdentityDetails) == Some(x.identityDetails)
  {
    assert IdentityResponseFields(x)[2] == Identity.FromIdentityDetails(x.identityDetails);
    Identity.IdentityDetailsRoundTrip(x.identityDetails);
  }

  lemma IdentityResponseUserProvidingForRoundTrip(x: IdentityResponse)
    ensures Required(Present(IdentityResponseFields(x))[4], Enums.AsProvidingFor) == Some(x.userProvidingFor)
  {
    assert IdentityResponseFields(x)[4] == Enums.FromProvidingFor(x.userProvidingFor);
    Enums.ProvidingForRoundTrip(x.userProvidingFor);
  }

  lemma IdentityResponseAccessExpiresAtRoundTrip(x: IdentityResponse)
    ensures NullableRequired(Present(IdentityResponseFields(x))[5], AsRfc3339Time) == Some(x.accessExpiresAt)
  {
    assert IdentityResponseFields(x)[5] == FromOption(x.accessExpiresAt, FromRfc3339Time);
    OptionRoundTrip(x.accessExpiresAt, AsRfc3339Time, FromRfc3339Time);
  }

  lemma IdentityResponseAccessRevokedByRoundTrip(x: IdentityResponse)
    ensures Optional(Present(IdentityResponseFields(x))[6], Enums.AsRevokeType) == Some(x.accessRevokedBy)
  {
    assert IdentityResponseFields(x)[6] == FromOption(x.accessRevokedBy, Enums.FromRevokeType);
    if x.accessRevokedBy.Some? {
      Enums.RevokeTypeRoundTrip(x.accessRevokedBy.value);
    }
    OptionRoundTrip(x.accessRevokedBy, Enums.AsRevokeType, Enums.FromRevokeType);
  }

  lemma IdentityResponsePlainFieldsRoundTrip(x: IdentityResponse)
    ensures Required(Present(IdentityResponseFields(x))[0], AsString) == Some(x.id)
    ensures Required(Present(IdentityResponseFields(x))[3], AsString) == Some(x.userId)
  {
  }

  lemma IdentityResponseFieldsRoundTrip(x: IdentityResponse)
    ensures IdentityResponseFromSlots(Present(IdentityResponseFields(x))) == Some(x)
  {
    IdentityResponsePlainFieldsRoundTrip(x);
    IdentityResponseEntityTypeRoundTrip(x);
    IdentityResponseIdentityDetailsRoundTrip(x);
    IdentityResponseUserProvidingForRoundTrip(x);
    IdentityResponseAccessExpiresAtRoundTrip(x);
    IdentityResponseAccessRevokedByRoundTrip(x);
    IdentityResponseReadsFieldwise(Present(IdentityResponseFields(x)), x);
  }

  lemma IdentityResponseRoundTrip(x: IdentityResponse)
    ensures DecodeIdentityResponse(EncodeIdentityResponse(x)) == Some(x)
  {
    IdentityResponseKeysDistinct();
    SlotsOfObject(IdentityResponseKeys, IdentityResponseFields(x));
    IdentityResponseFieldsRoundTrip(x);
  }

  /** `DependencyIdentityResponse` (src/types.rs:395-407). */
  datatype DependencyIdentityResponse = DependencyIdentityResponse(
    id: string,
    entityType: Enums.EntityType,
    identityDetails: Either<Identity.BusinessIdentityDetails, Identity.IndividualIdentityDetails>,
    userId: string,
    accessExpiresAt: Option<Rfc3339Time>,
    accessRevokedBy: Option<Enums.RevokeType>
  )

  /** Wire names of the fields, in declaration order. */
  const DependencyIdentityResponseKeys: seq<string> := [
    "id",
    "type",
    "identity_details",
    "user_id",
    "access_expires_at",
    "access_revoked_by"
  ]

  lemma DependencyIdentityResponseKeysDistinct()
    ensures EnumCodec.Distinct(DependencyIdentityResponseKeys)
  {
  }

  function DecodeDependencyIdentityResponse(v: Json): (r: Option<DependencyIdentityResponse>)
    ensures r.Some? ==> v.Obj?
  {
    if v.Obj? then DependencyIdentityResponseFromSlots(Slots(v.fields, DependencyIdentityResponseKeys)) else None
  }

  function DependencyIdentityResponseFromSlots(f: seq<Option<Json>>): Option<DependencyIdentityResponse>
    requires |f| == |DependencyIdentityResponseKeys|
  {
    var id := Required(f[0], AsString);
    var entityType := Required(f[1], Enums.AsEntityType);
    var identityDetails := Required(f[2], Identity.AsIdentityDetails);
    var userId := Required(f[3], AsString);
    var accessExpiresAt := NullableRequired(f[4], AsRfc3339Time);
    var accessRevokedBy := Optional(f[5], Enums.AsRevokeType);
    if
      && id.Some?
      && entityType.Some?
      && identityDetails.Some?
      && userId.Some?
      && accessExpiresAt.Some?
      && accessRevokedBy.Some?
    then
      Some(DependencyIdentityResponse(
        id.value,
        entityType.value,
        identityDetails.value,
        userId.value,
        accessExpiresAt.value,
        accessRevokedBy.value
      ))
    else None
  }

  function EncodeDependencyIdentityResponse(x: DependencyIdentityResponse): (v: Json)
    ensures v.Obj?
  {
    Obj(ObjectOf(DependencyIdentityResponseKeys, DependencyIdentityResponseFields(x)))
  }

  /** The serialized value of field `i`. */
  function DependencyIdentityResponseField(x: DependencyIdentityResponse, i: nat): Json
    requires i < |DependencyIdentityResponseKeys|
  {
    match i
    case 0 => FromString(x.id)
    case 1 => Enums.FromEntityType(x.entityType)
    case 2 => Identity.FromIdentityDetails(x.identityDetails)
    case 3 => FromString(x.userId)
    case 4 => FromOption(x.accessExpiresAt, FromRfc3339Time)
    case 5 => FromOption(x.accessRevokedBy, Enums.FromRevokeType)
  }

  /** The serialized field values, in declaration order. */
  function DependencyIdentityResponseFields(x: DependencyIdentityResponse): (vs: seq<Json>)
    ensures |vs| == |DependencyIdentityResponseKeys|
  {
    seq(|DependencyIdentityResponseKeys|, i requires 0 <= i < |DependencyIdentityResponseKeys| => DependencyIdentityResponseField(x, i))
  }

  /** Every slot reads as the corresponding field of `x`. */
  predicate DependencyIdentityResponseSlotsRead(f: seq<Option<Json>>, x: DependencyIdentityResponse)
    requires |f| == |DependencyIdentityResponseKeys|
  {
    && Required(f[0], AsString) == Some(x.id)
    && Required(f[1], Enums.AsEntityType) == Some(x.entityType)
    && Required(f[2], Identity.AsIdentityDetails) == Some(x.identityDetails)
    && Required(f[3], AsString) == Some(x.userId)
    && NullableRequired(f[4], AsRfc3339Time) == Some(x.accessExpiresAt)
    && Optional(f[5], Enums.AsRevokeType) == Some(x.accessRevokedBy)
  }

  /** The decoder reads a value exactly when every slot reads as that value's field. */
  lemma DependencyIdentityResponseReadsFieldwise(f: seq<Option<Json>>, x: DependencyIdentityResponse)
    requires |f| == |DependencyIdentityResponseKeys|
    ensures DependencyIdentityResponseFromSlots(f) == Some(x) ==> DependencyIdentityResponseSlotsRead(f, x)
    ensures DependencyIdentityResponseSlotsRead(f, x) ==> DependencyIdentityResponseFromSlots(f) == Some(x)
  {
  }

  lemma DependencyIdentityResponseEntityTypeRoundTrip(x: DependencyIdentityResponse)
    ensures Required(Present(DependencyIdentityResponseFields(x))[1], Enums.AsEntityType) == Some(x.entityType)
  {
    assert DependencyIdentityResponseFields(x)[1] == Enums.FromEntityType(x.entityType);
    Enums.EntityTypeRoundTrip(x.entityType);
  }

  lemma DependencyIdentityResponseIdentityDetailsRoundTrip(x: DependencyIdentityResponse)
    ensures Required(Present(DependencyIdentityResponseFields(x))[2], Identity.AsIdentityDetails) == Some(x.identityDetails)
  {
    assert DependencyIdentityResponseFields(x)[2] == Identity.FromIdentityDetails(x.identityDetails);
    Identity.IdentityDetailsRoundTrip(x.identityDetails);
  }

  lemma DependencyIdentityResponseAccessExpiresAtRoundTrip(x: DependencyIdentityResponse)
    ensures NullableRequired(Present(DependencyIdentityResponseFields(x))[4], AsRfc3339Time) == Some(x.accessExpiresAt)
  {
    assert DependencyIdentityResponseFields(x)[4] == FromOption(x.accessExpiresAt, FromRfc3339Time);
    OptionRoundTrip(x.accessExpiresAt, AsRfc3339Time, FromRfc3339Time);
  }

  lemma DependencyIdentityResponseAccessRevokedByRoundTrip(x: DependencyIdentityResponse)
    ensures Optional(Present(DependencyIdentityResponseFields(x))[5], Enums.AsRevokeType) == Some(x.accessRevokedBy)
  {
    assert DependencyIdentityResponseFields(x)[5] == FromOption(x.accessRevokedBy, Enums.FromRevokeType);
    if x.accessRevokedBy.Some? {
      Enums.RevokeTypeRoundTrip(x.accessRevokedBy.value);
    }
    OptionRoundTrip(x.accessRevokedBy, Enums.AsRevokeType, Enums.FromRevokeType);
  }

  lemma DependencyIdentityResponsePlainFieldsRoundTrip(x: DependencyIdentityResponse)
    ensures Required(Present(DependencyIdentityResponseFields(x))[0], AsString) == Some(x.id)
    ensures Required(Present(DependencyIdentityResponseFields(x))[3], AsString) == Some(x.userId)
  {
  }

  lemma DependencyIdentityResponseFieldsRoundTrip(x: DependencyIdentityResponse)
    ensures DependencyIdentityResponseFromSlots(Present(DependencyIdentityResponseFields(x))) == Some(x)
  {
    DependencyIdentityResponsePlainFieldsRoundTrip(x);
    DependencyIdentityResponseEntityTypeRoundTrip(x);
    DependencyIdentityResponseIdentityDetailsRoundTrip(x);
    DependencyIdentityResponseAccessExpiresAtRoundTrip(x);
    DependencyIdentityResponseAccessRevokedByRoundTrip(x);
    DependencyIdentityResponseReadsFieldwise(Present(DependencyIdentityResponseFields(x)), x);
  }

  lemma DependencyIdentityResponseRoundTrip(x: DependencyIdentityResponse)
    ensures DecodeDependencyIdentityResponse(EncodeDependencyIdentityResponse(x)) == Some(x)
  {
    DependencyIdentityResponseKeysDistinct();
    SlotsOfObject(DependencyIdentityResponseKeys, DependencyIdentityResponseFields(x));
    DependencyIdentityResponseFieldsRoundTrip(x);
  }

  // Optional and nullable fields

  /** `access_expires_at` has a `with` adapter, so `null` is accepted but a missing key is not. */
  lemma AccessExpiryMustBePresent(v: Json)
    requires v.Obj? && "access_expires_at" !in v.fields
    ensures DecodeProfileResponse(v).None?
    ensures DecodeIdentityResponse(v).None?
    ensures DecodeDependencyIdentityResponse(v).None?
  {
  }

  /** `indicated_unaccredited` has a `with` adapter too. */
  lemma IndicatedUnaccreditedMustBePresent(v: Json)
    requires v.Obj? && "indicated_unaccredited" !in v.fields
    ensures DecodeAccreditationsResponse(v).None?
  {
  }

  /** `access_revoked_by` is a plain option: a missing key reads as `None`. */
  lemma ProfileResponseRevokedByMayBeMissing(v: Json)
    requires v.Obj? && "access_revoked_by" !in v.fields
    ensures DecodeProfileResponse(v).Some? ==> DecodeProfileResponse(v).value.accessRevokedBy.None?
  {
    if DecodeProfileResponse(v).Some? {
      ProfileResponseReadsFieldwise(Slots(v.fields, ProfileResponseKeys), DecodeProfileResponse(v).value);
    }
  }

  /** The same holds of an identity response. */
  lemma IdentityResponseRevokedByMayBeMissing(v: Json)
    requires v.Obj? && "access_revoked_by" !in v.fields
    ensures DecodeIdentityResponse(v).Some? ==> DecodeIdentityResponse(v).value.accessRevokedBy.None?
  {
    if DecodeIdentityResponse(v).Some? {
      IdentityResponseReadsFieldwise(Slots(v.fields, IdentityResponseKeys), DecodeIdentityResponse(v).value);
    }
  }

  /** And of a dependency identity response. */
  lemma DependencyIdentityResponseRevokedByMayBeMissing(v: Json)
    requires v.Obj? && "access_revoked_by" !in v.fields
    ensures DecodeDependencyIdentityResponse(v).Some? ==> DecodeDependencyIdentityResponse(v).value.accessRevokedBy.None?
  {
    if DecodeDependencyIdentityResponse(v).Some? {
      DependencyIdentityResponseReadsFieldwise(Slots(v.fields, DependencyIdentityResponseKeys), DecodeDependencyIdentityResponse(v).value);
    }
  }

  /** A response whose business accreditation list is empty reads back with an empty list of
      individual accreditations instead; nothing else about it changes. */
  lemma EmptyBusinessListReadsAsIndividual(x: AccreditationsResponse)
    requires x.accreditations == Right([])
    ensures DecodeAccreditationsResponse(EncodeAccreditationsResponse(x)) == Some(x.(accreditations := Left([])))
  {
    var y := x.(accreditations := Left([]));
    AccreditationsResponseRoundTrip(y);
    Accreditations.EmptyAccreditationsReadAsIndividual();
    assert AccreditationsResponseFields(x) == AccreditationsResponseFields(y);
  }
}
