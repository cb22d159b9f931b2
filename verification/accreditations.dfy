/** Accreditation records: `AccreditationDocument`, `BusinessAccreditation` and
    `IndividualAccreditation`, and the untagged list of either kind carried by an accreditations
    response.

    The timestamp fields use `time::serde::timestamp`; `expires_at` and `certified_at` use its
    `option` variant, so they may be `null` but must be present.
 */
module Accreditations {
  import opened Wrappers
  import opened Json
  import opened Leaves
  import opened Untagged
  import EnumCodec
  import Enums

  /** `AccreditationDocument` (src/types.rs:96-103). */
  datatype AccreditationDocument = AccreditationDocument(
    downloadUrl: string,
    downloadUrlExpires: uint64,
    documentType: Enums.DocumentType
  )

  /** Wire names of the fields, in declaration order. */
  const AccreditationDocumentKeys: seq<string> := ["download_url", "download_url_expires", "type"]

  lemma AccreditationDocumentKeysDistinct()
    ensures EnumCodec.Distinct(AccreditationDocumentKeys)
  {
  }

  function DecodeAccreditationDocument(v: Json): (r: Option<AccreditationDocument>)
    ensures r.Some? ==> v.Obj?
  {
    if v.Obj? then AccreditationDocumentFromSlots(Slots(v.fields, AccreditationDocumentKeys)) else None
  }

  function AccreditationDocumentFromSlots(f: seq<Option<Json>>): Option<AccreditationDocument>
    requires |f| == |AccreditationDocumentKeys|
  {
    var downloadUrl := Required(f[0], AsString);
    var downloadUrlExpires := Required(f[1], AsU64);
    var documentType := Required(f[2], Enums.AsDocumentType);
    if downloadUrl.Some? && downloadUrlExpires.Some? && documentType.Some? then
      Some(AccreditationDocument(downloadUrl.value, downloadUrlExpires.value, documentType.value))
    else None
  }

  function EncodeAccreditationDocument(x: AccreditationDocument): (v: Json)
    ensures v.Obj?
  {
    Obj(ObjectOf(AccreditationDocumentKeys, AccreditationDocumentFields(x)))
  }

  /** The serialized value of field `i`. */
  function AccreditationDocumentField(x: AccreditationDocument, i: nat): Json
    requires i < |AccreditationDocumentKeys|
  {
    match i
    case 0 => FromString(x.downloadUrl)
    case 1 => FromU64(x.downloadUrlExpires)
    case 2 => Enums.FromDocumentType(x.documentType)
  }

  /** The serialized field values, in declaration order. */
  function AccreditationDocumentFields(x: AccreditationDocument): (vs: seq<Json>)
    ensures |vs| == |AccreditationDocumentKeys|
  {
    seq(|AccreditationDocumentKeys|, i requires 0 <= i < |AccreditationDocumentKeys| => AccreditationDocumentField(x, i))
  }

  /** Every slot reads as the corresponding field of `x`. */
  predicate AccreditationDocumentSlotsRead(f: seq<Option<Json>>, x: AccreditationDocument)
    requires |f| == |AccreditationDocumentKeys|
  {
    && Required(f[0], AsString) == Some(x.downloadUrl)
    && Required(f[1], AsU64) == Some(x.downloadUrlExpires)
    && Required(f[2], Enums.AsDocumentType) == Some(x.documentType)
  }

  /** The decoder reads a value exactly when every slot reads as that value's field. */
  lemma AccreditationDocumentReadsFieldwise(f: seq<Option<Json>>, x: AccreditationDocument)
    requires |f| == |AccreditationDocumentKeys|
    ensures AccreditationDocumentFromSlots(f) == Some(x) ==> AccreditationDocumentSlotsRead(f, x)
    ensures AccreditationDocumentSlotsRead(f, x) ==> AccreditationDocumentFromSlots(f) == Some(x)
  {
  }

  lemma AccreditationDocumentDocumentTypeRoundTrip(x: AccreditationDocument)
    ensures Required(Present(AccreditationDocumentFields(x))[2], Enums.AsDocumentType) == Some(x.documentType)
  {
    assert AccreditationDocumentFields(x)[2] == Enums.FromDocumentType(x.documentType);
    Enums.DocumentTypeRoundTrip(x.documentType);
  }

  lemma AccreditationDocumentPlainFieldsRoundTrip(x: AccreditationDocument)
    ensures Required(Present(AccreditationDocumentFields(x))[0], AsString) == Some(x.downloadUrl)
    ensures Required(Present(AccreditationDocumentFields(x))[1], AsU64) == Some(x.downloadUrlExpires)
  {
  }

  lemma AccreditationDocumentFieldsRoundTrip(x: AccreditationDocument)
    ensures AccreditationDocumentFromSlots(Present(AccreditationDocumentFields(x))) == Some(x)
  {
    AccreditationDocumentPlainFieldsRoundTrip(x);
    AccreditationDocumentDocumentTypeRoundTrip(x);
    AccreditationDocumentReadsFieldwise(Present(AccreditationDocumentFields(x)), x);
  }

  lemma AccreditationDocumentRoundTrip(x: AccreditationDocument)
    ensures DecodeAccreditationDocument(EncodeAccreditationDocument(x)) == Some(x)
  {
    AccreditationDocumentKeysDistinct();
    SlotsOfObject(AccreditationDocumentKeys, AccreditationDocumentFields(x));
    AccreditationDocumentFieldsRoundTrip(x);
  }

  function AsAccreditationDocumentList(v: Json): Option<seq<AccreditationDocument>> {
    AsArray(v, DecodeAccreditationDocument)
  }

  function FromAccreditationDocumentList(xs: seq<AccreditationDocument>): Json {
    FromArray(xs, EncodeAccreditationDocument)
  }

  lemma AccreditationDocumentListRoundTrip(xs: seq<AccreditationDocument>)
    ensures AsAccreditationDocumentList(FromAccreditationDocumentList(xs)) == Some(xs)
  {
    forall i | 0 <= i < |xs|
      ensures DecodeAccreditationDocument(EncodeAccreditationDocument(xs[i])) == Some(xs[i])
    {
      AccreditationDocumentRoundTrip(xs[i]);
    }
    ArrayRoundTrip(xs, DecodeAccreditationDocument, EncodeAccreditationDocument);
  }

  /** `BusinessAccreditation` (src/types.rs:131-144). */
  datatype BusinessAccreditation = BusinessAccreditation(
    id: string,
    status: Enums.AccreditationStatus,
    expiresAt: Option<UnixTime>,
    assertionType: Enums.BusinessAssertionType,
    createdAt: UnixTime,
    certifiedAt: Option<UnixTime>,
    name: string,
    documents: seq<AccreditationDocument>
  )

  /** Wire names of the fields, in declaration order. */
  const BusinessAccreditationKeys: seq<string> := [
    "id",
    "status",
    "expires_at",
    "assertion_type",
    "created_at",
    "certified_at",
    "name",
    "documents"
  ]

  lemma BusinessAccreditationKeysDistinct()
    ensures EnumCodec.Distinct(BusinessAccreditationKeys)
  {
  }

  function DecodeBusinessAccreditation(v: Json): (r: Option<BusinessAccreditation>)
    ensures r.Some? ==> v.Obj?
  {
    if v.Obj? then BusinessAccreditationFromSlots(Slots(v.fields, BusinessAccreditationKeys)) else None
  }

  function BusinessAccreditationFromSlots(f: seq<Option<Json>>): Option<BusinessAccreditation>
    requires |f| == |BusinessAccreditationKeys|
  {
    var id := Required(f[0], AsString);
    var status := Required(f[1], Enums.AsAccreditationStatus);
    var expiresAt := NullableRequired(f[2], AsUnixTime);
    var assertionType := Required(f[3], Enums.AsBusinessAssertionType);
    var createdAt := Required(f[4], AsUnixTime);
    var certifiedAt := NullableRequired(f[5], AsUnixTime);
    var name := Required(f[6], AsString);
    var documents := Required(f[7], AsAccreditationDocumentList);
    if
      && id.Some?
      && status.Some?
      && expiresAt.Some?
      && assertionType.Some?
      && createdAt.Some?
      && certifiedAt.Some?
      && name.Some?
      && documents.Some?
    then
      Some(BusinessAccreditation(
        id.value,
        status.value,
        expiresAt.value,
        assertionType.value,
        createdAt.value,
        certifiedAt.value,
        name.value,
        documents.value
      ))
    else None
  }

  function EncodeBusinessAccreditation(x: BusinessAccreditation): (v: Json)
    ensures v.Obj?
  {
    Obj(ObjectOf(BusinessAccreditationKeys, BusinessAccreditationFields(x)))
  }

  /** The serialized value of field `i`. */
  function BusinessAccreditationField(x: BusinessAccreditation, i: nat): Json
    requires i < |BusinessAccreditationKeys|
  {
    match i
    case 0 => FromString(x.id)
    case 1 => Enums.FromAccreditationStatus(x.status)
    case 2 => FromOption(x.expiresAt, FromUnixTime)
    case 3 => Enums.FromBusinessAssertionType(x.assertionType)
    case 4 => FromUnixTime(x.createdAt)
    case 5 => FromOption(x.certifiedAt, FromUnixTime)
    case 6 => FromString(x.name)
    case 7 => FromAccreditationDocumentList(x.documents)
  }

  /** The serialized field values, in declaration order. */
  function BusinessAccreditationFields(x: BusinessAccreditation): (vs: seq<Json>)
    ensures |vs| == |BusinessAccreditationKeys|
  {
    seq(|BusinessAccreditationKeys|, i requires 0 <= i < |BusinessAccreditationKeys| => BusinessAccreditationField(x, i))
  }

  /** Every slot reads as the corresponding field of `x`. */
  predicate BusinessAccreditationSlotsRead(f: seq<Option<Json>>, x: BusinessAccreditation)
    requires |f| == |BusinessAccreditationKeys|
  {
    && Required(f[0], AsString) == Some(x.id)
    && Required(f[1], Enums.AsAccreditationStatus) == Some(x.status)
    && NullableRequired(f[2], AsUnixTime) == Some(x.expiresAt)
    && Required(f[3], Enums.AsBusinessAssertionType) == Some(x.assertionType)
    && Required(f[4], AsUnixTime) == Some(x.createdAt)
    && NullableRequired(f[5], AsUnixTime) == Some(x.certifiedAt)
    && Required(f[6], AsString) == Some(x.name)
    && Required(f[7], AsAccreditationDocumentList) == Some(x.documents)
  }

  /** The decoder reads a value exactly when every slot reads as that value's field. */
  lemma BusinessAccreditationReadsFieldwise(f: seq<Option<Json>>, x: BusinessAccreditation)
    requires |f| == |BusinessAccreditationKeys|
    ensures BusinessAccreditationFromSlots(f) == Some(x) ==> BusinessAccreditationSlotsRead(f, x)
    ensures BusinessAccreditationSlotsRead(f, x) ==> BusinessAccreditationFromSlots(f) == Some(x)
  {
  }

  lemma BusinessAccreditationStatusRoundTrip(x: BusinessAccreditation)
    ensures Required(Present(BusinessAccreditationFields(x))[1], Enums.AsAccreditationStatus) == Some(x.status)
  {
    assert BusinessAccreditationFields(x)[1] == Enums.FromAccreditationStatus(x.status);
    Enums.AccreditationStatusRoundTrip(x.status);
  }

  lemma BusinessAccreditationExpiresAtRoundTrip(x: BusinessAccreditation)
    ensures NullableRequired(Present(BusinessAccreditationFields(x))[2], AsUnixTime) == Some(x.expiresAt)
  {
    assert BusinessAccreditationFields(x)[2] == FromOption(x.expiresAt, FromUnixTime);
    OptionRoundTrip(x.expiresAt, AsUnixTime, FromUnixTime);
  }

  lemma BusinessAccreditationAssertionTypeRoundTrip(x: BusinessAccreditation)
    ensures Required(Present(BusinessAccreditationFields(x))[3], Enums.AsBusinessAssertionType) == Some(x.assertionType)
  {
    assert BusinessAccreditationFields(x)[3] == Enums.FromBusinessAssertionType(x.assertionType);
    Enums.BusinessAssertionTypeRoundTrip(x.assertionType);
  }

  lemma BusinessAccreditationCertifiedAtRoundTrip(x: BusinessAccreditation)
    ensures NullableRequired(Present(BusinessAccreditationFields(x))[5], AsUnixTime) == Some(x.certifiedAt)
  {
    assert BusinessAccreditationFields(x)[5] == FromOption(x.certifiedAt, FromUnixTime);
    OptionRoundTrip(x.certifiedAt, AsUnixTime, FromUnixTime);
  }

  lemma BusinessAccreditationDocumentsRoundTrip(x: BusinessAccreditation)
    ensures Required(Present(BusinessAccreditationFields(x))[7], AsAccreditationDocumentList) == Some(x.documents)
  {
    assert BusinessAccreditationFields(x)[7] == FromAccreditationDocumentList(x.documents);
    AccreditationDocumentListRoundTrip(x.documents);
  }

  lemma BusinessAccreditationPlainFieldsRoundTrip(x: BusinessAccreditation)
    ensures Required(Present(BusinessAccreditationFields(x))[0], AsString) == Some(x.id)
    ensures Required(Present(BusinessAccreditationFields(x))[4], AsUnixTime) == Some(x.createdAt)
    ensures Required(Present(BusinessAccreditationFields(x))[6], AsString) == Some(x.name)
  {
  }

  lemma BusinessAccreditationFieldsRoundTrip(x: BusinessAccreditation)
    ensures BusinessAccreditationFromSlots(Present(BusinessAccreditationFields(x))) == Some(x)
  {
    BusinessAccreditationPlainFieldsRoundTrip(x);
    BusinessAccreditationStatusRoundTrip(x);
    BusinessAccreditationExpiresAtRoundTrip(x);
    BusinessAccreditationAssertionTypeRoundTrip(x);
    BusinessAccreditationCertifiedAtRoundTrip(x);
    BusinessAccreditationDocumentsRoundTrip(x);
    BusinessAccreditationReadsFieldwise(Present(BusinessAccreditationFields(x)), x);
  }

  lemma BusinessAccreditationRoundTrip(x: BusinessAccreditation)
    ensures DecodeBusinessAccreditation(EncodeBusinessAccreditation(x)) == Some(x)
  {
    BusinessAccreditationKeysDistinct();
    SlotsOfObject(BusinessAccreditationKeys, BusinessAccreditationFields(x));
    BusinessAccreditationFieldsRoundTrip(x);
  }

  function AsBusinessAccreditationList(v: Json): Option<seq<BusinessAccreditation>> {
    AsArray(v, DecodeBusinessAccreditation)
  }

  function FromBusinessAccreditationList(xs: seq<BusinessAccreditation>): Json {
    FromArray(xs, EncodeBusinessAccreditation)
  }

  lemma BusinessAccreditationListRoundTrip(xs: seq<BusinessAccreditation>)
    ensures AsBusinessAccreditationList(FromBusinessAccreditationList(xs)) == Some(xs)
  {
    forall i | 0 <= i < |xs|
      ensures DecodeBusinessAccreditation(EncodeBusinessAccreditation(xs[i])) == Some(xs[i])
    {
      BusinessAccreditationRoundTrip(xs[i]);
    }
    ArrayRoundTrip(xs, DecodeBusinessAccreditation, EncodeBusinessAccreditation);
  }

  /** `IndividualAccreditation` (src/types.rs:159-173). */
  datatype IndividualAccreditation = IndividualAccreditation(
    id: string,
    status: Enums.AccreditationStatus,
    expiresAt: Option<UnixTime>,
    assertionType: Enums.IndividualAssertionType,
    createdAt: UnixTime,
    certifiedAt: Option<UnixTime>,
    firstName: string,
    lastName: string,
    documents: seq<AccreditationDocument>
  )

  /** Wire names of the fields, in declaration order. */
  const IndividualAccreditationKeys: seq<string> := [
    "id",
    "status",
    "expires_at",
    "assertion_type",
    "created_at",
    "certified_at",
    "first_name",
    "last_name",
    "documents"
  ]

  lemma IndividualAccreditationKeysDistinct()
    ensures EnumCodec.Distinct(IndividualAccreditationKeys)
  {
  }

  function DecodeIndividualAccreditation(v: Json): (r: Option<IndividualAccreditation>)
    ensures r.Some? ==> v.Obj?
  {
    if v.Obj? then IndividualAccreditationFromSlots(Slots(v.fields, IndividualAccreditationKeys)) else None
  }

  function IndividualAccreditationFromSlots(f: seq<Option<Json>>): Option<IndividualAccreditation>
    requires |f| == |IndividualAccreditationKeys|
  {
    var id := Required(f[0], AsString);
    var status := Required(f[1], Enums.AsAccreditationStatus);
    var expiresAt := NullableRequired(f[2], AsUnixTime);
    var assertionType := Required(f[3], Enums.AsIndividualAssertionType);
    var createdAt := Required(f[4], AsUnixTime);
    var certifiedAt := NullableRequired(f[5], AsUnixTime);
    var firstName := Required(f[6], AsString);
    var lastName := Required(f[7], AsString);
    var documents := Required(f[8], AsAccreditationDocumentList);
    if
      && id.Some?
      && status.Some?
      && expiresAt.Some?
      && assertionType.Some?
      && createdAt.Some?
      && certifiedAt.Some?
      && firstName.Some?
      && lastName.Some?
      && documents.Some?
    then
      Some(IndividualAccreditation(
        id.value,
        status.value,
        expiresAt.value,
        assertionType.value,
        createdAt.value,
        certifiedAt.value,
        firstName.value,
        lastName.value,
        documents.value
      ))
    else None
  }

  function EncodeIndividualAccreditation(x: IndividualAccreditation): (v: Json)
    ensures v.Obj?
  {
    Obj(ObjectOf(IndividualAccreditationKeys, IndividualAccreditationFields(x)))
  }

  /** The serialized value of field `i`. */
  function IndividualAccreditationField(x: IndividualAccreditation, i: nat): Json
    requires i < |IndividualAccreditationKeys|
  {
    match i
    case 0 => FromString(x.id)
    case 1 => Enums.FromAccreditationStatus(x.status)
    case 2 => FromOption(x.expiresAt, FromUnixTime)
    case 3 => Enums.FromIndividualAssertionType(x.assertionType)
    case 4 => FromUnixTime(x.createdAt)
    case 5 => FromOption(x.certifiedAt, FromUnixTime)
    case 6 => FromString(x.firstName)
    case 7 => FromString(x.lastName)
    case 8 => FromAccreditationDocumentList(x.documents)
  }

  /** The serialized field values, in declaration order. */
  function IndividualAccreditationFields(x: IndividualAccreditation): (vs: seq<Json>)
    ensures |vs| == |IndividualAccreditationKeys|
  {
    seq(|IndividualAccreditationKeys|, i requires 0 <= i < |IndividualAccreditationKeys| => IndividualAccreditationField(x, i))
  }

  /** Every slot reads as the corresponding field of `x`. */
  predicate IndividualAccreditationSlotsRead(f: seq<Option<Json>>, x: IndividualAccreditation)
    requires |f| == |IndividualAccreditationKeys|
  {
    && Required(f[0], AsString) == Some(x.id)
    && Required(f[1], Enums.AsAccreditationStatus) == Some(x.status)
    && NullableRequired(f[2], AsUnixTime) == Some(x.expiresAt)
    && Required(f[3], Enums.AsIndividualAssertionType) == Some(x.assertionType)
    && Required(f[4], AsUnixTime) == Some(x.createdAt)
    && NullableRequired(f[5], AsUnixTime) == Some(x.certifiedAt)
    && Required(f[6], AsString) == Some(x.firstName)
    && Required(f[7], AsString) == Some(x.lastName)
    && Required(f[8], AsAccreditationDocumentList) == Some(x.documents)
  }

  /** The decoder reads a value exactly when every slot reads as that value's field. */
  lemma IndividualAccreditationReadsFieldwise(f: seq<Option<Json>>, x: IndividualAccreditation)
    requires |f| == |IndividualAccreditationKeys|
    ensures IndividualAccreditationFromSlots(f) == Some(x) ==> IndividualAccreditationSlotsRead(f, x)
    ensures IndividualAccreditationSlotsRead(f, x) ==> IndividualAccreditationFromSlots(f) == Some(x)
  {
  }

  lemma IndividualAccreditationStatusRoundTrip(x: IndividualAccreditation)
    ensures Required(Present(IndividualAccreditationFields(x))[1], Enums.AsAccreditationStatus) == Some(x.status)
  {
    assert IndividualAccreditationFields(x)[1] == Enums.FromAccreditationStatus(x.status);
    Enums.AccreditationStatusRoundTrip(x.status);
  }

  lemma IndividualAccreditationExpiresAtRoundTrip(x: IndividualAccreditation)
    ensures NullableRequired(Present(IndividualAccreditationFields(x))[2], AsUnixTime) == Some(x.expiresAt)
  {
    assert IndividualAccreditationFields(x)[2] == FromOption(x.expiresAt, FromUnixTime);
    OptionRoundTrip(x.expiresAt, AsUnixTime, FromUnixTime);
  }

  lemma IndividualAccreditationAssertionTypeRoundTrip(x: IndividualAccreditation)
    ensures Required(Present(IndividualAccreditationFields(x))[3], Enums.AsIndividualAssertionType) == Some(x.assertionType)
  {
    assert IndividualAccreditationFields(x)[3] == Enums.FromIndividualAssertionType(x.assertionType);
    Enums.IndividualAssertionTypeRoundTrip(x.assertionType);
  }

  lemma IndividualAccreditationCertifiedAtRoundTrip(x: IndividualAccreditation)
    ensures NullableRequired(Present(IndividualAccreditationFields(x))[5], AsUnixTime) == Some(x.certifiedAt)
  {
    assert IndividualAccreditationFields(x)[5] == FromOption(x.certifiedAt, FromUnixTime);
    OptionRoundTrip(x.certifiedAt, AsUnixTime, FromUnixTime);
  }

  lemma IndividualAccreditationDocumentsRoundTrip(x: IndividualAccreditation)
    ensures Required(Present(IndividualAccreditationFields(x))[8], AsAccreditationDocumentList) == Some(x.documents)
  {
    assert IndividualAccreditationFields(x)[8] == FromAccreditationDocumentList(x.documents);
    AccreditationDocumentListRoundTrip(x.documents);
  }

  lemma IndividualAccreditationPlainFieldsRoundTrip(x: IndividualAccreditation)
    ensures Required(Present(IndividualAccreditationFields(x))[0], AsString) == Some(x.id)
    ensures Required(Present(IndividualAccreditationFields(x))[4], AsUnixTime) == Some(x.createdAt)
    ensures Required(Present(IndividualAccreditationFields(x))[6], AsString) == Some(x.firstName)
    ensures Required(Present(IndividualAccreditationFields(x))[7], AsString) == Some(x.lastName)
  {
  }

  lemma IndividualAccreditationFieldsRoundTrip(x: IndividualAccreditation)
    ensures IndividualAccreditationFromSlots(Present(IndividualAccreditationFields(x))) == Some(x)
  {
    IndividualAccreditationPlainFieldsRoundTrip(x);
    IndividualAccreditationStatusRoundTrip(x);
    IndividualAccreditationExpiresAtRoundTrip(x);
    IndividualAccreditationAssertionTypeRoundTrip(x);
    IndividualAccreditationCertifiedAtRoundTrip(x);
    IndividualAccreditationDocumentsRoundTrip(x);
    IndividualAccreditationReadsFieldwise(Present(IndividualAccreditationFields(x)), x);
  }

  lemma IndividualAccreditationRoundTrip(x: IndividualAccreditation)
    ensures DecodeIndividualAccreditation(EncodeIndividualAccreditation(x)) == Some(x)
  {
    IndividualAccreditationKeysDistinct();
    SlotsOfObject(IndividualAccreditationKeys, IndividualAccreditationFields(x));
    IndividualAccreditationFieldsRoundTrip(x);
  }

  function AsIndividualAccreditationList(v: Json): Option<seq<IndividualAccreditation>> {
    AsArray(v, DecodeIndividualAccreditation)
  }

  function FromIndividualAccreditationList(xs: seq<IndividualAccreditation>): Json {
    FromArray(xs, EncodeIndividualAccreditation)
  }

  lemma IndividualAccreditationListRoundTrip(xs: seq<IndividualAccreditation>)
    ensures AsIndividualAccreditationList(FromIndividualAccreditationList(xs)) == Some(xs)
  {
    forall i | 0 <= i < |xs|
      ensures DecodeIndividualAccreditation(EncodeIndividualAccreditation(xs[i])) == Some(xs[i])
    {
      IndividualAccreditationRoundTrip(xs[i]);
    }
    ArrayRoundTrip(xs, DecodeIndividualAccreditation, EncodeIndividualAccreditation);
  }

  /** `download_url_expires` is the number sent, taken over without conversion. */
  lemma AccreditationDocumentExpiryIsCarried(v: Json)
    requires DecodeAccreditationDocument(v).Some?
    ensures "download_url_expires" in v.fields
    ensures v.fields["download_url_expires"] == Int(DecodeAccreditationDocument(v).value.downloadUrlExpires)
  {
  }

  /** `expires_at` and `certified_at` may be `null`, but an accreditation without the keys is
      rejected. */
  lemma AccreditationTimesMustBePresent(v: Json)
    requires v.Obj? && ("expires_at" !in v.fields || "certified_at" !in v.fields)
    ensures DecodeIndividualAccreditation(v).None?
    ensures DecodeBusinessAccreditation(v).None?
  {
  }

  // The untagged accreditation list

  /** `accreditations` tries a list of individual accreditations first. */
  function AsAccreditationLists(v: Json): Option<Either<seq<IndividualAccreditation>, seq<BusinessAccreditation>>> {
    DecodeUntagged(v, AsIndividualAccreditationList, AsBusinessAccreditationList)
  }

  function FromAccreditationLists(e: Either<seq<IndividualAccreditation>, seq<BusinessAccreditation>>): Json {
    EncodeUntagged(e, FromIndividualAccreditationList, FromBusinessAccreditationList)
  }

  /** An individual accreditation requires `first_name`; an object without it is not one. */
  lemma IndividualAccreditationNeedsFirstName(v: Json)
    requires v.Obj? && "first_name" !in v.fields
    ensures DecodeIndividualAccreditation(v).None?
  {
  }

  /** A written, non-empty list of business accreditations is not a list of individual ones:
      its first element has no `first_name`. */
  lemma IndividualListRejectsBusinessList(xs: seq<BusinessAccreditation>)
    requires xs != []
    ensures AsIndividualAccreditationList(FromBusinessAccreditationList(xs)).None?
  {
    var v := FromBusinessAccreditationList(xs);
    assert v.items[0] == EncodeBusinessAccreditation(xs[0]);
    ObjectOfKeys(BusinessAccreditationKeys, BusinessAccreditationFields(xs[0]));
    assert "first_name" !in BusinessAccreditationKeys;
    IndividualAccreditationNeedsFirstName(v.items[0]);
    ArrayRejectsBadElement(v, DecodeIndividualAccreditation, 0);
  }

  /** An empty array fits both kinds; the individual kind, tried first, takes it. So an empty
      list of business accreditations reads back as an empty list of individual ones. */
  lemma EmptyAccreditationsReadAsIndividual()
    ensures AsAccreditationLists(FromAccreditationLists(Right([]))) == Some(Left([]))
    ensures AsAccreditationLists(FromAccreditationLists(Left([]))) == Some(Left([]))
  {
    assert FromAccreditationLists(Right([])) == Arr([]);
    assert FromAccreditationLists(Left([])) == Arr([]);
  }

  /** Every list reads back as written, except the empty business list. */
  lemma AccreditationListsRoundTrip(e: Either<seq<IndividualAccreditation>, seq<BusinessAccreditation>>)
    requires e != Right([])
    ensures AsAccreditationLists(FromAccreditationLists(e)) == Some(e)
  {
    match e
    case Left(xs) =>
      IndividualAccreditationListRoundTrip(xs);
    case Right(xs) =>
      IndividualListRejectsBusinessList(xs);
      BusinessAccreditationListRoundTrip(xs);
    UntaggedRoundTrip(e, AsIndividualAccreditationList, AsBusinessAccreditationList,
                      FromIndividualAccreditationList, FromBusinessAccreditationList);
  }
}
