/** Identity records: locations, identity documents, risk-monitor matches, the references to
    beneficial owners and control persons, and the business and individual identity details.

    The `completed_at` and `expires_at` fields use `time::serde::rfc3339`. Opaque leaves (dates,
    country codes, decimals) are kept as read.
 */
module Identity {
  import opened Wrappers
  import opened Json
  import opened Leaves
  import opened Untagged
  import EnumCodec
  import Enums
  import Profiles

  /** `Location` (src/types.rs:28-37). */
  datatype Location = Location(
    addressOne: string,
    addressTwo: string,
    city: string,
    region: Option<string>,
    postalCode: string,
    state: Option<string>,
    country: CountryCode
  )

  /** Wire names of the fields, in declaration order. */
  const LocationKeys: seq<string> := [
    "address_one",
    "address_two",
    "city",
    "region",
    "postal_code",
    "state",
    "country"
  ]

  lemma LocationKeysDistinct()
    ensures EnumCodec.Distinct(LocationKeys)
  {
  }

  function DecodeLocation(v: Json): (r: Option<Location>)
    ensures r.Some? ==> v.Obj?
  {
    if v.Obj? then LocationFromSlots(Slots(v.fields, LocationKeys)) else None
  }

  function LocationFromSlots(f: seq<Option<Json>>): Option<Location>
    requires |f| == |LocationKeys|
  {
    var addressOne := Required(f[0], AsString);
    var addressTwo := Required(f[1], AsString);
    var city := Required(f[2], AsString);
    var region := Optional(f[3], AsString);
    var postalCode := Required(f[4], AsString);
    var state := Optional(f[5], AsString);
    var country := Required(f[6], AsCountryCode);
    if
      && addressOne.Some?
      && addressTwo.Some?
      && city.Some?
      && region.Some?
      && postalCode.Some?
      && state.Some?
      && country.Some?
    then
      Some(Location(
        addressOne.value,
        addressTwo.value,
        city.value,
        region.value,
        postalCode.value,
        state.value,
        country.value
      ))
    else None
  }

  function EncodeLocation(x: Location): (v: Json)
    ensures v.Obj?
  {
    Obj(ObjectOf(LocationKeys, LocationFields(x)))
  }

  /** The serialized value of field `i`. */
  function LocationField(x: Location, i: nat): Json
    requires i < |LocationKeys|
  {
    match i
    case 0 => FromString(x.addressOne)
    case 1 => FromString(x.addressTwo)
    case 2 => FromString(x.city)
    case 3 => FromOption(x.region, FromString)
    case 4 => FromString(x.postalCode)
    case 5 => FromOption(x.state, FromString)
    case 6 => FromCountryCode(x.country)
  }

  /** The serialized field values, in declaration order. */
  function LocationFields(x: Location): (vs: seq<Json>)
    ensures |vs| == |LocationKeys|
  {
    seq(|LocationKeys|, i requires 0 <= i < |LocationKeys| => LocationField(x, i))
  }

  /** Every slot reads as the corresponding field of `x`. */
  predicate LocationSlotsRead(f: seq<Option<Json>>, x: Location)
    requires |f| == |LocationKeys|
  {
    && Required(f[0], AsString) == Some(x.addressOne)
    && Required(f[1], AsString) == Some(x.addressTwo)
    && Required(f[2], AsString) == Some(x.city)
    && Optional(f[3], AsString) == Some(x.region)
    && Required(f[4], AsString) == Some(x.postalCode)
    && Optional(f[5], AsString) == Some(x.state)
    && Required(f[6], AsCountryCode) == Some(x.country)
  }

  /** The decoder reads a value exactly when every slot reads as that value's field. */
  lemma LocationReadsFieldwise(f: seq<Option<Json>>, x: Location)
    requires |f| == |LocationKeys|
    ensures LocationFromSlots(f) == Some(x) ==> LocationSlotsRead(f, x)
    ensures LocationSlotsRead(f, x) ==> LocationFromSlots(f) == Some(x)
  {
  }

  lemma LocationRegionRoundTrip(x: Location)
    ensures Optional(Present(LocationFields(x))[3], AsString) == Some(x.region)
  {
    assert LocationFields(x)[3] == FromOption(x.region, FromString);
    OptionRoundTrip(x.region, AsString, FromString);
  }

  lemma LocationStateRoundTrip(x: Location)
    ensures Optional(Present(LocationFields(x))[5], AsString) == Some(x.state)
  {
    assert LocationFields(x)[5] == FromOption(x.state, FromString);
    OptionRoundTrip(x.state, AsString, FromString);
  }

  lemma LocationPlainFieldsRoundTrip1(x: Location)
    ensures Required(Present(LocationFields(x))[0], AsString) == Some(x.addressOne)
    ensures Required(Present(LocationFields(x))[1], AsString) == Some(x.addressTwo)
    ensures Required(Present(LocationFields(x))[2], AsString) == Some(x.city)
    ensures Required(Present(LocationFields(x))[4], AsString) == Some(x.postalCode)
  {
  }

  lemma LocationPlainFieldsRoundTrip2(x: Location)
    ensures Required(Present(LocationFields(x))[6], AsCountryCode) == Some(x.country)
  {
  }

  lemma LocationFieldsRoundTrip(x: Location)
    ensures LocationFromSlots(Present(LocationFields(x))) == Some(x)
  {
    LocationPlainFieldsRoundTrip1(x);
    LocationPlainFieldsRoundTrip2(x);
    LocationRegionRoundTrip(x);
    LocationStateRoundTrip(x);
    LocationReadsFieldwise(Present(LocationFields(x)), x);
  }

  lemma LocationRoundTrip(x: Location)
    ensures DecodeLocation(EncodeLocation(x)) == Some(x)
  {
    LocationKeysDistinct();
    SlotsOfObject(LocationKeys, LocationFields(x));
    LocationFieldsRoundTrip(x);
  }

  /** `UserSession` (src/types.rs:39-43). */
  datatype UserSession = UserSession(maybeAnonymizingProxy: bool)

  /** Wire names of the fields, in declaration order. */
  const UserSessionKeys: seq<string> := ["maybe_anonymizing_proxy"]

  lemma UserSessionKeysDistinct()
    ensures EnumCodec.Distinct(UserSessionKeys)
  {
  }

  function DecodeUserSession(v: Json): (r: Option<UserSession>)
    ensures r.Some? ==> v.Obj?
  {
    if v.Obj? then UserSessionFromSlots(Slots(v.fields, UserSessionKeys)) else None
  }

  function UserSessionFromSlots(f: seq<Option<Json>>): Option<UserSession>
    requires |f| == |UserSessionKeys|
  {
    var maybeAnonymizingProxy := Required(f[0], AsBool);
    if maybeAnonymizingProxy.Some? then
      Some(UserSession(maybeAnonymizingProxy.value))
    else None
  }

  function EncodeUserSession(x: UserSession): (v: Json)
    ensures v.Obj?
  {
    Obj(ObjectOf(UserSessionKeys, UserSessionFields(x)))
  }

  /** The serialized value of field `i`. */
  function UserSessionField(x: UserSession, i: nat): Json
    requires i < |UserSessionKeys|
  {
    match i
    case 0 => FromBool(x.maybeAnonymizingProxy)
  }

  /** The serialized field values, in declaration order. */
  function UserSessionFields(x: UserSession): (vs: seq<Json>)
    ensures |vs| == |UserSessionKeys|
  {
    seq(|UserSessionKeys|, i requires 0 <= i < |UserSessionKeys| => UserSessionField(x, i))
  }

  /** Every slot reads as the corresponding field of `x`. */
  predicate UserSessionSlotsRead(f: seq<Option<Json>>, x: UserSession)
    requires |f| == |UserSessionKeys|
  {
    && Required(f[0], AsBool) == Some(x.maybeAnonymizingProxy)
  }

  /** The decoder reads a value exactly when every slot reads as that value's field. */
  lemma UserSessionReadsFieldwise(f: seq<Option<Json>>, x: UserSession)
    requires |f| == |UserSessionKeys|
    ensures UserSessionFromSlots(f) == Some(x) ==> UserSessionSlotsRead(f, x)
    ensures UserSessionSlotsRead(f, x) ==> UserSessionFromSlots(f) == Some(x)
  {
  }

  lemma UserSessionPlainFieldsRoundTrip(x: UserSession)
    ensures Required(Present(UserSessionFields(x))[0], AsBool) == Some(x.maybeAnonymizingProxy)
  {
  }

  lemma UserSessionFieldsRoundTrip(x: UserSession)
    ensures UserSessionFromSlots(Present(UserSessionFields(x))) == Some(x)
  {
    UserSessionPlainFieldsRoundTrip(x);
    UserSessionReadsFieldwise(Present(UserSessionFields(x)), x);
  }

  lemma UserSessionRoundTrip(x: UserSession)
    ensures DecodeUserSession(EncodeUserSession(x)) == Some(x)
  {
    UserSessionKeysDistinct();
    SlotsOfObject(UserSessionKeys, UserSessionFields(x));
    UserSessionFieldsRoundTrip(x);
  }

  /** `IdentityDocument` (src/types.rs:219-226). */
  datatype IdentityDocument = IdentityDocument(
    downloadUrl: string,
    downloadUrlExpires: uint64,
    documentType: Enums.IdentityDocumentType
  )

  /** Wire names of the fields, in declaration order. */
  const IdentityDocumentKeys: seq<string> := ["download_url", "download_url_expires", "type"]

  lemma IdentityDocumentKeysDistinct()
    ensures EnumCodec.Distinct(IdentityDocumentKeys)
  {
  }

  function DecodeIdentityDocument(v: Json): (r: Option<IdentityDocument>)
    ensures r.Some? ==> v.Obj?
  {
    if v.Obj? then IdentityDocumentFromSlots(Slots(v.fields, IdentityDocumentKeys)) else None
  }

  function IdentityDocumentFromSlots(f: seq<Option<Json>>): Option<IdentityDocument>
    requires |f| == |IdentityDocumentKeys|
  {
    var downloadUrl := Required(f[0], AsString);
    var downloadUrlExpires := Required(f[1], AsU64);
    var documentType := Required(f[2], Enums.AsIdentityDocumentType);
    if downloadUrl.Some? && downloadUrlExpires.Some? && documentType.Some? then
      Some(IdentityDocument(downloadUrl.value, downloadUrlExpires.value, documentType.value))
    else None
  }

  function EncodeIdentityDocument(x: IdentityDocument): (v: Json)
    ensures v.Obj?
  {
    Obj(ObjectOf(IdentityDocumentKeys, IdentityDocumentFields(x)))
  }

  /** The serialized value of field `i`. */
  function IdentityDocumentField(x: IdentityDocument, i: nat): Json
    requires i < |IdentityDocumentKeys|
  {
    match i
    case 0 => FromString(x.downloadUrl)
    case 1 => FromU64(x.downloadUrlExpires)
    case 2 => Enums.FromIdentityDocumentType(x.documentType)
  }

  /** The serialized field values, in declaration order. */
  function IdentityDocumentFields(x: IdentityDocument): (vs: seq<Json>)
    ensures |vs| == |IdentityDocumentKeys|
  {
    seq(|IdentityDocumentKeys|, i requires 0 <= i < |IdentityDocumentKeys| => IdentityDocumentField(x, i))
  }

  /** Every slot reads as the corresponding field of `x`. */
  predicate IdentityDocumentSlotsRead(f: seq<Option<Json>>, x: IdentityDocument)
    requires |f| == |IdentityDocumentKeys|
  {
    && Required(f[0], AsString) == Some(x.downloadUrl)
    && Required(f[1], AsU64) == Some(x.downloadUrlExpires)
    && Required(f[2], Enums.AsIdentityDocumentType) == Some(x.documentType)
  }

  /** The decoder reads a value exactly when every slot reads as that value's field. */
  lemma IdentityDocumentReadsFieldwise(f: seq<Option<Json>>, x: IdentityDocument)
    requires |f| == |IdentityDocumentKeys|
    ensures IdentityDocumentFromSlots(f) == Some(x) ==> IdentityDocumentSlotsRead(f, x)
    ensures IdentityDocumentSlotsRead(f, x) ==> IdentityDocumentFromSlots(f) == Some(x)
  {
  }

  lemma IdentityDocumentDocumentTypeRoundTrip(x: IdentityDocument)
    ensures Required(Present(IdentityDocumentFields(x))[2], Enums.AsIdentityDocumentType) == Some(x.documentType)
  {
    assert IdentityDocumentFields(x)[2] == Enums.FromIdentityDocumentType(x.documentType);
    Enums.IdentityDocumentTypeRoundTrip(x.documentType);
  }

  lemma IdentityDocumentPlainFieldsRoundTrip(x: IdentityDocument)
    ensures Required(Present(IdentityDocumentFields(x))[0], AsString) == Some(x.downloadUrl)
    ensures Required(Present(IdentityDocumentFields(x))[1], AsU64) == Some(x.downloadUrlExpires)
  {
  }

  lemma IdentityDocumentFieldsRoundTrip(x: IdentityDocument)
    ensures IdentityDocumentFromSlots(Present(IdentityDocumentFields(x))) == Some(x)
  {
    IdentityDocumentPlainFieldsRoundTrip(x);
    IdentityDocumentDocumentTypeRoundTrip(x);
    IdentityDocumentReadsFieldwise(Present(IdentityDocumentFields(x)), x);
  }

  lemma IdentityDocumentRoundTrip(x: IdentityDocument)
    ensures DecodeIdentityDocument(EncodeIdentityDocument(x)) == Some(x)
  {
    IdentityDocumentKeysDistinct();
    SlotsOfObject(IdentityDocumentKeys, IdentityDocumentFields(x));
    IdentityDocumentFieldsRoundTrip(x);
  }

  function AsIdentityDocumentList(v: Json): Option<seq<IdentityDocument>> {
    AsArray(v, DecodeIdentityDocument)
  }

  function FromIdentityDocumentList(xs: seq<IdentityDocument>): Json {
    FromArray(xs, EncodeIdentityDocument)
  }

  lemma IdentityDocumentListRoundTrip(xs: seq<IdentityDocument>)
    ensures AsIdentityDocumentList(FromIdentityDocumentList(xs)) == Some(xs)
  {
    forall i | 0 <= i < |xs|
      ensures DecodeIdentityDocument(EncodeIdentityDocument(xs[i])) == Some(xs[i])
    {
      IdentityDocumentRoundTrip(xs[i]);
    }
    ArrayRoundTrip(xs, DecodeIdentityDocument, EncodeIdentityDocument);
  }

  /** `BusinessRiskMonitorMatch` (src/types.rs:228-252). */
  datatype BusinessRiskMonitorMatch = BusinessRiskMonitorMatch(
    adverseMedia: bool,
    currentlySanctioned: bool,
    disqualifiedDirector: bool,
    financialRegulator: bool,
    insolvent: bool,
    lawEnforcement: bool,
    name: string,
    pep: bool,
    previouslySanctioned: bool,
    score: uint8,
    website: string
  )

  /** Wire names of the fields, in declaration order. */
  const BusinessRiskMonitorMatchKeys: seq<string> := [
    "adverse_media",
    "currently_sanctioned",
    "disqualified_director",
    "financial_regulator",
    "insolvent",
    "law_enforcement",
    "name",
    "pep",
    "previously_sanctioned",
    "score",
    "website"
  ]

  lemma BusinessRiskMonitorMatchKeysDistinct()
    ensures EnumCodec.Distinct(BusinessRiskMonitorMatchKeys)
  {
  }

  function DecodeBusinessRiskMonitorMatch(v: Json): (r: Option<BusinessRiskMonitorMatch>)
    ensures r.Some? ==> v.Obj?
  {
    if v.Obj? then BusinessRiskMonitorMatchFromSlots(Slots(v.fields, BusinessRiskMonitorMatchKeys)) else None
  }

  function BusinessRiskMonitorMatchFromSlots(f: seq<Option<Json>>): Option<BusinessRiskMonitorMatch>
    requires |f| == |BusinessRiskMonitorMatchKeys|
  {
    var adverseMedia := Required(f[0], AsBool);
    var currentlySanctioned := Required(f[1], AsBool);
    var disqualifiedDirector := Required(f[2], AsBool);
    var financialRegulator := Required(f[3], AsBool);
    var insolvent := Required(f[4], AsBool);
    var lawEnforcement := Required(f[5], AsBool);
    var name := Required(f[6], AsString);
    var pep := Required(f[7], AsBool);
    var previouslySanctioned := Required(f[8], AsBool);
    var score := Required(f[9], AsU8);
    var website := Required(f[10], AsString);
    if
      && adverseMedia.Some?
      && currentlySanctioned.Some?
      && disqualifiedDirector.Some?
      && financialRegulator.Some?
      && insolvent.Some?
      && lawEnforcement.Some?
      && name.Some?
      && pep.Some?
      && previouslySanctioned.Some?
      && score.Some?
      && website.Some?
    then
      Some(BusinessRiskMonitorMatch(
        adverseMedia.value,
        currentlySanctioned.value,
        disqualifiedDirector.value,
        financialRegulator.value,
        insolvent.value,
        lawEnforcement.value,
        name.value,
        pep.value,
        previouslySanctioned.value,
        score.value,
        website.value
      ))
    else None
  }

  function EncodeBusinessRiskMonitorMatch(x: BusinessRiskMonitorMatch): (v: Json)
    ensures v.Obj?
  {
    Obj(ObjectOf(BusinessRiskMonitorMatchKeys, BusinessRiskMonitorMatchFields(x)))
  }

  /** The serialized value of field `i`. */
  function BusinessRiskMonitorMatchField(x: BusinessRiskMonitorMatch, i: nat): Json
    requires i < |BusinessRiskMonitorMatchKeys|
  {
    match i
    case 0 => FromBool(x.adverseMedia)
    case 1 => FromBool(x.currentlySanctioned)
    case 2 => FromBool(x.disqualifiedDirector)
    case 3 => FromBool(x.financialRegulator)
    case 4 => FromBool(x.insolvent)
    case 5 => FromBool(x.lawEnforcement)
    case 6 => FromString(x.name)
    case 7 => FromBool(x.pep)
    case 8 => FromBool(x.previouslySanctioned)
    case 9 => FromU8(x.score)
    case 10 => FromString(x.website)
  }

  /** The serialized field values, in declaration order. */
  function BusinessRiskMonitorMatchFields(x: BusinessRiskMonitorMatch): (vs: seq<Json>)
    ensures |vs| == |BusinessRiskMonitorMatchKeys|
  {
    seq(|BusinessRiskMonitorMatchKeys|, i requires 0 <= i < |BusinessRiskMonitorMatchKeys| => BusinessRiskMonitorMatchField(x, i))
  }

  /** Every slot reads as the corresponding field of `x`. */
  predicate BusinessRiskMonitorMatchSlotsRead(f: seq<Option<Json>>, x: BusinessRiskMonitorMatch)
    requires |f| == |BusinessRiskMonitorMatchKeys|
  {
    && Required(f[0], AsBool) == Some(x.adverseMedia)
    && Required(f[1], AsBool) == Some(x.currentlySanctioned)
    && Required(f[2], AsBool) == Some(x.disqualifiedDirector)
    && Required(f[3], AsBool) == Some(x.financialRegulator)
    && Required(f[4], AsBool) == Some(x.insolvent)
    && Required(f[5], AsBool) == Some(x.lawEnforcement)
    && Required(f[6], AsString) == Some(x.name)
    && Required(f[7], AsBool) == Some(x.pep)
    && Required(f[8], AsBool) == Some(x.previouslySanctioned)
    && Required(f[9], AsU8) == Some(x.score)
    && Required(f[10], AsString) == Some(x.website)
  }

  /** The decoder reads a value exactly when every slot reads as that value's field. */
  lemma BusinessRiskMonitorMatchReadsFieldwise(f: seq<Option<Json>>, x: BusinessRiskMonitorMatch)
    requires |f| == |BusinessRiskMonitorMatchKeys|
    ensures BusinessRiskMonitorMatchFromSlots(f) == Some(x) ==> BusinessRiskMonitorMatchSlotsRead(f, x)
    ensures BusinessRiskMonitorMatchSlotsRead(f, x) ==> BusinessRiskMonitorMatchFromSlots(f) == Some(x)
  {
  }

  lemma BusinessRiskMonitorMatchPlainFieldsRoundTrip1(x: BusinessRiskMonitorMatch)
    ensures Required(Present(BusinessRiskMonitorMatchFields(x))[0], AsBool) == Some(x.adverseMedia)
    ensures Required(Present(BusinessRiskMonitorMatchFields(x))[1], AsBool) == Some(x.currentlySanctioned)
    ensures Required(Present(BusinessRiskMonitorMatchFields(x))[2], AsBool) == Some(x.disqualifiedDirector)
    ensures Required(Present(BusinessRiskMonitorMatchFields(x))[3], AsBool) == Some(x.financialRegulator)
  {
  }

  lemma BusinessRiskMonitorMatchPlainFieldsRoundTrip2(x: BusinessRiskMonitorMatch)
    ensures Required(Present(BusinessRiskMonitorMatchFields(x))[4], AsBool) == Some(x.insolvent)
    ensures Required(Present(BusinessRiskMonitorMatchFields(x))[5], AsBool) == Some(x.lawEnforcement)
    ensures Required(Present(BusinessRiskMonitorMatchFields(x))[6], AsString) == Some(x.name)
    ensures Required(Present(BusinessRiskMonitorMatchFields(x))[7], AsBool) == Some(x.pep)
  {
  }

  lemma BusinessRiskMonitorMatchPlainFieldsRoundTrip3(x: BusinessRiskMonitorMatch)
    ensures Required(Present(BusinessRiskMonitorMatchFields(x))[8], AsBool) == Some(x.previouslySanctioned)
    ensures Required(Present(BusinessRiskMonitorMatchFields(x))[9], AsU8) == Some(x.score)
    ensures Required(Present(BusinessRiskMonitorMatchFields(x))[10], AsString) == Some(x.website)
  {
  }

  lemma BusinessRiskMonitorMatchFieldsRoundTrip(x: BusinessRiskMonitorMatch)
    ensures BusinessRiskMonitorMatchFromSlots(Present(BusinessRiskMonitorMatchFields(x))) == Some(x)
  {
    BusinessRiskMonitorMatchPlainFieldsRoundTrip1(x);
    BusinessRiskMonitorMatchPlainFieldsRoundTrip2(x);
    BusinessRiskMonitorMatchPlainFieldsRoundTrip3(x);
    BusinessRiskMonitorMatchReadsFieldwise(Present(BusinessRiskMonitorMatchFields(x)), x);
  }

  lemma BusinessRiskMonitorMatchRoundTrip(x: BusinessRiskMonitorMatch)
    ensures DecodeBusinessRiskMonitorMatch(EncodeBusinessRiskMonitorMatch(x)) == Some(x)
  {
    BusinessRiskMonitorMatchKeysDistinct();
    SlotsOfObject(BusinessRiskMonitorMatchKeys, BusinessRiskMonitorMatchFields(x));
    BusinessRiskMonitorMatchFieldsRoundTrip(x);
  }

  function AsBusinessRiskMonitorMatchList(v: Json): Option<seq<BusinessRiskMonitorMatch>> {
    AsArray(v, DecodeBusinessRiskMonitorMatch)
  }

  function FromBusinessRiskMonitorMatchList(xs: seq<BusinessRiskMonitorMatch>): Json {
    FromArray(xs, EncodeBusinessRiskMonitorMatch)
  }

  lemma BusinessRiskMonitorMatchListRoundTrip(xs: seq<BusinessRiskMonitorMatch>)
    ensures AsBusinessRiskMonitorMatchList(FromBusinessRiskMonitorMatchList(xs)) == Some(xs)
  {
    forall i | 0 <= i < |xs|
      ensures DecodeBusinessRiskMonitorMatch(EncodeBusinessRiskMonitorMatch(xs[i])) == Some(xs[i])
    {
      BusinessRiskMonitorMatchRoundTrip(xs[i]);
    }
    ArrayRoundTrip(xs, DecodeBusinessRiskMonitorMatch, EncodeBusinessRiskMonitorMatch);
  }

  /** `IndividualRiskMonitorMatch` (src/types.rs:254-282). */
  datatype IndividualRiskMonitorMatch = IndividualRiskMonitorMatch(
    adverseMedia: bool,
    birthDate: Date,
    currentlySanctioned: bool,
    deceased: bool,
    disqualifiedDirector: bool,
    financialRegulator: bool,
    insolvent: bool,
    firstName: string,
    middleName: string,
    lastName: string,
    lawEnforcement: bool,
    nationality: string,
    pep: bool,
    previouslySanctioned: bool,
    score: uint8
  )

  /** Wire names of the fields, in declaration order. */
  const IndividualRiskMonitorMatchKeys: seq<string> := [
    "adverse_media",
    "birth_date",
    "currently_sanctioned",
    "deceased",
    "disqualified_director",
    "financial_regulator",
    "insolvent",
    "first_name",
    "middle_name",
    "last_name",
    "law_enforcement",
    "nationality",
    "pep",
    "previously_sanctioned",
    "score"
  ]

  lemma IndividualRiskMonitorMatchKeysDistinct()
    ensures EnumCodec.Distinct(IndividualRiskMonitorMatchKeys)
  {
  }

  function DecodeIndividualRiskMonitorMatch(v: Json): (r: Option<IndividualRiskMonitorMatch>)
    ensures r.Some? ==> v.Obj?
  {
    if v.Obj? then IndividualRiskMonitorMatchFromSlots(Slots(v.fields, IndividualRiskMonitorMatchKeys)) else None
  }

  function IndividualRiskMonitorMatchFromSlots(f: seq<Option<Json>>): Option<IndividualRiskMonitorMatch>
    requires |f| == |IndividualRiskMonitorMatchKeys|
  {
    var adverseMedia := Required(f[0], AsBool);
    var birthDate := Required(f[1], AsDate);
    var currentlySanctioned := Required(f[2], AsBool);
    var deceased := Required(f[3], AsBool);
    var disqualifiedDirector := Required(f[4], AsBool);
    var financialRegulator := Required(f[5], AsBool);
    var insolvent := Required(f[6], AsBool);
    var firstName := Required(f[7], AsString);
    var middleName := Required(f[8], AsString);
    var lastName := Required(f[9], AsString);
    var lawEnforcement := Required(f[10], AsBool);
    var nationality := Required(f[11], AsString);
    var pep := Required(f[12], AsBool);
    var previouslySanctioned := Required(f[13], AsBool);
    var score := Required(f[14], AsU8);
    if
      && adverseMedia.Some?
      && birthDate.Some?
      && currentlySanctioned.Some?
      && deceased.Some?
      && disqualifiedDirector.Some?
      && financialRegulator.Some?
      && insolvent.Some?
      && firstName.Some?
      && middleName.Some?
      && lastName.Some?
      && lawEnforcement.Some?
      && nationality.Some?
      && pep.Some?
      && previouslySanctioned.Some?
      && score.Some?
    then
      Some(IndividualRiskMonitorMatch(
        adverseMedia.value,
        birthDate.value,
        currentlySanctioned.value,
        deceased.value,
        disqualifiedDirector.value,
        financialRegulator.value,
        insolvent.value,
        firstName.value,
        middleName.value,
        lastName.value,
        lawEnforcement.value,
        nationality.value,
        pep.value,
        previouslySanctioned.value,
        score.value
      ))
    else None
  }

  function EncodeIndividualRiskMonitorMatch(x: IndividualRiskMonitorMatch): (v: Json)
    ensures v.Obj?
  {
    Obj(ObjectOf(IndividualRiskMonitorMatchKeys, IndividualRiskMonitorMatchFields(x)))
  }

  /** The serialized value of field `i`. */
  function IndividualRiskMonitorMatchField(x: IndividualRiskMonitorMatch, i: nat): Json
    requires i < |IndividualRiskMonitorMatchKeys|
  {
    match i
    case 0 => FromBool(x.adverseMedia)
    case 1 => FromDate(x.birthDate)
    case 2 => FromBool(x.currentlySanctioned)
    case 3 => FromBool(x.deceased)
    case 4 => FromBool(x.disqualifiedDirector)
    case 5 => FromBool(x.financialRegulator)
    case 6 => FromBool(x.insolvent)
    case 7 => FromString(x.firstName)
    case 8 => FromString(x.middleName)
    case 9 => FromString(x.lastName)
    case 10 => FromBool(x.lawEnforcement)
    case 11 => FromString(x.nationality)
    case 12 => FromBool(x.pep)
    case 13 => FromBool(x.previouslySanctioned)
    case 14 => FromU8(x.score)
  }

  /** The serialized field values, in declaration order. */
  function IndividualRiskMonitorMatchFields(x: IndividualRiskMonitorMatch): (vs: seq<Json>)
    ensures |vs| == |IndividualRiskMonitorMatchKeys|
  {
    seq(|IndividualRiskMonitorMatchKeys|, i requires 0 <= i < |IndividualRiskMonitorMatchKeys| => IndividualRiskMonitorMatchField(x, i))
  }

  /** Every slot reads as the corresponding field of `x`. */
  predicate IndividualRiskMonitorMatchSlotsRead(f: seq<Option<Json>>, x: IndividualRiskMonitorMatch)
    requires |f| == |IndividualRiskMonitorMatchKeys|
  {
    && Required(f[0], AsBool) == Some(x.adverseMedia)
    && Required(f[1], AsDate) == Some(x.birthDate)
    && Required(f[2], AsBool) == Some(x.currentlySanctioned)
    && Required(f[3], AsBool) == Some(x.deceased)
    && Required(f[4], AsBool) == Some(x.disqualifiedDirector)
    && Required(f[5], AsBool) == Some(x.financialRegulator)
    && Required(f[6], AsBool) == Some(x.insolvent)
    && Required(f[7], AsString) == Some(x.firstName)
    && Required(f[8], AsString) == Some(x.middleName)
    && Required(f[9], AsString) == Some(x.lastName)
    && Required(f[10], AsBool) == Some(x.lawEnforcement)
    && Required(f[11], AsString) == Some(x.nationality)
    && Required(f[12], AsBool) == Some(x.pep)
    && Required(f[13], AsBool) == Some(x.previouslySanctioned)
    && Required(f[14], AsU8) == Some(x.score)
  }

  /** The decoder reads a value exactly when every slot reads as that value's field. */
  lemma IndividualRiskMonitorMatchReadsFieldwise(f: seq<Option<Json>>, x: IndividualRiskMonitorMatch)
    requires |f| == |IndividualRiskMonitorMatchKeys|
    ensures IndividualRiskMonitorMatchFromSlots(f) == Some(x) ==> IndividualRiskMonitorMatchSlotsRead(f, x)
    ensures IndividualRiskMonitorMatchSlotsRead(f, x) ==> IndividualRiskMonitorMatchFromSlots(f) == Some(x)
  {
  }

  lemma IndividualRiskMonitorMatchPlainFieldsRoundTrip1(x: IndividualRiskMonitorMatch)
    ensures Required(Present(IndividualRiskMonitorMatchFields(x))[0], AsBool) == Some(x.adverseMedia)
    ensures Required(Present(IndividualRiskMonitorMatchFields(x))[1], AsDate) == Some(x.birthDate)
    ensures Required(Present(IndividualRiskMonitorMatchFields(x))[2], AsBool) == Some(x.currentlySanctioned)
    ensures Required(Present(IndividualRiskMonitorMatchFields(x))[3], AsBool) == Some(x.deceased)
  {
  }

  lemma IndividualRiskMonitorMatchPlainFieldsRoundTrip2(x: IndividualRiskMonitorMatch)
    ensures Required(Present(IndividualRiskMonitorMatchFields(x))[4], AsBool) == Some(x.disqualifiedDirector)
    ensures Required(Present(IndividualRiskMonitorMatchFields(x))[5], AsBool) == Some(x.financialRegulator)
    ensures Required(Present(IndividualRiskMonitorMatchFields(x))[6], AsBool) == Some(x.insolvent)
    ensures Required(Present(IndividualRiskMonitorMatchFields(x))[7], AsString) == Some(x.firstName)
  {
  }

  lemma IndividualRiskMonitorMatchPlainFieldsRoundTrip3(x: IndividualRiskMonitorMatch)
    ensures Required(Present(IndividualRiskMonitorMatchFields(x))[8], AsString) == Some(x.middleName)
    ensures Required(Present(IndividualRiskMonitorMatchFields(x))[9], AsString) == Some(x.lastName)
    ensures Required(Present(IndividualRiskMonitorMatchFields(x))[10], AsBool) == Some(x.lawEnforcement)
    ensures Required(Present(IndividualRiskMonitorMatchFields(x))[11], AsString) == Some(x.nationality)
  {
  }

  lemma IndividualRiskMonitorMatchPlainFieldsRoundTrip4(x: IndividualRiskMonitorMatch)
    ensures Required(Present(IndividualRiskMonitorMatchFields(x))[12], AsBool) == Some(x.pep)
    ensures Required(Present(IndividualRiskMonitorMatchFields(x))[13], AsBool) == Some(x.previouslySanctioned)
    ensures Required(Present(IndividualRiskMonitorMatchFields(x))[14], AsU8) == Some(x.score)
  {
  }

  lemma IndividualRiskMonitorMatchFieldsRoundTrip(x: IndividualRiskMonitorMatch)
    ensures IndividualRiskMonitorMatchFromSlots(Present(IndividualRiskMonitorMatchFields(x))) == Some(x)
  {
    IndividualRiskMonitorMatchPlainFieldsRoundTrip1(x);
    IndividualRiskMonitorMatchPlainFieldsRoundTrip2(x);
    IndividualRiskMonitorMatchPlainFieldsRoundTrip3(x);
    IndividualRiskMonitorMatchPlainFieldsRoundTrip4(x);
    IndividualRiskMonitorMatchReadsFieldwise(Present(IndividualRiskMonitorMatchFields(x)), x);
  }

  lemma IndividualRiskMonitorMatchRoundTrip(x: IndividualRiskMonitorMatch)
    ensures DecodeIndividualRiskMonitorMatch(EncodeIndividualRiskMonitorMatch(x)) == Some(x)
  {
    IndividualRiskMonitorMatchKeysDistinct();
    SlotsOfObject(IndividualRiskMonitorMatchKeys, IndividualRiskMonitorMatchFields(x));
    IndividualRiskMonitorMatchFieldsRoundTrip(x);
  }

  function AsIndividualRiskMonitorMatchList(v: Json): Option<seq<IndividualRiskMonitorMatch>> {
    AsArray(v, DecodeIndividualRiskMonitorMatch)
  }

  function FromIndividualRiskMonitorMatchList(xs: seq<IndividualRiskMonitorMatch>): Json {
    FromArray(xs, EncodeIndividualRiskMonitorMatch)
  }

  lemma IndividualRiskMonitorMatchListRoundTrip(xs: seq<IndividualRiskMonitorMatch>)
    ensures AsIndividualRiskMonitorMatchList(FromIndividualRiskMonitorMatchList(xs)) == Some(xs)
  {
    forall i | 0 <= i < |xs|
      ensures DecodeIndividualRiskMonitorMatch(EncodeIndividualRiskMonitorMatch(xs[i])) == Some(xs[i])
    {
      IndividualRiskMonitorMatchRoundTrip(xs[i]);
    }
    ArrayRoundTrip(xs, DecodeIndividualRiskMonitorMatch, EncodeIndividualRiskMonitorMatch);
  }

  /** `BeneficialOwnerReference` (src/types.rs:182-190). */
  datatype BeneficialOwnerReference = BeneficialOwnerReference(
    id: Option<string>,
    referenceType: Enums.EntityType,
    ownershipPercent: Decimal,
    profile: Either<Profiles.BusinessProfile, Profiles.IndividualProfile>
  )

  /** Wire names of the fields, in declaration order. */
  const BeneficialOwnerReferenceKeys: seq<string> := ["id", "type", "ownership_percent", "profile"]

  lemma BeneficialOwnerReferenceKeysDistinct()
    ensures EnumCodec.Distinct(BeneficialOwnerReferenceKeys)
  {
  }

  function DecodeBeneficialOwnerReference(v: Json): (r: Option<BeneficialOwnerReference>)
    ensures r.Some? ==> v.Obj?
  {
    if v.Obj? then BeneficialOwnerReferenceFromSlots(Slots(v.fields, BeneficialOwnerReferenceKeys)) else None
  }

  function BeneficialOwnerReferenceFromSlots(f: seq<Option<Json>>): Option<BeneficialOwnerReference>
    requires |f| == |BeneficialOwnerReferenceKeys|
  {
    var id := Optional(f[0], AsString);
    var referenceType := Required(f[1], Enums.AsEntityType);
    var ownershipPercent := Required(f[2], AsDecimal);
    var profile := Required(f[3], Profiles.AsOwnerProfile);
    if id.Some? && referenceType.Some? && ownershipPercent.Some? && profile.Some? then
      Some(BeneficialOwnerReference(
        id.value,
        referenceType.value,
        ownershipPercent.value,
        profile.value
      ))
    else None
  }

  function EncodeBeneficialOwnerReference(x: BeneficialOwnerReference): (v: Json)
    ensures v.Obj?
  {
    Obj(ObjectOf(BeneficialOwnerReferenceKeys, BeneficialOwnerReferenceFields(x)))
  }

  /** The serialized value of field `i`. */
  function BeneficialOwnerReferenceField(x: BeneficialOwnerReference, i: nat): Json
    requires i < |BeneficialOwnerReferenceKeys|
  {
    match i
    case 0 => FromOption(x.id, FromString)
    case 1 => Enums.FromEntityType(x.referenceType)
    case 2 => FromDecimal(x.ownershipPercent)
    case 3 => Profiles.FromOwnerProfile(x.profile)
  }

  /** The serialized field values, in declaration order. */
  function BeneficialOwnerReferenceFields(x: BeneficialOwnerReference): (vs: seq<Json>)
    ensures |vs| == |BeneficialOwnerReferenceKeys|
  {
    seq(|BeneficialOwnerReferenceKeys|, i requires 0 <= i < |BeneficialOwnerReferenceKeys| => BeneficialOwnerReferenceField(x, i))
  }

  /** Every slot reads as the corresponding field of `x`. */
  predicate BeneficialOwnerReferenceSlotsRead(f: seq<Option<Json>>, x: BeneficialOwnerReference)
    requires |f| == |BeneficialOwnerReferenceKeys|
  {
    && Optional(f[0], AsString) == Some(x.id)
    && Required(f[1], Enums.AsEntityType) == Some(x.referenceType)
    && Required(f[2], AsDecimal) == Some(x.ownershipPercent)
    && Required(f[3], Profiles.AsOwnerProfile) == Some(x.profile)
  }

  /** The decoder reads a value exactly when every slot reads as that value's field. */
  lemma BeneficialOwnerReferenceReadsFieldwise(f: seq<Option<Json>>, x: BeneficialOwnerReference)
    requires |f| == |BeneficialOwnerReferenceKeys|
    ensures BeneficialOwnerReferenceFromSlots(f) == Some(x) ==> BeneficialOwnerReferenceSlotsRead(f, x)
    ensures BeneficialOwnerReferenceSlotsRead(f, x) ==> BeneficialOwnerReferenceFromSlots(f) == Some(x)
  {
  }

  lemma BeneficialOwnerReferenceIdRoundTrip(x: BeneficialOwnerReference)
    ensures Optional(Present(BeneficialOwnerReferenceFields(x))[0], AsString) == Some(x.id)
  {
    assert BeneficialOwnerReferenceFields(x)[0] == FromOption(x.id, FromString);
    OptionRoundTrip(x.id, AsString, FromString);
  }

  lemma BeneficialOwnerReferenceReferenceTypeRoundTrip(x: BeneficialOwnerReference)
    ensures Required(Present(BeneficialOwnerReferenceFields(x))[1], Enums.AsEntityType) == Some(x.referenceType)
  {
    assert BeneficialOwnerReferenceFields(x)[1] == Enums.FromEntityType(x.referenceType);
    Enums.EntityTypeRoundTrip(x.referenceType);
  }

  lemma BeneficialOwnerReferenceProfileRoundTrip(x: BeneficialOwnerReference)
    ensures Required(Present(BeneficialOwnerReferenceFields(x))[3], Profiles.AsOwnerProfile) == Some(x.profile)
  {
    assert BeneficialOwnerReferenceFields(x)[3] == Profiles.FromOwnerProfile(x.profile);
    Profiles.OwnerProfileRoundTrip(x.profile);
  }

  lemma BeneficialOwnerReferencePlainFieldsRoundTrip(x: BeneficialOwnerReference)
    ensures Required(Present(BeneficialOwnerReferenceFields(x))[2], AsDecimal) == Some(x.ownershipPercent)
  {
  }

  lemma BeneficialOwnerReferenceFieldsRoundTrip(x: BeneficialOwnerReference)
    ensures BeneficialOwnerReferenceFromSlots(Present(BeneficialOwnerReferenceFields(x))) == Some(x)
  {
    BeneficialOwnerReferencePlainFieldsRoundTrip(x);
    BeneficialOwnerReferenceIdRoundTrip(x);
    BeneficialOwnerReferenceReferenceTypeRoundTrip(x);
    BeneficialOwnerReferenceProfileRoundTrip(x);
    BeneficialOwnerReferenceReadsFieldwise(Present(BeneficialOwnerReferenceFields(x)), x);
  }

  lemma BeneficialOwnerReferenceRoundTrip(x: BeneficialOwnerReference)
    ensures DecodeBeneficialOwnerReference(EncodeBeneficialOwnerReference(x)) == Some(x)
  {
    BeneficialOwnerReferenceKeysDistinct();
    SlotsOfObject(BeneficialOwnerReferenceKeys, BeneficialOwnerReferenceFields(x));
    BeneficialOwnerReferenceFieldsRoundTrip(x);
  }

  function AsBeneficialOwnerReferenceList(v: Json): Option<seq<BeneficialOwnerReference>> {
    AsArray(v, DecodeBeneficialOwnerReference)
  }

  function FromBeneficialOwnerReferenceList(xs: seq<BeneficialOwnerReference>): Json {
    FromArray(xs, EncodeBeneficialOwnerReference)
  }

  lemma BeneficialOwnerReferenceListRoundTrip(xs: seq<BeneficialOwnerReference>)
    ensures AsBeneficialOwnerReferenceList(FromBeneficialOwnerReferenceList(xs)) == Some(xs)
  {
    forall i | 0 <= i < |xs|
      ensures DecodeBeneficialOwnerReference(EncodeBeneficialOwnerReference(xs[i])) == Some(xs[i])
    {
      BeneficialOwnerReferenceRoundTrip(xs[i]);
    }
    ArrayRoundTrip(xs, DecodeBeneficialOwnerReference, EncodeBeneficialOwnerReference);
  }

  /** `ControlPersonReference` (src/types.rs:192-200). */
  datatype ControlPersonReference = ControlPersonReference(
    id: Option<string>,
    referenceType: Enums.EntityType,
    title: string,
    profile: Profiles.IndividualProfile
  )

  /** Wire names of the fields, in declaration order. */
  const ControlPersonReferenceKeys: seq<string> := ["id", "type", "title", "profile"]

  lemma ControlPersonReferenceKeysDistinct()
    ensures EnumCodec.Distinct(ControlPersonReferenceKeys)
  {
  }

  function DecodeControlPersonReference(v: Json): (r: Option<ControlPersonReference>)
    ensures r.Some? ==> v.Obj?
  {
    if v.Obj? then ControlPersonReferenceFromSlots(Slots(v.fields, ControlPersonReferenceKeys)) else None
  }

  function ControlPersonReferenceFromSlots(f: seq<Option<Json>>): Option<ControlPersonReference>
    requires |f| == |ControlPersonReferenceKeys|
  {
    var id := Optional(f[0], AsString);
    var referenceType := Required(f[1], Enums.AsEntityType);
    var title := Required(f[2], AsString);
    var profile := Required(f[3], Profiles.DecodeIndividualProfile);
    if id.Some? && referenceType.Some? && title.Some? && profile.Some? then
      Some(ControlPersonReference(id.value, referenceType.value, title.value, profile.value))
    else None
  }

  function EncodeControlPersonReference(x: ControlPersonReference): (v: Json)
    ensures v.Obj?
  {
    Obj(ObjectOf(ControlPersonReferenceKeys, ControlPersonReferenceFields(x)))
  }

  /** The serialized value of field `i`. */
  function ControlPersonReferenceField(x: ControlPersonReference, i: nat): Json
    requires i < |ControlPersonReferenceKeys|
  {
    match i
    case 0 => FromOption(x.id, FromString)
    case 1 => Enums.FromEntityType(x.referenceType)
    case 2 => FromString(x.title)
    case 3 => Profiles.EncodeIndividualProfile(x.profile)
  }

  /** The serialized field values, in declaration order. */
  function ControlPersonReferenceFields(x: ControlPersonReference): (vs: seq<Json>)
    ensures |vs| == |ControlPersonReferenceKeys|
  {
    seq(|ControlPersonReferenceKeys|, i requires 0 <= i < |ControlPersonReferenceKeys| => ControlPersonReferenceField(x, i))
  }

  /** Every slot reads as the corresponding field of `x`. */
  predicate ControlPersonReferenceSlotsRead(f: seq<Option<Json>>, x: ControlPersonReference)
    requires |f| == |ControlPersonReferenceKeys|
  {
    && Optional(f[0], AsString) == Some(x.id)
    && Required(f[1], Enums.AsEntityType) == Some(x.referenceType)
    && Required(f[2], AsString) == Some(x.title)
    && Required(f[3], Profiles.DecodeIndividualProfile) == Some(x.profile)
  }

  /** The decoder reads a value exactly when every slot reads as that value's field. */
  lemma ControlPersonReferenceReadsFieldwise(f: seq<Option<Json>>, x: ControlPersonReference)
    requires |f| == |ControlPersonReferenceKeys|
    ensures ControlPersonReferenceFromSlots(f) == Some(x) ==> ControlPersonReferenceSlotsRead(f, x)
    ensures ControlPersonReferenceSlotsRead(f, x) ==> ControlPersonReferenceFromSlots(f) == Some(x)
  {
  }

  lemma ControlPersonReferenceIdRoundTrip(x: ControlPersonReference)
    ensures Optional(Present(ControlPersonReferenceFields(x))[0], AsString) == Some(x.id)
  {
    assert ControlPersonReferenceFields(x)[0] == FromOption(x.id, FromString);
    OptionRoundTrip(x.id, AsString, FromString);
  }

  lemma ControlPersonReferenceReferenceTypeRoundTrip(x: ControlPersonReference)
    ensures Required(Present(ControlPersonReferenceFields(x))[1], Enums.AsEntityType) == Some(x.referenceType)
  {
    assert ControlPersonReferenceFields(x)[1] == Enums.FromEntityType(x.referenceType);
    Enums.EntityTypeRoundTrip(x.referenceType);
  }

  lemma ControlPersonReferenceProfileRoundTrip(x: ControlPersonReference)
    ensures Required(Present(ControlPersonReferenceFields(x))[3], Profiles.DecodeIndividualProfile) == Some(x.profile)
  {
    assert ControlPersonReferenceFields(x)[3] == Profiles.EncodeIndividualProfile(x.profile);
    Profiles.IndividualProfileRoundTrip(x.profile);
  }

  lemma ControlPersonReferencePlainFieldsRoundTrip(x: ControlPersonReference)
    ensures Required(Present(ControlPersonReferenceFields(x))[2], AsString) == Some(x.title)
  {
  }

  lemma ControlPersonReferenceFieldsRoundTrip(x: ControlPersonReference)
    ensures ControlPersonReferenceFromSlots(Present(ControlPersonReferenceFields(x))) == Some(x)
  {
    ControlPersonReferencePlainFieldsRoundTrip(x);
    ControlPersonReferenceIdRoundTrip(x);
    ControlPersonReferenceReferenceTypeRoundTrip(x);
    ControlPersonReferenceProfileRoundTrip(x);
    ControlPersonReferenceReadsFieldwise(Present(ControlPersonReferenceFields(x)), x);
  }

  lemma ControlPersonReferenceRoundTrip(x: ControlPersonReference)
    ensures DecodeControlPersonReference(EncodeControlPersonReference(x)) == Some(x)
  {
    ControlPersonReferenceKeysDistinct();
    SlotsOfObject(ControlPersonReferenceKeys, ControlPersonReferenceFields(x));
    ControlPersonReferenceFieldsRoundTrip(x);
  }

  function AsControlPersonReferenceList(v: Json): Option<seq<ControlPersonReference>> {
    AsArray(v, DecodeControlPersonReference)
  }

  function FromControlPersonReferenceList(xs: seq<ControlPersonReference>): Json {
    FromArray(xs, EncodeControlPersonReference)
  }

  lemma ControlPersonReferenceListRoundTrip(xs: seq<ControlPersonReference>)
    ensures AsControlPersonReferenceList(FromControlPersonReferenceList(xs)) == Some(xs)
  {
    forall i | 0 <= i < |xs|
      ensures DecodeControlPersonReference(EncodeControlPersonReference(xs[i])) == Some(xs[i])
    {
      ControlPersonReferenceRoundTrip(xs[i]);
    }
    ArrayRoundTrip(xs, DecodeControlPersonReference, EncodeControlPersonReference);
  }

  /** `BusinessIdentityDetails` (src/types.rs:284-304). */
  datatype BusinessIdentityDetails = BusinessIdentityDetails(
    businessType: Enums.BusinessType,
    completedAt: Rfc3339Time,
    controlPersons: seq<ControlPersonReference>,
    createdBy: Profiles.IndividualProfile,
    directBeneficialOwners: seq<BeneficialOwnerReference>,
    expiresAt: Rfc3339Time,
    foreignTaxId: string,
    identityFiles: seq<IdentityDocument>,
    incorporationCountry: CountryCode,
    incorporationState: Option<string>,
    name: string,
    primaryContact: Profiles.IndividualProfile,
    principalLocation: Location,
    riskMonitorMatches: seq<BusinessRiskMonitorMatch>,
    usTaxId: string,
    userSession: UserSession
  )

  /** Wire names of the fields, in declaration order. */
  const BusinessIdentityDetailsKeys: seq<string> := [
    "business_type",
    "completed_at",
    "control_persons",
    "created_by",
    "direct_beneficial_owners",
    "expires_at",
    "foreign_tax_id",
    "identity_files",
    "incorporation_country",
    "incorporation_state",
    "name",
    "primary_contact",
    "principal_location",
    "risk_monitor_matches",
    "us_tax_id",
    "user_session"
  ]

  lemma BusinessIdentityDetailsKeysDistinct()
    ensures EnumCodec.Distinct(BusinessIdentityDetailsKeys)
  {
  }

  function DecodeBusinessIdentityDetails(v: Json): (r: Option<BusinessIdentityDetails>)
    ensures r.Some? ==> v.Obj?
  {
    if v.Obj? then BusinessIdentityDetailsFromSlots(Slots(v.fields, BusinessIdentityDetailsKeys)) else None
  }

  function BusinessIdentityDetailsFromSlots(f: seq<Option<Json>>): Option<BusinessIdentityDetails>
    requires |f| == |BusinessIdentityDetailsKeys|
  {
    var businessType := Required(f[0], Enums.AsBusinessType);
    var completedAt := Required(f[1], AsRfc3339Time);
    var controlPersons := Required(f[2], AsControlPersonReferenceList);
    var createdBy := Required(f[3], Profiles.DecodeIndividualProfile);
    var directBeneficialOwners := Required(f[4], AsBeneficialOwnerReferenceList);
    var expiresAt := Required(f[5], AsRfc3339Time);
    var foreignTaxId := Required(f[6], AsString);
    var identityFiles := Required(f[7], AsIdentityDocumentList);
    var incorporationCountry := Required(f[8], AsCountryCode);
    var incorporationState := Optional(f[9], AsString);
    var name := Required(f[10], AsString);
    var primaryContact := Required(f[11], Profiles.DecodeIndividualProfile);
    var principalLocation := Required(f[12], DecodeLocation);
    var riskMonitorMatches := Required(f[13], AsBusinessRiskMonitorMatchList);
    var usTaxId := Required(f[14], AsString);
    var userSession := Required(f[15], DecodeUserSession);
    if
      && businessType.Some?
      && completedAt.Some?
      && controlPersons.Some?
      && createdBy.Some?
      && directBeneficialOwners.Some?
      && expiresAt.Some?
      && foreignTaxId.Some?
      && identityFiles.Some?
      && incorporationCountry.Some?
      && incorporationState.Some?
      && name.Some?
      && primaryContact.Some?
      && principalLocation.Some?
      && riskMonitorMatches.Some?
      && usTaxId.Some?
      && userSession.Some?
    then
      Some(BusinessIdentityDetails(
        businessType.value,
        completedAt.value,
        controlPersons.value,
        createdBy.value,
        directBeneficialOwners.value,
        expiresAt.value,
        foreignTaxId.value,
        identityFiles.value,
        incorporationCountry.value,
        incorporationState.value,
        name.value,
        primaryContact.value,
        principalLocation.value,
        riskMonitorMatches.value,
        usTaxId.value,
        userSession.value
      ))
    else None
  }

  function EncodeBusinessIdentityDetails(x: BusinessIdentityDetails): (v: Json)
    ensures v.Obj?
  {
    Obj(ObjectOf(BusinessIdentityDetailsKeys, BusinessIdentityDetailsFields(x)))
  }

  /** The serialized value of field `i`. */
  function BusinessIdentityDetailsField(x: BusinessIdentityDetails, i: nat): Json
    requires i < |BusinessIdentityDetailsKeys|
  {
    match i
    case 0 => Enums.FromBusinessType(x.businessType)
    case 1 => FromRfc3339Time(x.completedAt)
    case 2 => FromControlPersonReferenceList(x.controlPersons)
    case 3 => Profiles.EncodeIndividualProfile(x.createdBy)
    case 4 => FromBeneficialOwnerReferenceList(x.directBeneficialOwners)
    case 5 => FromRfc3339Time(x.expiresAt)
    case 6 => FromString(x.foreignTaxId)
    case 7 => FromIdentityDocumentList(x.identityFiles)
    case 8 => FromCountryCode(x.incorporationCountry)
    case 9 => FromOption(x.incorporationState, FromString)
    case 10 => FromString(x.name)
    case 11 => Profiles.EncodeIndividualProfile(x.primaryContact)
    case 12 => EncodeLocation(x.principalLocation)
    case 13 => FromBusinessRiskMonitorMatchList(x.riskMonitorMatches)
    case 14 => FromString(x.usTaxId)
    case 15 => EncodeUserSession(x.userSession)
  }

  /** The serialized field values, in declaration order. */
  function BusinessIdentityDetailsFields(x: BusinessIdentityDetails): (vs: seq<Json>)
    ensures |vs| == |BusinessIdentityDetailsKeys|
  {
    seq(|BusinessIdentityDetailsKeys|, i requires 0 <= i < |BusinessIdentityDetailsKeys| => BusinessIdentityDetailsField(x, i))
  }

  /** Every slot reads as the corresponding field of `x`. */
  predicate BusinessIdentityDetailsSlotsRead(f: seq<Option<Json>>, x: BusinessIdentityDetails)
    requires |f| == |BusinessIdentityDetailsKeys|
  {
    && Required(f[0], Enums.AsBusinessType) == Some(x.businessType)
    && Required(f[1], AsRfc3339Time) == Some(x.completedAt)
    && Required(f[2], AsControlPersonReferenceList) == Some(x.controlPersons)
    && Required(f[3], Profiles.DecodeIndividualProfile) == Some(x.createdBy)
    && Required(f[4], AsBeneficialOwnerReferenceList) == Some(x.directBeneficialOwners)
    && Required(f[5], AsRfc3339Time) == Some(x.expiresAt)
    && Required(f[6], AsString) == Some(x.foreignTaxId)
    && Required(f[7], AsIdentityDocumentList) == Some(x.identityFiles)
    && Required(f[8], AsCountryCode) == Some(x.incorporationCountry)
    && Optional(f[9], AsString) == Some(x.incorporationState)
    && Required(f[10], AsString) == Some(x.name)
    && Required(f[11], Profiles.DecodeIndividualProfile) == Some(x.primaryContact)
    && Required(f[12], DecodeLocation) == Some(x.principalLocation)
    && Required(f[13], AsBusinessRiskMonitorMatchList) == Some(x.riskMonitorMatches)
    && Required(f[14], AsString) == Some(x.usTaxId)
    && Required(f[15], DecodeUserSession) == Some(x.userSession)
  }

  /** The decoder reads a value exactly when every slot reads as that value's field. */
  lemma BusinessIdentityDetailsReadsFieldwise(f: seq<Option<Json>>, x: BusinessIdentityDetails)
    requires |f| == |BusinessIdentityDetailsKeys|
    ensures BusinessIdentityDetailsFromSlots(f) == Some(x) ==> BusinessIdentityDetailsSlotsRead(f, x)
    ensures BusinessIdentityDetailsSlotsRead(f, x) ==> BusinessIdentityDetailsFromSlots(f) == Some(x)
  {
  }

  lemma BusinessIdentityDetailsBusinessTypeRoundTrip(x: BusinessIdentityDetails)
    ensures Required(Present(BusinessIdentityDetailsFields(x))[0], Enums.AsBusinessType) == Some(x.businessType)
  {
    assert BusinessIdentityDetailsFields(x)[0] == Enums.FromBusinessType(x.businessType);
    Enums.BusinessTypeRoundTrip(x.businessType);
  }

  lemma BusinessIdentityDetailsControlPersonsRoundTrip(x: BusinessIdentityDetails)
    ensures Required(Present(BusinessIdentityDetailsFields(x))[2], AsControlPersonReferenceList) == Some(x.controlPersons)
  {
    assert BusinessIdentityDetailsFields(x)[2] == FromControlPersonReferenceList(x.controlPersons);
    ControlPersonReferenceListRoundTrip(x.controlPersons);
  }

  lemma BusinessIdentityDetailsCreatedByRoundTrip(x: BusinessIdentityDetails)
    ensures Required(Present(BusinessIdentityDetailsFields(x))[3], Profiles.DecodeIndividualProfile) == Some(x.createdBy)
  {
    assert BusinessIdentityDetailsFields(x)[3] == Profiles.EncodeIndividualProfile(x.createdBy);
    Profiles.IndividualProfileRoundTrip(x.createdBy);
  }

  lemma BusinessIdentityDetailsDirectBeneficialOwnersRoundTrip(x: BusinessIdentityDetails)
    ensures Required(Present(BusinessIdentityDetailsFields(x))[4], AsBeneficialOwnerReferenceList) == Some(x.directBeneficialOwners)
  {
    assert BusinessIdentityDetailsFields(x)[4] == FromBeneficialOwnerReferenceList(x.directBeneficialOwners);
    BeneficialOwnerReferenceListRoundTrip(x.directBeneficialOwners);
  }

  lemma BusinessIdentityDetailsIdentityFilesRoundTrip(x: BusinessIdentityDetails)
    ensures Required(Present(BusinessIdentityDetailsFields(x))[7], AsIdentityDocumentList) == Some(x.identityFiles)
  {
    assert BusinessIdentityDetailsFields(x)[7] == FromIdentityDocumentList(x.identityFiles);
    IdentityDocumentListRoundTrip(x.identityFiles);
  }

  lemma BusinessIdentityDetailsIncorporationStateRoundTrip(x: BusinessIdentityDetails)
    ensures Optional(Present(BusinessIdentityDetailsFields(x))[9], AsString) == Some(x.incorporationState)
  {
    assert BusinessIdentityDetailsFields(x)[9] == FromOption(x.incorporationState, FromString);
    OptionRoundTrip(x.incorporationState, AsString, FromString);
  }

  lemma BusinessIdentityDetailsPrimaryContactRoundTrip(x: BusinessIdentityDetails)
    ensures Required(Present(BusinessIdentityDetailsFields(x))[11], Profiles.DecodeIndividualProfile) == Some(x.primaryContact)
  {
    assert BusinessIdentityDetailsFields(x)[11] == Profiles.EncodeIndividualProfile(x.primaryContact);
    Profiles.IndividualProfileRoundTrip(x.primaryContact);
  }

  lemma BusinessIdentityDetailsPrincipalLocationRoundTrip(x: BusinessIdentityDetails)
    ensures Required(Present(BusinessIdentityDetailsFields(x))[12], DecodeLocation) == Some(x.principalLocation)
  {
    assert BusinessIdentityDetailsFields(x)[12] == EncodeLocation(x.principalLocation);
    LocationRoundTrip(x.principalLocation);
  }

  lemma BusinessIdentityDetailsRiskMonitorMatchesRoundTrip(x: BusinessIdentityDetails)
    ensures Required(Present(BusinessIdentityDetailsFields(x))[13], AsBusinessRiskMonitorMatchList) == Some(x.riskMonitorMatches)
  {
    assert BusinessIdentityDetailsFields(x)[13] == FromBusinessRiskMonitorMatchList(x.riskMonitorMatches);
    BusinessRiskMonitorMatchListRoundTrip(x.riskMonitorMatches);
  }

  lemma BusinessIdentityDetailsUserSessionRoundTrip(x: BusinessIdentityDetails)
    ensures Required(Present(BusinessIdentityDetailsFields(x))[15], DecodeUserSession) == Some(x.userSession)
  {
    assert BusinessIdentityDetailsFields(x)[15] == EncodeUserSession(x.userSession);
    UserSessionRoundTrip(x.userSession);
  }

  lemma BusinessIdentityDetailsPlainFieldsRoundTrip1(x: BusinessIdentityDetails)
    ensures Required(Present(BusinessIdentityDetailsFields(x))[1], AsRfc3339Time) == Some(x.completedAt)
    ensures Required(Present(BusinessIdentityDetailsFields(x))[5], AsRfc3339Time) == Some(x.expiresAt)
    ensures Required(Present(BusinessIdentityDetailsFields(x))[6], AsString) == Some(x.foreignTaxId)
    ensures Required(Present(BusinessIdentityDetailsFields(x))[8], AsCountryCode) == Some(x.incorporationCountry)
  {
  }

  lemma BusinessIdentityDetailsPlainFieldsRoundTrip2(x: BusinessIdentityDetails)
    ensures Required(Present(BusinessIdentityDetailsFields(x))[10], AsString) == Some(x.name)
    ensures Required(Present(BusinessIdentityDetailsFields(x))[14], AsString) == Some(x.usTaxId)
  {
  }

  lemma BusinessIdentityDetailsFieldsRoundTrip(x: BusinessIdentityDetails)
    ensures BusinessIdentityDetailsFromSlots(Present(BusinessIdentityDetailsFields(x))) == Some(x)
  {
    BusinessIdentityDetailsPlainFieldsRoundTrip1(x);
    BusinessIdentityDetailsPlainFieldsRoundTrip2(x);
    BusinessIdentityDetailsBusinessTypeRoundTrip(x);
    BusinessIdentityDetailsControlPersonsRoundTrip(x);
    BusinessIdentityDetailsCreatedByRoundTrip(x);
    BusinessIdentityDetailsDirectBeneficialOwnersRoundTrip(x);
    BusinessIdentityDetailsIdentityFilesRoundTrip(x);
    BusinessIdentityDetailsIncorporationStateRoundTrip(x);
    BusinessIdentityDetailsPrimaryContactRoundTrip(x);
    BusinessIdentityDetailsPrincipalLocationRoundTrip(x);
    BusinessIdentityDetailsRiskMonitorMatchesRoundTrip(x);
    BusinessIdentityDetailsUserSessionRoundTrip(x);
    BusinessIdentityDetailsReadsFieldwise(Present(BusinessIdentityDetailsFields(x)), x);
  }

  lemma BusinessIdentityDetailsRoundTrip(x: BusinessIdentityDetails)
    ensures DecodeBusinessIdentityDetails(EncodeBusinessIdentityDetails(x)) == Some(x)
  {
    BusinessIdentityDetailsKeysDistinct();
    SlotsOfObject(BusinessIdentityDetailsKeys, BusinessIdentityDetailsFields(x));
    BusinessIdentityDetailsFieldsRoundTrip(x);
  }

  /** `IndividualIdentityDetails` (src/types.rs:306-328). */
  datatype IndividualIdentityDetails = IndividualIdentityDetails(
    birthDate: Date,
    citizenshipCountry: CountryCode,
    completedAt: Rfc3339Time,
    createdBy: Profiles.IndividualProfile,
    domicileLocation: Location,
    email: string,
    expiresAt: Rfc3339Time,
    firstName: string,
    lastName: string,
    identityFiles: seq<IdentityDocument>,
    maritalStatus: Enums.MaritalStatus,
    phone: string,
    residenceLocation: Location,
    riskMonitorMatches: seq<IndividualRiskMonitorMatch>,
    usTaxId: string,
    foreignTaxId: Option<string>,
    userSession: UserSession
  )

  /** Wire names of the fields, in declaration order. */
  const IndividualIdentityDetailsKeys: seq<string> := [
    "birth_date",
    "citizenship_country",
    "completed_at",
    "created_by",
    "domicile_location",
    "email",
    "expires_at",
    "first_name",
    "last_name",
    "identity_files",
    "marital_status",
    "phone",
    "residence_location",
    "risk_monitor_matches",
    "us_tax_id",
    "foreign_tax_id",
    "user_session"
  ]

  lemma IndividualIdentityDetailsKeysDistinct()
    ensures EnumCodec.Distinct(IndividualIdentityDetailsKeys)
  {
  }

  function DecodeIndividualIdentityDetails(v: Json): (r: Option<IndividualIdentityDetails>)
    ensures r.Some? ==> v.Obj?
  {
    if v.Obj? then IndividualIdentityDetailsFromSlots(Slots(v.fields, IndividualIdentityDetailsKeys)) else None
  }

  function IndividualIdentityDetailsFromSlots(f: seq<Option<Json>>): Option<IndividualIdentityDetails>
    requires |f| == |IndividualIdentityDetailsKeys|
  {
    var birthDate := Required(f[0], AsDate);
    var citizenshipCountry := Required(f[1], AsCountryCode);
    var completedAt := Required(f[2], AsRfc3339Time);
    var createdBy := Required(f[3], Profiles.DecodeIndividualProfile);
    var domicileLocation := Required(f[4], DecodeLocation);
    var email := Required(f[5], AsString);
    var expiresAt := Required(f[6], AsRfc3339Time);
    var firstName := Required(f[7], AsString);
    var lastName := Required(f[8], AsString);
    var identityFiles := Required(f[9], AsIdentityDocumentList);
    var maritalStatus := Required(f[10], Enums.AsMaritalStatus);
    var phone := Required(f[11], AsString);
    var residenceLocation := Required(f[12], DecodeLocation);
    var riskMonitorMatches := Required(f[13], AsIndividualRiskMonitorMatchList);
    var usTaxId := Required(f[14], AsString);
    var foreignTaxId := Optional(f[15], AsString);
    var userSession := Required(f[16], DecodeUserSession);
    if
      && birthDate.Some?
      && citizenshipCountry.Some?
      && completedAt.Some?
      && createdBy.Some?
      && domicileLocation.Some?
      && email.Some?
      && expiresAt.Some?
      && firstName.Some?
      && lastName.Some?
      && identityFiles.Some?
      && maritalStatus.Some?
      && phone.Some?
      && residenceLocation.Some?
      && riskMonitorMatches.Some?
      && usTaxId.Some?
      && foreignTaxId.Some?
      && userSession.Some?
    then
      Some(IndividualIdentityDetails(
        birthDate.value,
        citizenshipCountry.value,
        completedAt.value,
        createdBy.value,
        domicileLocation.value,
        email.value,
        expiresAt.value,
        firstName.value,
        lastName.value,
        identityFiles.value,
        maritalStatus.value,
        phone.value,
        residenceLocation.value,
        riskMonitorMatches.value,
        usTaxId.value,
        foreignTaxId.value,
        userSession.value
      ))
    else None
  }

  function EncodeIndividualIdentityDetails(x: IndividualIdentityDetails): (v: Json)
    ensures v.Obj?
  {
    Obj(ObjectOf(IndividualIdentityDetailsKeys, IndividualIdentityDetailsFields(x)))
  }

  /** The serialized value of field `i`. */
  function IndividualIdentityDetailsField(x: IndividualIdentityDetails, i: nat): Json
    requires i < |IndividualIdentityDetailsKeys|
  {
    match i
    case 0 => FromDate(x.birthDate)
    case 1 => FromCountryCode(x.citizenshipCountry)
    case 2 => FromRfc3339Time(x.completedAt)
    case 3 => Profiles.EncodeIndividualProfile(x.createdBy)
    case 4 => EncodeLocation(x.domicileLocation)
    case 5 => FromString(x.email)
    case 6 => FromRfc3339Time(x.expiresAt)
    case 7 => FromString(x.firstName)
    case 8 => FromString(x.lastName)
    case 9 => FromIdentityDocumentList(x.identityFiles)
    case 10 => Enums.FromMaritalStatus(x.maritalStatus)
    case 11 => FromString(x.phone)
    case 12 => EncodeLocation(x.residenceLocation)
    case 13 => FromIndividualRiskMonitorMatchList(x.riskMonitorMatches)
    case 14 => FromString(x.usTaxId)
    case 15 => FromOption(x.foreignTaxId, FromString)
    case 16 => EncodeUserSession(x.userSession)
  }

  /** The serialized field values, in declaration order. */
  function IndividualIdentityDetailsFields(x: IndividualIdentityDetails): (vs: seq<Json>)
    ensures |vs| == |IndividualIdentityDetailsKeys|
  {
    seq(|IndividualIdentityDetailsKeys|, i requires 0 <= i < |IndividualIdentityDetailsKeys| => IndividualIdentityDetailsField(x, i))
  }

  /** Every slot reads as the corresponding field of `x`. */
  predicate IndividualIdentityDetailsSlotsRead(f: seq<Option<Json>>, x: IndividualIdentityDetails)
    requires |f| == |IndividualIdentityDetailsKeys|
  {
    && Required(f[0], AsDate) == Some(x.birthDate)
    && Required(f[1], AsCountryCode) == Some(x.citizenshipCountry)
    && Required(f[2], AsRfc3339Time) == Some(x.completedAt)
    && Required(f[3], Profiles.DecodeIndividualProfile) == Some(x.createdBy)
    && Required(f[4], DecodeLocation) == Some(x.domicileLocation)
    && Required(f[5], AsString) == Some(x.email)
    && Required(f[6], AsRfc3339Time) == Some(x.expiresAt)
    && Required(f[7], AsString) == Some(x.firstName)
    && Required(f[8], AsString) == Some(x.lastName)
    && Required(f[9], AsIdentityDocumentList) == Some(x.identityFiles)
    && Required(f[10], Enums.AsMaritalStatus) == Some(x.maritalStatus)
    && Required(f[11], AsString) == Some(x.phone)
    && Required(f[12], DecodeLocation) == Some(x.residenceLocation)
    && Required(f[13], AsIndividualRiskMonitorMatchList) == Some(x.riskMonitorMatches)
    && Required(f[14], AsString) == Some(x.usTaxId)
    && Optional(f[15], AsString) == Some(x.foreignTaxId)
    && Required(f[16], DecodeUserSession) == Some(x.userSession)
  }

  /** The decoder reads a value exactly when every slot reads as that value's field. */
  lemma IndividualIdentityDetailsReadsFieldwise(f: seq<Option<Json>>, x: IndividualIdentityDetails)
    requires |f| == |IndividualIdentityDetailsKeys|
    ensures IndividualIdentityDetailsFromSlots(f) == Some(x) ==> IndividualIdentityDetailsSlotsRead(f, x)
    ensures IndividualIdentityDetailsSlotsRead(f, x) ==> IndividualIdentityDetailsFromSlots(f) == Some(x)
  {
  }

  lemma IndividualIdentityDetailsCreatedByRoundTrip(x: IndividualIdentityDetails)
    ensures Required(Present(IndividualIdentityDetailsFields(x))[3], Profiles.DecodeIndividualProfile) == Some(x.createdBy)
  {
    assert IndividualIdentityDetailsFields(x)[3] == Profiles.EncodeIndividualProfile(x.createdBy);
    Profiles.IndividualProfileRoundTrip(x.createdBy);
  }

  lemma IndividualIdentityDetailsDomicileLocationRoundTrip(x: IndividualIdentityDetails)
    ensures Required(Present(IndividualIdentityDetailsFields(x))[4], DecodeLocation) == Some(x.domicileLocation)
  {
    assert IndividualIdentityDetailsFields(x)[4] == EncodeLocation(x.domicileLocation);
    LocationRoundTrip(x.domicileLocation);
  }

  lemma IndividualIdentityDetailsIdentityFilesRoundTrip(x: IndividualIdentityDetails)
    ensures Required(Present(IndividualIdentityDetailsFields(x))[9], AsIdentityDocumentList) == Some(x.identityFiles)
  {
    assert IndividualIdentityDetailsFields(x)[9] == FromIdentityDocumentList(x.identityFiles);
    IdentityDocumentListRoundTrip(x.identityFiles);
  }

  lemma IndividualIdentityDetailsMaritalStatusRoundTrip(x: IndividualIdentityDetails)
    ensures Required(Present(IndividualIdentityDetailsFields(x))[10], Enums.AsMaritalStatus) == Some(x.maritalStatus)
  {
    assert IndividualIdentityDetailsFields(x)[10] == Enums.FromMaritalStatus(x.maritalStatus);
    Enums.MaritalStatusRoundTrip(x.maritalStatus);
  }

  lemma IndividualIdentityDetailsResidenceLocationRoundTrip(x: IndividualIdentityDetails)
    ensures Required(Present(IndividualIdentityDetailsFields(x))[12], DecodeLocation) == Some(x.residenceLocation)
  {
    assert IndividualIdentityDetailsFields(x)[12] == EncodeLocation(x.residenceLocation);
    LocationRoundTrip(x.residenceLocation);
  }

  lemma IndividualIdentityDetailsRiskMonitorMatchesRoundTrip(x: IndividualIdentityDetails)
    ensures Required(Present(IndividualIdentityDetailsFields(x))[13], AsIndividualRiskMonitorMatchList) == Some(x.riskMonitorMatches)
  {
    assert IndividualIdentityDetailsFields(x)[13] == FromIndividualRiskMonitorMatchList(x.riskMonitorMatches);
    IndividualRiskMonitorMatchListRoundTrip(x.riskMonitorMatches);
  }

  lemma IndividualIdentityDetailsForeignTaxIdRoundTrip(x: IndividualIdentityDetails)
    ensures Optional(Present(IndividualIdentityDetailsFields(x))[15], AsString) == Some(x.foreignTaxId)
  {
    assert IndividualIdentityDetailsFields(x)[15] == FromOption(x.foreignTaxId, FromString);
    OptionRoundTrip(x.foreignTaxId, AsString, FromString);
  }

  lemma IndividualIdentityDetailsUserSessionRoundTrip(x: IndividualIdentityDetails)
    ensures Required(Present(IndividualIdentityDetailsFields(x))[16], DecodeUserSession) == Some(x.userSession)
  {
    assert IndividualIdentityDetailsFields(x)[16] == EncodeUserSession(x.userSession);
    UserSessionRoundTrip(x.userSession);
  }

  lemma IndividualIdentityDetailsPlainFieldsRoundTrip1(x: IndividualIdentityDetails)
    ensures Required(Present(IndividualIdentityDetailsFields(x))[0], AsDate) == Some(x.birthDate)
    ensures Required(Present(IndividualIdentityDetailsFields(x))[1], AsCountryCode) == Some(x.citizenshipCountry)
    ensures Required(Present(IndividualIdentityDetailsFields(x))[2], AsRfc3339Time) == Some(x.completedAt)
    ensures Required(Present(IndividualIdentityDetailsFields(x))[5], AsString) == Some(x.email)
  {
  }

  lemma IndividualIdentityDetailsPlainFieldsRoundTrip2(x: IndividualIdentityDetails)
    ensures Required(Present(IndividualIdentityDetailsFields(x))[6], AsRfc3339Time) == Some(x.expiresAt)
    ensures Required(Present(IndividualIdentityDetailsFields(x))[7], AsString) == Some(x.firstName)
    ensures Required(Present(IndividualIdentityDetailsFields(x))[8], AsString) == Some(x.lastName)
    ensures Required(Present(IndividualIdentityDetailsFields(x))[11], AsString) == Some(x.phone)
  {
  }

  lemma IndividualIdentityDetailsPlainFieldsRoundTrip3(x: IndividualIdentityDetails)
    ensures Required(Present(IndividualIdentityDetailsFields(x))[14], AsString) == Some(x.usTaxId)
  {
  }

  lemma IndividualIdentityDetailsFieldsRoundTrip(x: IndividualIdentityDetails)
    ensures IndividualIdentityDetailsFromSlots(Present(IndividualIdentityDetailsFields(x))) == Some(x)
  {
    IndividualIdentityDetailsPlainFieldsRoundTrip1(x);
    IndividualIdentityDetailsPlainFieldsRoundTrip2(x);
    IndividualIdentityDetailsPlainFieldsRoundTrip3(x);
    IndividualIdentityDetailsCreatedByRoundTrip(x);
    IndividualIdentityDetailsDomicileLocationRoundTrip(x);
    IndividualIdentityDetailsIdentityFilesRoundTrip(x);
    IndividualIdentityDetailsMaritalStatusRoundTrip(x);
    IndividualIdentityDetailsResidenceLocationRoundTrip(x);
    IndividualIdentityDetailsRiskMonitorMatchesRoundTrip(x);
    IndividualIdentityDetailsForeignTaxIdRoundTrip(x);
    IndividualIdentityDetailsUserSessionRoundTrip(x);
    IndividualIdentityDetailsReadsFieldwise(Present(IndividualIdentityDetailsFields(x)), x);
  }

  lemma IndividualIdentityDetailsRoundTrip(x: IndividualIdentityDetails)
    ensures DecodeIndividualIdentityDetails(EncodeIndividualIdentityDetails(x)) == Some(x)
  {
    IndividualIdentityDetailsKeysDistinct();
    SlotsOfObject(IndividualIdentityDetailsKeys, IndividualIdentityDetailsFields(x));
    IndividualIdentityDetailsFieldsRoundTrip(x);
  }

  // Optional fields and document expiry

  /** A missing `region` or `state` reads as `None`, never as an empty string. */
  lemma LocationOptionalFieldsMayBeMissing(v: Json)
    requires v.Obj?
    ensures DecodeLocation(v).Some? && "region" !in v.fields ==> DecodeLocation(v).value.region.None?
    ensures DecodeLocation(v).Some? && "state" !in v.fields ==> DecodeLocation(v).value.state.None?
  {
    if DecodeLocation(v).Some? {
      LocationReadsFieldwise(Slots(v.fields, LocationKeys), DecodeLocation(v).value);
    }
  }

  /** A missing `foreign_tax_id` reads as `None` for an individual. */
  lemma IndividualForeignTaxIdMayBeMissing(v: Json)
    requires v.Obj? && "foreign_tax_id" !in v.fields
    ensures DecodeIndividualIdentityDetails(v).Some? ==> DecodeIndividualIdentityDetails(v).value.foreignTaxId.None?
  {
    var f := Slots(v.fields, IndividualIdentityDetailsKeys);
    assert f[15] == None;
    if DecodeIndividualIdentityDetails(v).Some? {
      IndividualIdentityDetailsReadsFieldwise(f, DecodeIndividualIdentityDetails(v).value);
    }
  }

  /** A business must send `foreign_tax_id`: there it is a plain `String`. */
  lemma BusinessForeignTaxIdRequired(v: Json)
    requires v.Obj? && "foreign_tax_id" !in v.fields
    ensures DecodeBusinessIdentityDetails(v).None?
  {
    var f := Slots(v.fields, BusinessIdentityDetailsKeys);
    assert f[6] == None;
    if DecodeBusinessIdentityDetails(v).Some? {
      BusinessIdentityDetailsReadsFieldwise(f, DecodeBusinessIdentityDetails(v).value);
    }
  }

  /** `download_url_expires` is the number sent, taken over without conversion. */
  lemma IdentityDocumentExpiryIsCarried(v: Json)
    requires DecodeIdentityDocument(v).Some?
    ensures "download_url_expires" in v.fields
    ensures v.fields["download_url_expires"] == Int(DecodeIdentityDocument(v).value.downloadUrlExpires)
  {
  }

  // The untagged identity details

  /** `identity_details` tries the business shape first. */
  function AsIdentityDetails(v: Json): Option<Either<BusinessIdentityDetails, IndividualIdentityDetails>> {
    DecodeUntagged(v, DecodeBusinessIdentityDetails, DecodeIndividualIdentityDetails)
  }

  function FromIdentityDetails(e: Either<BusinessIdentityDetails, IndividualIdentityDetails>): Json {
    EncodeUntagged(e, EncodeBusinessIdentityDetails, EncodeIndividualIdentityDetails)
  }

  /** The business shape requires `business_type`; an object without it is never business
      details. */
  lemma BusinessDetailsNeedBusinessType(v: Json)
    requires v.Obj? && "business_type" !in v.fields
    ensures DecodeBusinessIdentityDetails(v).None?
  {
  }

  /** Written individual details carry no `business_type`, so the business shape, tried first,
      rejects them. */
  lemma BusinessShapeRejectsIndividualDetails(x: IndividualIdentityDetails)
    ensures DecodeBusinessIdentityDetails(EncodeIndividualIdentityDetails(x)).None?
  {
    ObjectOfKeys(IndividualIdentityDetailsKeys, IndividualIdentityDetailsFields(x));
    assert "business_type" !in IndividualIdentityDetailsKeys;
    BusinessDetailsNeedBusinessType(EncodeIndividualIdentityDetails(x));
  }

  /** Either kind of details reads back as the kind that was written. */
  lemma IdentityDetailsRoundTrip(e: Either<BusinessIdentityDetails, IndividualIdentityDetails>)
    ensures AsIdentityDetails(FromIdentityDetails(e)) == Some(e)
  {
    match e
    case Left(b) =>
      BusinessIdentityDetailsRoundTrip(b);
    case Right(i) =>
      BusinessShapeRejectsIndividualDetails(i);
      IndividualIdentityDetailsRoundTrip(i);
    UntaggedRoundTrip(e, DecodeBusinessIdentityDetails, DecodeIndividualIdentityDetails,
                      EncodeBusinessIdentityDetails, EncodeIndividualIdentityDetails);
  }
}
