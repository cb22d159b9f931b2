/** The unit-variant enumerations of the payload types (src/types.rs) and their serde codecs.

    Each enumeration comes with its variants in declaration order, its wire names in the same
    order, and the declaration index of each variant; `EnumCodec` turns that table into an
    encoder and a strict decoder. For each enumeration the model proves the round trip
    (decoding a variant's name gives the variant back), that decoding rejects exactly the
    strings outside the table, and that no two variants share a name.

    `Scope` lives in its own module, `Scopes`, because it also has a hand-written `Display`.
 */
module Enums {
  import opened Wrappers
  import opened Json
  import EnumCodec

  datatype BusinessType =
    | PublicCharity
    | PrivateFoundation
    | SCorporation
    | CCorporation
    | IrrevocableTrust
    | RevocableTrust
    | PartnershipLLC
    | PartnershipLP
    | FamilyOffice

  /** Declaration order and wire names: explicit `rename` on every variant; the type has no `rename_all`. */
  const BusinessTypes: seq<BusinessType> := [
    PublicCharity,
    PrivateFoundation,
    SCorporation,
    CCorporation,
    IrrevocableTrust,
    RevocableTrust,
    PartnershipLLC,
    PartnershipLP,
    FamilyOffice
  ]
  const BusinessTypeNames: seq<string> := [
    "Public Charity",
    "Private Foundation",
    "S Corporation",
    "C Corporation",
    "Irrevocable Trust",
    "Revocable Trust",
    "Partnership LLC",
    "Partnership LP",
    "Family Office"
  ]

  function BusinessTypeIndex(x: BusinessType): (k: nat)
    ensures k < |BusinessTypes| && BusinessTypes[k] == x
  {
    match x
    case PublicCharity => 0
    case PrivateFoundation => 1
    case SCorporation => 2
    case CCorporation => 3
    case IrrevocableTrust => 4
    case RevocableTrust => 5
    case PartnershipLLC => 6
    case PartnershipLP => 7
    case FamilyOffice => 8
  }

  lemma BusinessTypeTable()
    ensures EnumCodec.IsTable(BusinessTypes, BusinessTypeNames, BusinessTypeIndex)
  {
  }

  function EncodeBusinessType(x: BusinessType): string {
    BusinessTypeNames[BusinessTypeIndex(x)]
  }

  function DecodeBusinessType(s: string): (r: Option<BusinessType>)
    ensures r.None? <==> s !in BusinessTypeNames
    ensures r.Some? ==> EncodeBusinessType(r.value) == s
  {
    BusinessTypeTable();
    EnumCodec.EncodeInvertsDecode(BusinessTypes, BusinessTypeNames, BusinessTypeIndex, s);
    EnumCodec.Decode(BusinessTypes, BusinessTypeNames, s)
  }

  lemma BusinessTypeRoundTrip(x: BusinessType)
    ensures DecodeBusinessType(EncodeBusinessType(x)) == Some(x)
  {
    BusinessTypeTable();
    EnumCodec.DecodeInvertsEncode(BusinessTypes, BusinessTypeNames, BusinessTypeIndex, x);
  }

  lemma BusinessTypeInjective(x: BusinessType, y: BusinessType)
    ensures EncodeBusinessType(x) == EncodeBusinessType(y) ==> x == y
  {
    BusinessTypeTable();
    EnumCodec.EncodeInjective(BusinessTypes, BusinessTypeNames, BusinessTypeIndex, x, y);
  }

  /** The JSON form: the wire name, as a string or as the only key of an object whose value is
      `null`; serde_json reads a unit variant from either. */
  function AsBusinessType(v: Json): (r: Option<BusinessType>)
    ensures r.Some? <==> UnitVariantName(v).Some? && UnitVariantName(v).value in BusinessTypeNames
    ensures r.Some? ==> v == Str(EncodeBusinessType(r.value)) || v == Obj(map[EncodeBusinessType(r.value) := Null])
  {
    match UnitVariantName(v)
    case None => None
    case Some(name) => DecodeBusinessType(name)
  }

  function FromBusinessType(x: BusinessType): Json {
    Str(EncodeBusinessType(x))
  }

  datatype DocumentType = CertificationLetter

  /** Declaration order and wire names: `rename_all = "kebab-case"`. */
  const DocumentTypes: seq<DocumentType> := [CertificationLetter]
  const DocumentTypeNames: seq<string> := ["certification-letter"]

  function DocumentTypeIndex(x: DocumentType): (k: nat)
    ensures k < |DocumentTypes| && DocumentTypes[k] == x
  {
    match x
    case CertificationLetter => 0
  }

  lemma DocumentTypeTable()
    ensures EnumCodec.IsTable(DocumentTypes, DocumentTypeNames, DocumentTypeIndex)
  {
  }

  function EncodeDocumentType(x: DocumentType): string {
    DocumentTypeNames[DocumentTypeIndex(x)]
  }

  function DecodeDocumentType(s: string): (r: Option<DocumentType>)
    ensures r.None? <==> s !in DocumentTypeNames
    ensures r.Some? ==> EncodeDocumentType(r.value) == s
  {
    DocumentTypeTable();
    EnumCodec.EncodeInvertsDecode(DocumentTypes, DocumentTypeNames, DocumentTypeIndex, s);
    EnumCodec.Decode(DocumentTypes, DocumentTypeNames, s)
  }

  lemma DocumentTypeRoundTrip(x: DocumentType)
    ensures DecodeDocumentType(EncodeDocumentType(x)) == Some(x)
  {
    DocumentTypeTable();
    EnumCodec.DecodeInvertsEncode(DocumentTypes, DocumentTypeNames, DocumentTypeIndex, x);
  }

  lemma DocumentTypeInjective(x: DocumentType, y: DocumentType)
    ensures EncodeDocumentType(x) == EncodeDocumentType(y) ==> x == y
  {
    DocumentTypeTable();
    EnumCodec.EncodeInjective(DocumentTypes, DocumentTypeNames, DocumentTypeIndex, x, y);
  }

  /** The JSON form: the wire name, as a string or as the only key of an object whose value is
      `null`; serde_json reads a unit variant from either. */
  function AsDocumentType(v: Json): (r: Option<DocumentType>)
    ensures r.Some? <==> UnitVariantName(v).Some? && UnitVariantName(v).value in DocumentTypeNames
    ensures r.Some? ==> v == Str(EncodeDocumentType(r.value)) || v == Obj(map[EncodeDocumentType(r.value) := Null])
  {
    match UnitVariantName(v)
    case None => None
    case Some(name) => DecodeDocumentType(name)
  }

  function FromDocumentType(x: DocumentType): Json {
    Str(EncodeDocumentType(x))
  }

  datatype AccreditationStatus =
    | Current
    | Pending
    | ThirdPartyPending
    | Expired
    | Rejected

  /** Declaration order and wire names: `rename_all = "snake_case"`. */
  const AccreditationStatuses: seq<AccreditationStatus> := [
    Current,
    Pending,
    ThirdPartyPending,
    Expired,
    Rejected
  ]
  const AccreditationStatusNames: seq<string> := [
    "current",
    "pending",
    "third_party_pending",
    "expired",
    "rejected"
  ]

  function AccreditationStatusIndex(x: AccreditationStatus): (k: nat)
    ensures k < |AccreditationStatuses| && AccreditationStatuses[k] == x
  {
    match x
    case Current => 0
    case Pending => 1
    case ThirdPartyPending => 2
    case Expired => 3
    case Rejected => 4
  }

  lemma AccreditationStatusTable()
    ensures EnumCodec.IsTable(AccreditationStatuses, AccreditationStatusNames, AccreditationStatusIndex)
  {
  }

  function EncodeAccreditationStatus(x: AccreditationStatus): string {
    AccreditationStatusNames[AccreditationStatusIndex(x)]
  }

  function DecodeAccreditationStatus(s: string): (r: Option<AccreditationStatus>)
    ensures r.None? <==> s !in AccreditationStatusNames
    ensures r.Some? ==> EncodeAccreditationStatus(r.value) == s
  {
    AccreditationStatusTable();
    EnumCodec.EncodeInvertsDecode(AccreditationStatuses, AccreditationStatusNames, AccreditationStatusIndex, s);
    EnumCodec.Decode(AccreditationStatuses, AccreditationStatusNames, s)
  }

  lemma AccreditationStatusRoundTrip(x: AccreditationStatus)
    ensures DecodeAccreditationStatus(EncodeAccreditationStatus(x)) == Some(x)
  {
    AccreditationStatusTable();
    EnumCodec.DecodeInvertsEncode(AccreditationStatuses, AccreditationStatusNames, AccreditationStatusIndex, x);
  }

  lemma AccreditationStatusInjective(x: AccreditationStatus, y: AccreditationStatus)
    ensures EncodeAccreditationStatus(x) == EncodeAccreditationStatus(y) ==> x == y
  {
    AccreditationStatusTable();
    EnumCodec.EncodeInjective(AccreditationStatuses, AccreditationStatusNames, AccreditationStatusIndex, x, y);
  }

  /** The JSON form: the wire name, as a string or as the only key of an object whose value is
      `null`; serde_json reads a unit variant from either. */
  function AsAccreditationStatus(v: Json): (r: Option<AccreditationStatus>)
    ensures r.Some? <==> UnitVariantName(v).Some? && UnitVariantName(v).value in AccreditationStatusNames
    ensures r.Some? ==> v == Str(EncodeAccreditationStatus(r.value)) || v == Obj(map[EncodeAccreditationStatus(r.value) := Null])
  {
    match UnitVariantName(v)
    case None => None
    case Some(name) => DecodeAccreditationStatus(name)
  }

  function FromAccreditationStatus(x: AccreditationStatus): Json {
    Str(EncodeAccreditationStatus(x))
  }

  datatype BusinessAssertionType = Worth | EvaluatorAssertion | AccreditedOwners

  /** Declaration order and wire names: `rename_all = "kebab-case"`. */
  const BusinessAssertionTypes: seq<BusinessAssertionType> := [
    BusinessAssertionType.Worth,
    BusinessAssertionType.EvaluatorAssertion,
    BusinessAssertionType.AccreditedOwners
  ]
  const BusinessAssertionTypeNames: seq<string> := [
    "worth",
    "evaluator-assertion",
    "accredited-owners"
  ]

  function BusinessAssertionTypeIndex(x: BusinessAssertionType): (k: nat)
    ensures k < |BusinessAssertionTypes| && BusinessAssertionTypes[k] == x
  {
    match x
    case Worth => 0
    case EvaluatorAssertion => 1
    case AccreditedOwners => 2
  }

  lemma BusinessAssertionTypeTable()
    ensures EnumCodec.IsTable(BusinessAssertionTypes, BusinessAssertionTypeNames, BusinessAssertionTypeIndex)
  {
  }

  function EncodeBusinessAssertionType(x: BusinessAssertionType): string {
    BusinessAssertionTypeNames[BusinessAssertionTypeIndex(x)]
  }

  function DecodeBusinessAssertionType(s: string): (r: Option<BusinessAssertionType>)
    ensures r.None? <==> s !in BusinessAssertionTypeNames
    ensures r.Some? ==> EncodeBusinessAssertionType(r.value) == s
  {
    BusinessAssertionTypeTable();
    EnumCodec.EncodeInvertsDecode(BusinessAssertionTypes, BusinessAssertionTypeNames, BusinessAssertionTypeIndex, s);
    EnumCodec.Decode(BusinessAssertionTypes, BusinessAssertionTypeNames, s)
  }

  lemma BusinessAssertionTypeRoundTrip(x: BusinessAssertionType)
    ensures DecodeBusinessAssertionType(EncodeBusinessAssertionType(x)) == Some(x)
  {
    BusinessAssertionTypeTable();
    EnumCodec.DecodeInvertsEncode(BusinessAssertionTypes, BusinessAssertionTypeNames, BusinessAssertionTypeIndex, x);
  }

  lemma BusinessAssertionTypeInjective(x: BusinessAssertionType, y: BusinessAssertionType)
    ensures EncodeBusinessAssertionType(x) == EncodeBusinessAssertionType(y) ==> x == y
  {
    BusinessAssertionTypeTable();
    EnumCodec.EncodeInjective(BusinessAssertionTypes, BusinessAssertionTypeNames, BusinessAssertionTypeIndex, x, y);
  }

  /** The JSON form: the wire name, as a string or as the only key of an object whose value is
      `null`; serde_json reads a unit variant from either. */
  function AsBusinessAssertionType(v: Json): (r: Option<BusinessAssertionType>)
    ensures r.Some? <==> UnitVariantName(v).Some? && UnitVariantName(v).value in BusinessAssertionTypeNames
    ensures r.Some? ==> v == Str(EncodeBusinessAssertionType(r.value)) || v == Obj(map[EncodeBusinessAssertionType(r.value) := Null])
  {
    match UnitVariantName(v)
    case None => None
    case Some(name) => DecodeBusinessAssertionType(name)
  }

  function FromBusinessAssertionType(x: BusinessAssertionType): Json {
    Str(EncodeBusinessAssertionType(x))
  }

  datatype IndividualAssertionType = Income | NetWorth | EvaluatorAssertion | ProfessionalLicense

  /** Declaration order and wire names: `rename_all = "kebab-case"`. */
  const IndividualAssertionTypes: seq<IndividualAssertionType> := [
    IndividualAssertionType.Income,
    IndividualAssertionType.NetWorth,
    IndividualAssertionType.EvaluatorAssertion,
    IndividualAssertionType.ProfessionalLicense
  ]
  const IndividualAssertionTypeNames: seq<string> := [
    "income",
    "net-worth",
    "evaluator-assertion",
    "professional-license"
  ]

  function IndividualAssertionTypeIndex(x: IndividualAssertionType): (k: nat)
    ensures k < |IndividualAssertionTypes| && IndividualAssertionTypes[k] == x
  {
    match x
    case Income => 0
    case NetWorth => 1
    case EvaluatorAssertion => 2
    case ProfessionalLicense => 3
  }

  lemma IndividualAssertionTypeTable()
    ensures EnumCodec.IsTable(IndividualAssertionTypes, IndividualAssertionTypeNames, IndividualAssertionTypeIndex)
  {
  }

  function EncodeIndividualAssertionType(x: IndividualAssertionType): string {
    IndividualAssertionTypeNames[IndividualAssertionTypeIndex(x)]
  }

  function DecodeIndividualAssertionType(s: string): (r: Option<IndividualAssertionType>)
    ensures r.None? <==> s !in IndividualAssertionTypeNames
    ensures r.Some? ==> EncodeIndividualAssertionType(r.value) == s
  {
    IndividualAssertionTypeTable();
    EnumCodec.EncodeInvertsDecode(IndividualAssertionTypes, IndividualAssertionTypeNames, IndividualAssertionTypeIndex, s);
    EnumCodec.Decode(IndividualAssertionTypes, IndividualAssertionTypeNames, s)
  }

  lemma IndividualAssertionTypeRoundTrip(x: IndividualAssertionType)
    ensures DecodeIndividualAssertionType(EncodeIndividualAssertionType(x)) == Some(x)
  {
    IndividualAssertionTypeTable();
    EnumCodec.DecodeInvertsEncode(IndividualAssertionTypes, IndividualAssertionTypeNames, IndividualAssertionTypeIndex, x);
  }

  lemma IndividualAssertionTypeInjective(x: IndividualAssertionType, y: IndividualAssertionType)
    ensures EncodeIndividualAssertionType(x) == EncodeIndividualAssertionType(y) ==> x == y
  {
    IndividualAssertionTypeTable();
    EnumCodec.EncodeInjective(IndividualAssertionTypes, IndividualAssertionTypeNames, IndividualAssertionTypeIndex, x, y);
  }

  /** The JSON form: the wire name, as a string or as the only key of an object whose value is
      `null`; serde_json reads a unit variant from either. */
  function AsIndividualAssertionType(v: Json): (r: Option<IndividualAssertionType>)
    ensures r.Some? <==> UnitVariantName(v).Some? && UnitVariantName(v).value in IndividualAssertionTypeNames
    ensures r.Some? ==> v == Str(EncodeIndividualAssertionType(r.value)) || v == Obj(map[EncodeIndividualAssertionType(r.value) := Null])
  {
    match UnitVariantName(v)
    case None => None
    case Some(name) => DecodeIndividualAssertionType(name)
  }

  function FromIndividualAssertionType(x: IndividualAssertionType): Json {
    Str(EncodeIndividualAssertionType(x))
  }

  datatype EntityType = Individual | Business

  /** Declaration order and wire names: `rename_all = "snake_case"`. */
  const EntityTypes: seq<EntityType> := [Individual, Business]
  const EntityTypeNames: seq<string> := ["individual", "business"]

  function EntityTypeIndex(x: EntityType): (k: nat)
    ensures k < |EntityTypes| && EntityTypes[k] == x
  {
    match x
    case Individual => 0
    case Business => 1
  }

  lemma EntityTypeTable()
    ensures EnumCodec.IsTable(EntityTypes, EntityTypeNames, EntityTypeIndex)
  {
  }

  function EncodeEntityType(x: EntityType): string {
    EntityTypeNames[EntityTypeIndex(x)]
  }

  function DecodeEntityType(s: string): (r: Option<EntityType>)
    ensures r.None? <==> s !in EntityTypeNames
    ensures r.Some? ==> EncodeEntityType(r.value) == s
  {
    EntityTypeTable();
    EnumCodec.EncodeInvertsDecode(EntityTypes, EntityTypeNames, EntityTypeIndex, s);
    EnumCodec.Decode(EntityTypes, EntityTypeNames, s)
  }

  lemma EntityTypeRoundTrip(x: EntityType)
    ensures DecodeEntityType(EncodeEntityType(x)) == Some(x)
  {
    EntityTypeTable();
    EnumCodec.DecodeInvertsEncode(EntityTypes, EntityTypeNames, EntityTypeIndex, x);
  }

  lemma EntityTypeInjective(x: EntityType, y: EntityType)
    ensures EncodeEntityType(x) == EncodeEntityType(y) ==> x == y
  {
    EntityTypeTable();
    EnumCodec.EncodeInjective(EntityTypes, EntityTypeNames, EntityTypeIndex, x, y);
  }

  /** The JSON form: the wire name, as a string or as the only key of an object whose value is
      `null`; serde_json reads a unit variant from either. */
  function AsEntityType(v: Json): (r: Option<EntityType>)
    ensures r.Some? <==> UnitVariantName(v).Some? && UnitVariantName(v).value in EntityTypeNames
    ensures r.Some? ==> v == Str(EncodeEntityType(r.value)) || v == Obj(map[EncodeEntityType(r.value) := Null])
  {
    match UnitVariantName(v)
    case None => None
    case Some(name) => DecodeEntityType(name)
  }

  function FromEntityType(x: EntityType): Json {
    Str(EncodeEntityType(x))
  }

  datatype IdentityDocumentType = DriversLicense | StateIdCard | Passport

  /** Declaration order and wire names: `rename_all = "kebab-case"`. */
  const IdentityDocumentTypes: seq<IdentityDocumentType> := [DriversLicense, StateIdCard, Passport]
  const IdentityDocumentTypeNames: seq<string> := ["drivers-license", "state-id-card", "passport"]

  function IdentityDocumentTypeIndex(x: IdentityDocumentType): (k: nat)
    ensures k < |IdentityDocumentTypes| && IdentityDocumentTypes[k] == x
  {
    match x
    case DriversLicense => 0
    case StateIdCard => 1
    case Passport => 2
  }

  lemma IdentityDocumentTypeTable()
    ensures EnumCodec.IsTable(IdentityDocumentTypes, IdentityDocumentTypeNames, IdentityDocumentTypeIndex)
  {
  }

  function EncodeIdentityDocumentType(x: IdentityDocumentType): string {
    IdentityDocumentTypeNames[IdentityDocumentTypeIndex(x)]
  }

  function DecodeIdentityDocumentType(s: string): (r: Option<IdentityDocumentType>)
    ensures r.None? <==> s !in IdentityDocumentTypeNames
    ensures r.Some? ==> EncodeIdentityDocumentType(r.value) == s
  {
    IdentityDocumentTypeTable();
    EnumCodec.EncodeInvertsDecode(IdentityDocumentTypes, IdentityDocumentTypeNames, IdentityDocumentTypeIndex, s);
    EnumCodec.Decode(IdentityDocumentTypes, IdentityDocumentTypeNames, s)
  }

  lemma IdentityDocumentTypeRoundTrip(x: IdentityDocumentType)
    ensures DecodeIdentityDocumentType(EncodeIdentityDocumentType(x)) == Some(x)
  {
    IdentityDocumentTypeTable();
    EnumCodec.DecodeInvertsEncode(IdentityDocumentTypes, IdentityDocumentTypeNames, IdentityDocumentTypeIndex, x);
  }

  lemma IdentityDocumentTypeInjective(x: IdentityDocumentType, y: IdentityDocumentType)
    ensures EncodeIdentityDocumentType(x) == EncodeIdentityDocumentType(y) ==> x == y
  {
    IdentityDocumentTypeTable();
    EnumCodec.EncodeInjective(IdentityDocumentTypes, IdentityDocumentTypeNames, IdentityDocumentTypeIndex, x, y);
  }

  /** The JSON form: the wire name, as a string or as the only key of an object whose value is
      `null`; serde_json reads a unit variant from either. */
  function AsIdentityDocumentType(v: Json): (r: Option<IdentityDocumentType>)
    ensures r.Some? <==> UnitVariantName(v).Some? && UnitVariantName(v).value in IdentityDocumentTypeNames
    ensures r.Some? ==> v == Str(EncodeIdentityDocumentType(r.value)) || v == Obj(map[EncodeIdentityDocumentType(r.value) := Null])
  {
    match UnitVariantName(v)
    case None => None
    case Some(name) => DecodeIdentityDocumentType(name)
  }

  function FromIdentityDocumentType(x: IdentityDocumentType): Json {
    Str(EncodeIdentityDocumentType(x))
  }

  datatype MaritalStatus = Single | Married | Separated | Divorced

  /** Declaration order and wire names: `rename_all = "snake_case"`. */
  const MaritalStatuses: seq<MaritalStatus> := [Single, Married, Separated, Divorced]
  const MaritalStatusNames: seq<string> := ["single", "married", "separated", "divorced"]

  function MaritalStatusIndex(x: MaritalStatus): (k: nat)
    ensures k < |MaritalStatuses| && MaritalStatuses[k] == x
  {
    match x
    case Single => 0
    case Married => 1
    case Separated => 2
    case Divorced => 3
  }

  lemma MaritalStatusTable()
    ensures EnumCodec.IsTable(MaritalStatuses, MaritalStatusNames, MaritalStatusIndex)
  {
  }

  function EncodeMaritalStatus(x: MaritalStatus): string {
    MaritalStatusNames[MaritalStatusIndex(x)]
  }

  function DecodeMaritalStatus(s: string): (r: Option<MaritalStatus>)
    ensures r.None? <==> s !in MaritalStatusNames
    ensures r.Some? ==> EncodeMaritalStatus(r.value) == s
  {
    MaritalStatusTable();
    EnumCodec.EncodeInvertsDecode(MaritalStatuses, MaritalStatusNames, MaritalStatusIndex, s);
    EnumCodec.Decode(MaritalStatuses, MaritalStatusNames, s)
  }

  lemma MaritalStatusRoundTrip(x: MaritalStatus)
    ensures DecodeMaritalStatus(EncodeMaritalStatus(x)) == Some(x)
  {
    MaritalStatusTable();
    EnumCodec.DecodeInvertsEncode(MaritalStatuses, MaritalStatusNames, MaritalStatusIndex, x);
  }

  lemma MaritalStatusInjective(x: MaritalStatus, y: MaritalStatus)
    ensures EncodeMaritalStatus(x) == EncodeMaritalStatus(y) ==> x == y
  {
    MaritalStatusTable();
    EnumCodec.EncodeInjective(MaritalStatuses, MaritalStatusNames, MaritalStatusIndex, x, y);
  }

  /** The JSON form: the wire name, as a string or as the only key of an object whose value is
      `null`; serde_json reads a unit variant from either. */
  function AsMaritalStatus(v: Json): (r: Option<MaritalStatus>)
    ensures r.Some? <==> UnitVariantName(v).Some? && UnitVariantName(v).value in MaritalStatusNames
    ensures r.Some? ==> v == Str(EncodeMaritalStatus(r.value)) || v == Obj(map[EncodeMaritalStatus(r.value) := Null])
  {
    match UnitVariantName(v)
    case None => None
    case Some(name) => DecodeMaritalStatus(name)
  }

  function FromMaritalStatus(x: MaritalStatus): Json {
    Str(EncodeMaritalStatus(x))
  }

  datatype ProvidingFor = AsSelf | ControlledBusiness | OtherIndividual

  /** Declaration order and wire names: `rename_all = "kebab-case"`, overridden by `rename = "self"` on `AsSelf`. */
  const ProvidingFors: seq<ProvidingFor> := [AsSelf, ControlledBusiness, OtherIndividual]
  const ProvidingForNames: seq<string> := ["self", "controlled-business", "other-individual"]

  function ProvidingForIndex(x: ProvidingFor): (k: nat)
    ensures k < |ProvidingFors| && ProvidingFors[k] == x
  {
    match x
    case AsSelf => 0
    case ControlledBusiness => 1
    case OtherIndividual => 2
  }

  lemma ProvidingForTable()
    ensures EnumCodec.IsTable(ProvidingFors, ProvidingForNames, ProvidingForIndex)
  {
  }

  function EncodeProvidingFor(x: ProvidingFor): string {
    ProvidingForNames[ProvidingForIndex(x)]
  }

  function DecodeProvidingFor(s: string): (r: Option<ProvidingFor>)
    ensures r.None? <==> s !in ProvidingForNames
    ensures r.Some? ==> EncodeProvidingFor(r.value) == s
  {
    ProvidingForTable();
    EnumCodec.EncodeInvertsDecode(ProvidingFors, ProvidingForNames, ProvidingForIndex, s);
    EnumCodec.Decode(ProvidingFors, ProvidingForNames, s)
  }

  lemma ProvidingForRoundTrip(x: ProvidingFor)
    ensures DecodeProvidingFor(EncodeProvidingFor(x)) == Some(x)
  {
    ProvidingForTable();
    EnumCodec.DecodeInvertsEncode(ProvidingFors, ProvidingForNames, ProvidingForIndex, x);
  }

  lemma ProvidingForInjective(x: ProvidingFor, y: ProvidingFor)
    ensures EncodeProvidingFor(x) == EncodeProvidingFor(y) ==> x == y
  {
    ProvidingForTable();
    EnumCodec.EncodeInjective(ProvidingFors, ProvidingForNames, ProvidingForIndex, x, y);
  }

  /** The JSON form: the wire name, as a string or as the only key of an object whose value is
      `null`; serde_json reads a unit variant from either. */
  function AsProvidingFor(v: Json): (r: Option<ProvidingFor>)
    ensures r.Some? <==> UnitVariantName(v).Some? && UnitVariantName(v).value in ProvidingForNames
    ensures r.Some? ==> v == Str(EncodeProvidingFor(r.value)) || v == Obj(map[EncodeProvidingFor(r.value) := Null])
  {
    match UnitVariantName(v)
    case None => None
    case Some(name) => DecodeProvidingFor(name)
  }

  function FromProvidingFor(x: ProvidingFor): Json {
    Str(EncodeProvidingFor(x))
  }

  datatype RevokeType = Subject | Partner | System

  /** Declaration order and wire names: `rename_all = "snake_case"`. */
  const RevokeTypes: seq<RevokeType> := [Subject, Partner, System]
  const RevokeTypeNames: seq<string> := ["subject", "partner", "system"]

  function RevokeTypeIndex(x: RevokeType): (k: nat)
    ensures k < |RevokeTypes| && RevokeTypes[k] == x
  {
    match x
    case Subject => 0
    case Partner => 1
    case System => 2
  }

  lemma RevokeTypeTable()
    ensures EnumCodec.IsTable(RevokeTypes, RevokeTypeNames, RevokeTypeIndex)
  {
  }

  function EncodeRevokeType(x: RevokeType): string {
    RevokeTypeNames[RevokeTypeIndex(x)]
  }

  function DecodeRevokeType(s: string): (r: Option<RevokeType>)
    ensures r.None? <==> s !in RevokeTypeNames
    ensures r.Some? ==> EncodeRevokeType(r.value) == s
  {
    RevokeTypeTable();
    EnumCodec.EncodeInvertsDecode(RevokeTypes, RevokeTypeNames, RevokeTypeIndex, s);
    EnumCodec.Decode(RevokeTypes, RevokeTypeNames, s)
  }

  lemma RevokeTypeRoundTrip(x: RevokeType)
    ensures DecodeRevokeType(EncodeRevokeType(x)) == Some(x)
  {
    RevokeTypeTable();
    EnumCodec.DecodeInvertsEncode(RevokeTypes, RevokeTypeNames, RevokeTypeIndex, x);
  }

  lemma RevokeTypeInjective(x: RevokeType, y: RevokeType)
    ensures EncodeRevokeType(x) == EncodeRevokeType(y) ==> x == y
  {
    RevokeTypeTable();
    EnumCodec.EncodeInjective(RevokeTypes, RevokeTypeNames, RevokeTypeIndex, x, y);
  }

  /** The JSON form: the wire name, as a string or as the only key of an object whose value is
      `null`; serde_json reads a unit variant from either. */
  function AsRevokeType(v: Json): (r: Option<RevokeType>)
    ensures r.Some? <==> UnitVariantName(v).Some? && UnitVariantName(v).value in RevokeTypeNames
    ensures r.Some? ==> v == Str(EncodeRevokeType(r.value)) || v == Obj(map[EncodeRevokeType(r.value) := Null])
  {
    match UnitVariantName(v)
    case None => None
    case Some(name) => DecodeRevokeType(name)
  }

  function FromRevokeType(x: RevokeType): Json {
    Str(EncodeRevokeType(x))
  }

  datatype EventType =
    | DataUpdate
    | AccessRevocationScheduled
    | AdverseMediaRiskMonitorMatch
    | CurrentlySanctionedRiskMonitorMatch
    | DisqualifiedDirectorRiskMonitorMatch
    | FinancialRegulatorRiskMonitorMatch
    | InsolventRiskMonitorMatch
    | LawEnforcementRiskMonitorMatch
    | PepRiskMonitorMatch

  /** Declaration order and wire names: `rename_all = "snake_case"`. */
  const EventTypes: seq<EventType> := [
    DataUpdate,
    AccessRevocationScheduled,
    AdverseMediaRiskMonitorMatch,
    CurrentlySanctionedRiskMonitorMatch,
    DisqualifiedDirectorRiskMonitorMatch,
    FinancialRegulatorRiskMonitorMatch,
    InsolventRiskMonitorMatch,
    LawEnforcementRiskMonitorMatch,
    PepRiskMonitorMatch
  ]
  const EventTypeNames: seq<string> := [
    "data_update",
    "access_revocation_scheduled",
    "adverse_media_risk_monitor_match",
    "currently_sanctioned_risk_monitor_match",
    "disqualified_director_risk_monitor_match",
    "financial_regulator_risk_monitor_match",
    "insolvent_risk_monitor_match",
    "law_enforcement_risk_monitor_match",
    "pep_risk_monitor_match"
  ]

  function EventTypeIndex(x: EventType): (k: nat)
    ensures k < |EventTypes| && EventTypes[k] == x
  {
    match x
    case DataUpdate => 0
    case AccessRevocationScheduled => 1
    case AdverseMediaRiskMonitorMatch => 2
    case CurrentlySanctionedRiskMonitorMatch => 3
    case DisqualifiedDirectorRiskMonitorMatch => 4
    case FinancialRegulatorRiskMonitorMatch => 5
    case InsolventRiskMonitorMatch => 6
    case LawEnforcementRiskMonitorMatch => 7
    case PepRiskMonitorMatch => 8
  }

  lemma EventTypeTable()
    ensures EnumCodec.IsTable(EventTypes, EventTypeNames, EventTypeIndex)
  {
  }

  function EncodeEventType(x: EventType): string {
    EventTypeNames[EventTypeIndex(x)]
  }

  function DecodeEventType(s: string): (r: Option<EventType>)
    ensures r.None? <==> s !in EventTypeNames
    ensures r.Some? ==> EncodeEventType(r.value) == s
  {
    EventTypeTable();
    EnumCodec.EncodeInvertsDecode(EventTypes, EventTypeNames, EventTypeIndex, s);
    EnumCodec.Decode(EventTypes, EventTypeNames, s)
  }

  lemma EventTypeRoundTrip(x: EventType)
    ensures DecodeEventType(EncodeEventType(x)) == Some(x)
  {
    EventTypeTable();
    EnumCodec.DecodeInvertsEncode(EventTypes, EventTypeNames, EventTypeIndex, x);
  }

  lemma EventTypeInjective(x: EventType, y: EventType)
    ensures EncodeEventType(x) == EncodeEventType(y) ==> x == y
  {
    EventTypeTable();
    EnumCodec.EncodeInjective(EventTypes, EventTypeNames, EventTypeIndex, x, y);
  }

  /** The JSON form: the wire name, as a string or as the only key of an object whose value is
      `null`; serde_json reads a unit variant from either. */
  function AsEventType(v: Json): (r: Option<EventType>)
    ensures r.Some? <==> UnitVariantName(v).Some? && UnitVariantName(v).value in EventTypeNames
    ensures r.Some? ==> v == Str(EncodeEventType(r.value)) || v == Obj(map[EncodeEventType(r.value) := Null])
  {
    match UnitVariantName(v)
    case None => None
    case Some(name) => DecodeEventType(name)
  }

  function FromEventType(x: EventType): Json {
    Str(EncodeEventType(x))
  }

  /** `BusinessType` is renamed variant by variant to spaced, human-readable names: the spaced
      name decodes, the Rust identifier of the same variant does not. */
  lemma BusinessTypeNamesAreSpaced()
    ensures DecodeBusinessType("Partnership LLC") == Some(PartnershipLLC)
    ensures DecodeBusinessType("PartnershipLLC").None?
  {
    BusinessTypeRoundTrip(PartnershipLLC);
  }

  /** The explicit `rename = "self"` wins over the type's kebab-case rule. */
  lemma AsSelfIsSelf()
    ensures DecodeProvidingFor("self") == Some(AsSelf)
    ensures DecodeProvidingFor("as-self").None?
  {
    ProvidingForRoundTrip(AsSelf);
  }

  /** A business type may also arrive as an object whose only key is its name: the key must be
      a wire name and the value must be `null`. */
  lemma BusinessTypeObjectForm()
    ensures AsBusinessType(Obj(map["Partnership LLC" := Null])) == Some(PartnershipLLC)
    ensures AsBusinessType(Obj(map["Partnership LLC" := Str("")])).None?
    ensures AsBusinessType(Obj(map["LLC" := Null])).None?
  {
    UnitVariantForms("Partnership LLC");
    UnitVariantForms("LLC");
    BusinessTypeRoundTrip(PartnershipLLC);
  }
}
