# parallel-markets-client, modelled in Dafny

A model of the Rust client for the Parallel Markets API (kycdao/parallel-markets-client):
the payload types of `src/types.rs` with their serde (de)serialization, the error type of
`src/error.rs`, and the scope-gated `Client` of `src/lib.rs`.

- **Wire names.** Every unit enum is written as its name and read by a strict name table, the
  way serde's derive does it. serde_json reads the name either from a string or from an object
  whose only key is the name and whose value is `null`, and the model accepts both forms. `Scopes` also models the hand-written `Display` of `Scope` and proves it agrees
  with the serde name.
- **Payload structs.** JSON is a datatype whose objects are maps. Each struct has a field table of
  wire names, a decoder that reads every field and then builds the struct, and an encoder.
  - For each struct it is proved that the struct reads back from what it writes.
  - Proved once, for the field readers every struct uses: unknown keys are ignored; a plain
    `Option` field may be missing or `null`; a `with`-adapted `Option` field may be `null` but not
    missing.
  - Lemmas state the missing-key behaviour for the named optional fields.
- **Untagged fields.** `Either` fields use `either::serde_untagged`, which tries the left type
  first. The order matters where the two shapes overlap:
  - an object with both profile shapes is an individual in a profile response and a business in a
    beneficial-owner reference;
  - an empty list of business accreditations reads back as an empty list of individual ones, so
    that round trip holds only up to this case.
- **Client.** Each endpoint is a pure function of the client, the token and a `Transport` (the
  network and the underlying `json_api_client`). It returns the result together with the requests
  it sent. Scope gating is proved per endpoint and over whole sessions of calls.

Two facts about the code worth knowing:
- `foreign_tax_id` is optional for individuals (src/types.rs:326) but required for business
  identity details (src/types.rs:294); see `Identity.IndividualForeignTaxIdMayBeMissing` and
  `Identity.BusinessForeignTaxIdRequired`.
- `oauth_header` panics on a token that is not a valid header value (src/lib.rs:45); the model
  leaves that panic out (see below).

Modules (one file each):
- `wrappers.dfy`: `Option` and `Result`
- `enum_codec.dfy`: generic enum name tables
- `json.dfy`: JSON values and field readers
- `leaves.dfy`: opaque times, dates, country codes and decimals
- `untagged.dfy`: untagged `Either`
- `scopes.dfy`, `enums.dfy`: the enums
- `profiles.dfy`, `accreditations.dfy`, `identity.dfy`, `responses.dfy`, `webhooks.dfy`: the structs
- `errors.dfy`: the error type
- `client.dfy`: the client

## Model

| member | source | states |
|---|---|---|
| Scopes.DecodeScope | src/types.rs:9-15 | a scope is read from its snake_case wire name; a string that is no scope's name is rejected, and a decoded scope encodes back to the string read |
| Scopes.ScopeRoundTrip | src/types.rs:9-15 | every scope reads back from its own wire name |
| Scopes.ScopeInjective | src/types.rs:9-15 | distinct scopes have distinct wire names |
| Scopes.DisplayIsWireName | src/types.rs:17-26 | the hand-written `Display` of each scope equals its serde wire name, so the displayed string reads back as that scope |
| Scopes.DisplayInjective | src/types.rs:17-26 | distinct scopes display differently |
| Enums.DecodeBusinessType | src/types.rs:45-74 | `BusinessType` is read only from one of its wire names; any other string is rejected, and what is read encodes back to the string it came from |
| Enums.BusinessTypeRoundTrip | src/types.rs:45-74 | every `BusinessType` variant reads back from the name written for it |
| Enums.BusinessTypeInjective | src/types.rs:45-74 | distinct `BusinessType` variants are written differently |
| Enums.DecodeDocumentType | src/types.rs:90-94 | `DocumentType` is read only from one of its wire names; any other string is rejected, and what is read encodes back to the string it came from |
| Enums.DocumentTypeRoundTrip | src/types.rs:90-94 | every `DocumentType` variant reads back from the name written for it |
| Enums.DocumentTypeInjective | src/types.rs:90-94 | distinct `DocumentType` variants are written differently |
| Enums.DecodeAccreditationStatus | src/types.rs:105-118 | `AccreditationStatus` is read only from one of its wire names; any other string is rejected, and what is read encodes back to the string it came from |
| Enums.AccreditationStatusRoundTrip | src/types.rs:105-118 | every `AccreditationStatus` variant reads back from the name written for it |
| Enums.AccreditationStatusInjective | src/types.rs:105-118 | distinct `AccreditationStatus` variants are written differently |
| Enums.DecodeBusinessAssertionType | src/types.rs:120-129 | `BusinessAssertionType` is read only from one of its wire names; any other string is rejected, and what is read encodes back to the string it came from |
| Enums.BusinessAssertionTypeRoundTrip | src/types.rs:120-129 | every `BusinessAssertionType` variant reads back from the name written for it |
| Enums.BusinessAssertionTypeInjective | src/types.rs:120-129 | distinct `BusinessAssertionType` variants are written differently |
| Enums.DecodeIndividualAssertionType | src/types.rs:146-157 | `IndividualAssertionType` is read only from one of its wire names; any other string is rejected, and what is read encodes back to the string it came from |
| Enums.IndividualAssertionTypeRoundTrip | src/types.rs:146-157 | every `IndividualAssertionType` variant reads back from the name written for it |
| Enums.IndividualAssertionTypeInjective | src/types.rs:146-157 | distinct `IndividualAssertionType` variants are written differently |
| Enums.DecodeEntityType | src/types.rs:175-180 | `EntityType` is read only from one of its wire names; any other string is rejected, and what is read encodes back to the string it came from |
| Enums.EntityTypeRoundTrip | src/types.rs:175-180 | every `EntityType` variant reads back from the name written for it |
| Enums.EntityTypeInjective | src/types.rs:175-180 | distinct `EntityType` variants are written differently |
| Enums.DecodeIdentityDocumentType | src/types.rs:202-208 | `IdentityDocumentType` is read only from one of its wire names; any other string is rejected, and what is read encodes back to the string it came from |
| Enums.IdentityDocumentTypeRoundTrip | src/types.rs:202-208 | every `IdentityDocumentType` variant reads back from the name written for it |
| Enums.IdentityDocumentTypeInjective | src/types.rs:202-208 | distinct `IdentityDocumentType` variants are written differently |
| Enums.DecodeMaritalStatus | src/types.rs:210-217 | `MaritalStatus` is read only from one of its wire names; any other string is rejected, and what is read encodes back to the string it came from |
| Enums.MaritalStatusRoundTrip | src/types.rs:210-217 | every `MaritalStatus` variant reads back from the name written for it |
| Enums.MaritalStatusInjective | src/types.rs:210-217 | distinct `MaritalStatus` variants are written differently |
| Enums.DecodeProvidingFor | src/types.rs:330-340 | `ProvidingFor` is read only from one of its wire names; any other string is rejected, and what is read encodes back to the string it came from |
| Enums.ProvidingForRoundTrip | src/types.rs:330-340 | every `ProvidingFor` variant reads back from the name written for it |
| Enums.ProvidingForInjective | src/types.rs:330-340 | distinct `ProvidingFor` variants are written differently |
| Enums.DecodeRevokeType | src/types.rs:342-351 | `RevokeType` is read only from one of its wire names; any other string is rejected, and what is read encodes back to the string it came from |
| Enums.RevokeTypeRoundTrip | src/types.rs:342-351 | every `RevokeType` variant reads back from the name written for it |
| Enums.RevokeTypeInjective | src/types.rs:342-351 | distinct `RevokeType` variants are written differently |
| Enums.DecodeEventType | src/types.rs:409-432 | `EventType` is read only from one of its wire names; any other string is rejected, and what is read encodes back to the string it came from |
| Enums.EventTypeRoundTrip | src/types.rs:409-432 | every `EventType` variant reads back from the name written for it |
| Enums.EventTypeInjective | src/types.rs:409-432 | distinct `EventType` variants are written differently |
| Enums.BusinessTypeNamesAreSpaced | src/types.rs:45-74 | the explicit renames take the spaced form ("Partnership LLC" reads, "PartnershipLLC" is rejected) |
| Enums.AsSelfIsSelf | src/types.rs:330-340 | `AsSelf` is written "self", and the kebab-case name "as-self" is rejected |
| Json.UnitVariantName | src/types.rs:45-74 | a unit variant's name is read from a string, or from an object with exactly one key whose value is `null`; nothing else carries a name |
| Enums.BusinessTypeObjectForm | src/types.rs:45-74 | a business type also reads from `{"Partnership LLC": null}`; a non-null value or an unknown key is rejected |
| EnumCodec.Decode | src/types.rs:9-15 | the derived enum visitor: a string is accepted exactly when it is some variant's name, and then gives the variant of that name |
| EnumCodec.DecodeInvertsEncode | src/types.rs:9-15 | for any enumeration table with distinct names, decoding a variant's name gives the variant |
| EnumCodec.EncodeInvertsDecode | src/types.rs:9-15 | whatever decodes encodes back to the string it was read from |
| Json.Optional | src/types.rs:83-88 | a plain `Option` field (e.g. `email`): a missing key or `null` reads as `None`; any other value must read, and a `Some` comes only from a present non-null value |
| Json.NullableRequired | src/types.rs:131-144 | an `Option` field with a `with` adapter (e.g. `expires_at`): a missing key is an error, `null` is `None` |
| Json.OptionRoundTrip | src/types.rs:83-88 | both optional readers give back the option that was written |
| Json.AsU64 | src/types.rs:96-103 | a `u64` field (`download_url_expires`) reads exactly the integers in range, unchanged |
| Json.U64RejectsOutOfRange | src/types.rs:96-103 | an integer outside the `u64` range is rejected rather than wrapped |
| Json.SlotsIgnoreUnknownKeys | src/types.rs:28-37 | keys outside a struct's field table do not change what the struct reads |
| Json.SlotsOfObject | src/types.rs:28-37 | reading a struct's fields from the object written for it finds every field's value under its name |
| Json.ArrayRoundTrip | src/types.rs:131-144 | a `Vec` field reads back as written when each element does |
| Json.ArrayRejectsBadElement | src/types.rs:131-144 | one unreadable element rejects the whole `Vec` |
| Untagged.DecodeUntagged | src/types.rs:188-189 | `either::serde_untagged`: the field fails exactly when neither side reads; a `Left` result is what the left reader gives; a `Right` result only when the left reader rejects |
| Untagged.LeftWins | src/types.rs:188-189 | a value the left type reads is read as `Left`, whatever the right type would make of it |
| Untagged.OrderMattersOnlyForOverlap | src/types.rs:188-189 | swapping the trial order changes the outcome exactly on values both sides read |
| Untagged.UntaggedRoundTrip | src/types.rs:188-189 | an untagged value reads back as written when the left reader rejects what the right side writes |
| Profiles.IndividualProfileRoundTrip | src/types.rs:83-88 | an individual profile reads back from the object written for it |
| Profiles.BusinessProfileRoundTrip | src/types.rs:76-81 | a business profile, with or without a primary contact, reads back from its object |
| Profiles.IndividualProfileReadsItsShape | src/types.rs:83-88 | an individual profile is read from a value exactly when it is an object with string `first_name` and `last_name` and a null, missing or string `email` |
| Profiles.BusinessProfileReadsItsShape | src/types.rs:76-81 | a business profile is read exactly when the object has a string `name`, a known `business_type` (a name, or a one-entry object holding the name with `null`) and a missing, null or individual-shaped `primary_contact` |
| Profiles.ShapesOfWrittenProfilesAreDisjoint | src/types.rs:76-88 | a written individual profile is never read as a business profile, and the reverse |
| Profiles.ProfileRoundTrip | src/types.rs:353-359 | the profile-response `profile` field (individual tried first) reads back either kind as written |
| Profiles.OwnerProfileRoundTrip | src/types.rs:182-189 | the beneficial-owner `profile` field (business tried first) reads back either kind as written |
| Profiles.TrialOrderDecidesOverlap | src/types.rs:182-189 | an object with both shapes is an individual in a profile response and a business in a beneficial-owner reference |
| Profiles.BothShapesOverlap | src/types.rs:353-359 | such an object exists: the two fields read the same object as different kinds |
| Accreditations.AccreditationDocumentRoundTrip | src/types.rs:96-103 | an accreditation document reads back from its object, `type` included |
| Accreditations.AccreditationDocumentExpiryIsCarried | src/types.rs:96-103 | `download_url_expires` is the integer sent under that key, without conversion |
| Accreditations.BusinessAccreditationRoundTrip | src/types.rs:131-144 | a business accreditation reads back from its object, null timestamps included |
| Accreditations.IndividualAccreditationRoundTrip | src/types.rs:159-173 | an individual accreditation reads back from its object |
| Accreditations.AccreditationTimesMustBePresent | src/types.rs:131-173 | an accreditation without an `expires_at` or `certified_at` key is rejected, though those fields may be `null` |
| Accreditations.IndividualAccreditationNeedsFirstName | src/types.rs:159-173 | an object without `first_name` is not an individual accreditation |
| Accreditations.IndividualListRejectsBusinessList | src/types.rs:368-379 | a written non-empty list of business accreditations is not read as a list of individual ones |
| Accreditations.EmptyAccreditationsReadAsIndividual | src/types.rs:368-379 | an empty list, written from either kind, reads as an empty individual list |
| Accreditations.AccreditationListsRoundTrip | src/types.rs:368-379 | every accreditation list other than the empty business list reads back as written |
| Identity.LocationRoundTrip | src/types.rs:28-37 | a location reads back from its object |
| Identity.LocationOptionalFieldsMayBeMissing | src/types.rs:28-37 | a location without a `region` or `state` key reads that field as `None` |
| Identity.UserSessionRoundTrip | src/types.rs:39-43 | a user session reads back from its object |
| Identity.IdentityDocumentRoundTrip | src/types.rs:219-226 | an identity document reads back from its object |
| Identity.IdentityDocumentExpiryIsCarried | src/types.rs:219-226 | `download_url_expires` is the integer sent, without conversion |
| Identity.BusinessRiskMonitorMatchRoundTrip | src/types.rs:228-252 | a business risk-monitor match reads back from its object |
| Identity.IndividualRiskMonitorMatchRoundTrip | src/types.rs:254-282 | an individual risk-monitor match reads back from its object |
| Identity.BeneficialOwnerReferenceRoundTrip | src/types.rs:182-190 | a beneficial-owner reference, with either kind of profile, reads back from its object |
| Identity.ControlPersonReferenceRoundTrip | src/types.rs:192-200 | a control-person reference reads back from its object |
| Identity.BusinessIdentityDetailsRoundTrip | src/types.rs:284-304 | business identity details read back from their object |
| Identity.IndividualIdentityDetailsRoundTrip | src/types.rs:306-328 | individual identity details read back from their object |
| Identity.IndividualForeignTaxIdMayBeMissing | src/types.rs:306-328 | individual details without a `foreign_tax_id` key read it as `None` |
| Identity.BusinessForeignTaxIdRequired | src/types.rs:284-304 | business details without a `foreign_tax_id` key are rejected |
| Identity.BusinessDetailsNeedBusinessType | src/types.rs:284-304 | an object without `business_type` is never business details |
| Identity.BusinessShapeRejectsIndividualDetails | src/types.rs:381-393 | written individual details are rejected by the business shape that is tried first |
| Identity.IdentityDetailsRoundTrip | src/types.rs:381-393 | the untagged `identity_details` field (business first) reads back either kind as written |
| Responses.ProfileResponseRoundTrip | src/types.rs:353-366 | a profile response reads back from its object |
| Responses.AccreditationsResponseRoundTrip | src/types.rs:368-379 | an accreditations response reads back from its object unless its list is the empty business list |
| Responses.EmptyBusinessListReadsAsIndividual | src/types.rs:368-379 | a response with an empty business list reads back with an empty individual list and is otherwise unchanged |
| Responses.IdentityResponseRoundTrip | src/types.rs:381-393 | an identity response reads back from its object |
| Responses.DependencyIdentityResponseRoundTrip | src/types.rs:395-407 | a dependency identity response reads back from its object |
| Responses.AccessExpiryMustBePresent | src/types.rs:353-407 | a response without an `access_expires_at` key is rejected (the field may be `null`) |
| Responses.IndicatedUnaccreditedMustBePresent | src/types.rs:368-379 | an accreditations response without `indicated_unaccredited` is rejected |
| Responses.ProfileResponseRevokedByMayBeMissing | src/types.rs:353-366 | a profile response without `access_revoked_by` reads it as `None` |
| Responses.IdentityResponseRevokedByMayBeMissing | src/types.rs:381-393 | an identity response without `access_revoked_by` reads it as `None` |
| Responses.DependencyIdentityResponseRevokedByMayBeMissing | src/types.rs:395-407 | a dependency identity response without `access_revoked_by` reads it as `None` |
| Webhooks.EntityIdentificationRoundTrip | src/types.rs:434-439 | an entity identification reads back from its object |
| Webhooks.WebhookDataRoundTrip | src/types.rs:441-447 | webhook data, its scope included, reads back from its object |
| Errors.KindMessage | src/error.rs:14-18 | a scope error's message is "Scope not enabled: '", the scope's `Display`, then "'" |
| Errors.ScopeOfMessage | src/error.rs:14-18 | a message from which a scope is recovered is exactly that scope's error message |
| Errors.MessageNamesScope | src/error.rs:14-18 | the scope can be read back out of every scope error's message |
| Errors.KindMessageInjective | src/error.rs:14-18 | different missing scopes give different messages |
| Errors.ApiErrorMessageNamesScope | src/error.rs:4-11 | an `ApiError` transparently shows its kind's message, which names the missing scope |
| Errors.IdentityScopeMessage | src/error.rs:14-18 | the message for a missing identity scope is "Scope not enabled: 'identity'" |
| Client.OAuthConfig | src/lib.rs:20-30 | the OAuth2 settings use the paths "oauth/authorize", "oauth/token" and "oauth/refresh", send credentials in the request body, and list each scope's `Display` in order |
| Client.ScopeStringsNameScopes | src/lib.rs:20 | the negotiated scope strings read back as exactly the client's scopes, position by position |
| Client.New | src/lib.rs:19-40 | `Client::new` succeeds exactly when the underlying client accepts the URL and settings; it keeps the given scopes, and a failure is that client's error as `ClientError` |
| Client.OAuthHeader | src/lib.rs:42-49 | the request header is `authorization` with the value "Bearer " followed by the token |
| Client.HeaderCarriesToken | src/lib.rs:42-49 | the token can be read back out of the header, so different tokens give different headers |
| Client.Fetch | src/lib.rs:51-57 | one GET of the path with the bearer header; success exactly when the transport answers and the body deserializes; every failure is a `ClientError`, a transport failure passed on unchanged |
| Client.EnsureScope | src/lib.rs:67-72 | succeeds exactly when the scope was granted at construction; otherwise `ApiError(ScopeNotEnabled(scope))` |
| Client.Gated | src/lib.rs:74-87 | a missing scope fails with the scope error before any request; a granted scope behaves as the plain request |
| Client.GetProfile | src/lib.rs:74-77 | needs `Profile`; without it fails with the scope error sending nothing; with it sends one GET of "me", succeeds exactly when the transport answers with a body that deserializes (and then returns that body), and otherwise fails with a `ClientError`, a transport failure passed on unchanged |
| Client.ProfileFromServedBody | src/lib.rs:74-77 | with `Profile` granted, a server answering "me" with a written profile response gives back exactly that response |
| Client.GetAccreditations | src/lib.rs:79-82 | needs `AccreditationStatus`; without it fails with the scope error sending nothing; with it sends one GET of "accreditations", succeeds exactly when the body deserializes, and otherwise fails with a `ClientError` |
| Client.GetIdentity | src/lib.rs:84-87 | needs `Identity`; without it fails with the scope error sending nothing; with it sends one GET of "identity", succeeds exactly when the body deserializes, and otherwise fails with a `ClientError` |
| Client.MissingIdentityScopeMessage | src/lib.rs:84-87 | without the identity scope `get_identity` fails with "Scope not enabled: 'identity'" and sends nothing |
| Client.GetDependencyIdentity | src/lib.rs:89-93 | no scope check: always one GET of "identity/" followed by the id; succeeds exactly when the transport answers with a body that deserializes, and otherwise fails with a `ClientError`, a transport failure passed on unchanged |
| Client.DependencyPath | src/lib.rs:91 | the path is "identity/" followed by exactly the dependency id |
| Client.DependencyPathIsDistinct | src/lib.rs:89-93 | a dependency path is never one of the gated paths, and different ids give different paths |
| Client.ExchangeCode | src/lib.rs:59-61 | the code exchange uses the client's OAuth2 settings; its token passes through, its error as `ClientError` |
| Client.Refresh | src/lib.rs:63-65 | the token refresh passes through the same way |
| Client.Perform | src/lib.rs:67-93 | a permitted call sends one GET of its path; a refused one sends nothing and fails with its scope error; a permitted call fails only with a `ClientError` |
| Client.SessionGating | src/lib.rs:67-93 | over any sequence of calls on one client, a call fails with an `ApiError` exactly when its scope was not granted, and then with that scope's error |
| Client.SessionSendsPermittedRequests | src/lib.rs:51-93 | the requests a session sends are exactly those of its permitted calls, in order |

## Left out

- HTTP, the network and `json_api_client` are not modelled. They become the `Transport`, `Connect` and token-exchange function parameters. The base URL is stored but not joined with the paths.
- `async` is not modelled. Each call is a pure function, and the model does not cover concurrent use of one client.
- OAuth2 mechanics are not modelled: authorization URLs, the token request and token expiry belong to `json_api_client`. `ExchangeCode` and `Refresh` only pass its outcome through.
- Client.OAuthHeader: the `HeaderMap` and `set_sensitive` are not modelled. The header is kept as a name and a string value.
- Client.OAuthHeader: the `expect` panic on a token that is not a valid header value (one with a control character, say) is not modelled. The model treats every token as valid, so `Client.Fetch` sends a request where the source would abort.
- Errors.Message: the text of `json_api_client`'s own errors is kept as an opaque string, and the text of a deserialization failure is not modelled (`None`).
- Leaves.AsUnixTime: timestamps, RFC 3339 date-times, dates, country codes and decimals are kept as the JSON literal they were read from. Only the JSON kind is checked: no calendar arithmetic, range checks or parsing of the text forms.
- Json.Slots: a JSON object is a map, so duplicate keys cannot be expressed.
- Json.Slots: reading a struct from a JSON array, which serde's derive also accepts, is not modelled.
- Json.AsU64: a number is read as a `u64` or `u8` only when the JSON number is an integer literal in range. serde_json's handling of floats is not modelled.
- Invariants stated only in doc comments are not modelled: a risk score of 1 to 100, E.164 phone numbers, and "only possible value is Individual" for references. The source does not enforce them.
- The integration tests (`tests/integration_test.rs`) call the live API and are not part of this model.
