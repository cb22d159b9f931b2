/** Webhook payloads: the entity an event is about, the event, and the scope it concerns. The
    scope is read by its serde wire name, which agrees with its `Display`.
 */
module Webhooks {
  import opened Wrappers
  import opened Json
  import EnumCodec
  import Enums
  import Scopes

  /** `EntityIdentification` (src/types.rs:434-439). */
  datatype EntityIdentification = EntityIdentification(id: string, entityType: Enums.EntityType)

  /** Wire names of the fields, in declaration order. */
  const EntityIdentificationKeys: seq<string> := ["id", "type"]

  lemma EntityIdentificationKeysDistinct()
    ensures EnumCodec.Distinct(EntityIdentificationKeys)
  {
  }

  function DecodeEntityIdentification(v: Json): (r: Option<EntityIdentification>)
    ensures r.Some? ==> v.Obj?
  {
    if v.Obj? then EntityIdentificationFromSlots(Slots(v.fields, EntityIdentificationKeys)) else None
  }

  function EntityIdentificationFromSlots(f: seq<Option<Json>>): Option<EntityIdentification>
    requires |f| == |EntityIdentificationKeys|
  {
    var id := Required(f[0], AsString);
    var entityType := Required(f[1], Enums.AsEntityType);
    if id.Some? && entityType.Some? then
      Some(EntityIdentification(id.value, entityType.value))
    else None
  }

  function EncodeEntityIdentification(x: EntityIdentification): (v: Json)
    ensures v.Obj?
  {
    Obj(ObjectOf(EntityIdentificationKeys, EntityIdentificationFields(x)))
  }

  /** The serialized value of field `i`. */
  function EntityIdentificationField(x: EntityIdentification, i: nat): Json
    requires i < |EntityIdentificationKeys|
  {
    match i
    case 0 => FromString(x.id)
    case 1 => Enums.FromEntityType(x.entityType)
  }

  /** The serialized field values, in declaration order. */
  function EntityIdentificationFields(x: EntityIdentification): (vs: seq<Json>)
    ensures |vs| == |EntityIdentificationKeys|
  {
    seq(|EntityIdentificationKeys|, i requires 0 <= i < |EntityIdentificationKeys| => EntityIdentificationField(x, i))
  }

  /** Every slot reads as the corresponding field of `x`. */
  predicate EntityIdentificationSlotsRead(f: seq<Option<Json>>, x: EntityIdentification)
    requires |f| == |EntityIdentificationKeys|
  {
    && Required(f[0], AsString) == Some(x.id)
    && Required(f[1], Enums.AsEntityType) == Some(x.entityType)
  }

  /** The decoder reads a value exactly when every slot reads as that value's field. */
  lemma EntityIdentificationReadsFieldwise(f: seq<Option<Json>>, x: EntityIdentification)
    requires |f| == |EntityIdentificationKeys|
    ensures EntityIdentificationFromSlots(f) == Some(x) ==> EntityIdentificationSlotsRead(f, x)
    ensures EntityIdentificationSlotsRead(f, x) ==> EntityIdentificationFromSlots(f) == Some(x)
  {
  }

  lemma EntityIdentificationEntityTypeRoundTrip(x: EntityIdentification)
    ensures Required(Present(EntityIdentificationFields(x))[1], Enums.AsEntityType) == Some(x.entityType)
  {
    assert EntityIdentificationFields(x)[1] == Enums.FromEntityType(x.entityType);
    Enums.EntityTypeRoundTrip(x.entityType);
  }

  lemma EntityIdentificationPlainFieldsRoundTrip(x: EntityIdentification)
    ensures Required(Present(EntityIdentificationFields(x))[0], AsString) == Some(x.id)
  {
  }

  lemma EntityIdentificationFieldsRoundTrip(x: EntityIdentification)
    ensures EntityIdentificationFromSlots(Present(EntityIdentificationFields(x))) == Some(x)
  {
    EntityIdentificationPlainFieldsRoundTrip(x);
    EntityIdentificationEntityTypeRoundTrip(x);
    EntityIdentificationReadsFieldwise(Present(EntityIdentificationFields(x)), x);
  }

  lemma EntityIdentificationRoundTrip(x: EntityIdentification)
    ensures DecodeEntityIdentification(EncodeEntityIdentification(x)) == Some(x)
  {
    EntityIdentificationKeysDistinct();
    SlotsOfObject(EntityIdentificationKeys, EntityIdentificationFields(x));
    EntityIdentificationFieldsRoundTrip(x);
  }

  /** `WebhookData` (src/types.rs:441-447). */
  datatype WebhookData = WebhookData(
    entity: EntityIdentification,
    event: Enums.EventType,
    scope: Scopes.Scope,
    connectingBusinessId: Option<string>
  )

  /** Wire names of the fields, in declaration order. */
  const WebhookDataKeys: seq<string> := ["entity", "event", "scope", "connecting_business_id"]

  lemma WebhookDataKeysDistinct()
    ensures EnumCodec.Distinct(WebhookDataKeys)
  {
  }

  function DecodeWebhookData(v: Json): (r: Option<WebhookData>)
    ensures r.Some? ==> v.Obj?
  {
    if v.Obj? then WebhookDataFromSlots(Slots(v.fields, WebhookDataKeys)) else None
  }

  function WebhookDataFromSlots(f: seq<Option<Json>>): Option<WebhookData>
    requires |f| == |WebhookDataKeys|
  {
    var entity := Required(f[0], DecodeEntityIdentification);
    var event := Required(f[1], Enums.AsEventType);
    var scope := Required(f[2], Scopes.AsScope);
    var connectingBusinessId := Optional(f[3], AsString);
    if entity.Some? && event.Some? && scope.Some? && connectingBusinessId.Some? then
      Some(WebhookData(entity.value, event.value, scope.value, connectingBusinessId.value))
    else None
  }

  function EncodeWebhookData(x: WebhookData): (v: Json)
    ensures v.Obj?
  {
    Obj(ObjectOf(WebhookDataKeys, WebhookDataFields(x)))
  }

  /** The serialized value of field `i`. */
  function WebhookDataField(x: WebhookData, i: nat): Json
    requires i < |WebhookDataKeys|
  {
    match i
    case 0 => EncodeEntityIdentification(x.entity)
    case 1 => Enums.FromEventType(x.event)
    case 2 => Scopes.FromScope(x.scope)
    case 3 => FromOption(x.connectingBusinessId, FromString)
  }

  /** The serialized field values, in declaration order. */
  function WebhookDataFields(x: WebhookData): (vs: seq<Json>)
    ensures |vs| == |WebhookDataKeys|
  {
    seq(|WebhookDataKeys|, i requires 0 <= i < |WebhookDataKeys| => WebhookDataField(x, i))
  }

  /** Every slot reads as the corresponding field of `x`. */
  predicate WebhookDataSlotsRead(f: seq<Option<Json>>, x: WebhookData)
    requires |f| == |WebhookDataKeys|
  {
    && Required(f[0], DecodeEntityIdentification) == Some(x.entity)
    && Required(f[1], Enums.AsEventType) == Some(x.event)
    && Required(f[2], Scopes.AsScope) == Some(x.scope)
    && Optional(f[3], AsString) == Some(x.connectingBusinessId)
  }

  /** The decoder reads a value exactly when every slot reads as that value's field. */
  lemma WebhookDataReadsFieldwise(f: seq<Option<Json>>, x: WebhookData)
    requires |f| == |WebhookDataKeys|
    ensures WebhookDataFromSlots(f) == Some(x) ==> WebhookDataSlotsRead(f, x)
    ensures WebhookDataSlotsRead(f, x) ==> WebhookDataFromSlots(f) == Some(x)
  {
  }

  lemma WebhookDataEntityRoundTrip(x: WebhookData)
    ensures Required(Present(WebhookDataFields(x))[0], DecodeEntityIdentification) == Some(x.entity)
  {
    assert WebhookDataFields(x)[0] == EncodeEntityIdentification(x.entity);
    EntityIdentificationRoundTrip(x.entity);
  }

  lemma WebhookDataEventRoundTrip(x: WebhookData)
    ensures Required(Present(WebhookDataFields(x))[1], Enums.AsEventType) == Some(x.event)
  {
    assert WebhookDataFields(x)[1] == Enums.FromEventType(x.event);
    Enums.EventTypeRoundTrip(x.event);
  }

  lemma WebhookDataScopeRoundTrip(x: WebhookData)
    ensures Required(Present(WebhookDataFields(x))[2], Scopes.AsScope) == Some(x.scope)
  {
    assert WebhookDataFields(x)[2] == Scopes.FromScope(x.scope);
    Scopes.ScopeRoundTrip(x.scope);
  }

  lemma WebhookDataConnectingBusinessIdRoundTrip(x: WebhookData)
    ensures Optional(Present(WebhookDataFields(x))[3], AsString) == Some(x.connectingBusinessId)
  {
    assert WebhookDataFields(x)[3] == FromOption(x.connectingBusinessId, FromString);
    OptionRoundTrip(x.connectingBusinessId, AsString, FromString);
  }

  lemma WebhookDataFieldsRoundTrip(x: WebhookData)
    ensures WebhookDataFromSlots(Present(WebhookDataFields(x))) == Some(x)
  {
    WebhookDataEntityRoundTrip(x);
    WebhookDataEventRoundTrip(x);
    WebhookDataScopeRoundTrip(x);
    WebhookDataConnectingBusinessIdRoundTrip(x);
    WebhookDataReadsFieldwise(Present(WebhookDataFields(x)), x);
  }

  lemma WebhookDataRoundTrip(x: WebhookData)
    ensures DecodeWebhookData(EncodeWebhookData(x)) == Some(x)
  {
    WebhookDataKeysDistinct();
    SlotsOfObject(WebhookDataKeys, WebhookDataFields(x));
    WebhookDataFieldsRoundTrip(x);
  }
}
