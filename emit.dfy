/** Declarative emission of the three expressions, with the creation time read from the caller's
    clock and the defaults of the source: no metadata means an empty mapping, and the parent act
    is ACTE_IV unless given. */
module Emit {
  import opened Values

  /** `metadata or {}`: an absent mapping is the empty one. */
  function MetadataOrEmpty(metadata: Option<Attrs>): (m: Attrs)
    ensures metadata.None? ==> m == map[]
    ensures metadata.Some? ==> m == metadata.value
  {
    match metadata
    case None => map[]
    case Some(value) => value
  }

  /** A fresh, unconsumed order. */
  function EmitOrder(identifier: string, scope: string, now: Time,
                     metadata: Option<Attrs> := None, acteParent: string := ACTE_IV): (order: Order)
    ensures order.identifier == identifier && order.scope == scope
    ensures order.createdAt == now && order.consumedAt.None?
    ensures order.acteParent == acteParent
    ensures order.metadata == MetadataOrEmpty(metadata)
  {
    Order(identifier, scope, now, acteParent, None, MetadataOrEmpty(metadata))
  }

  /** A Refusal keeping its reason. */
  function EmitRefusal(reason: string, now: Time,
                       metadata: Option<Attrs> := None, acteParent: string := ACTE_IV): (e: AuthorityExpression)
    ensures e.Refusal? && e.reason == reason && e.createdAt == now
    ensures e.acteParent == acteParent && e.metadata == MetadataOrEmpty(metadata)
  {
    Refusal(reason, now, MetadataOrEmpty(metadata), acteParent)
  }

  /** A Silence keeping its reason. */
  function EmitSilence(reason: string, now: Time,
                       metadata: Option<Attrs> := None, acteParent: string := ACTE_IV): (e: AuthorityExpression)
    ensures e.Silence? && e.reason == reason && e.createdAt == now
    ensures e.acteParent == acteParent && e.metadata == MetadataOrEmpty(metadata)
  {
    Silence(reason, now, MetadataOrEmpty(metadata), acteParent)
  }

  /** The three constructors with every default taken: empty metadata, parent act ACTE_IV. */
  lemma EmitDefaults(identifier: string, scope: string, reason: string, now: Time)
    ensures EmitOrder(identifier, scope, now).metadata == map[] && EmitOrder(identifier, scope, now).acteParent == ACTE_IV
    ensures EmitRefusal(reason, now).metadata == map[] && EmitRefusal(reason, now).acteParent == ACTE_IV
    ensures EmitSilence(reason, now).metadata == map[] && EmitSilence(reason, now).acteParent == ACTE_IV
  {
  }

  /** The declarative registry of the order layer. */
  datatype OrderRegistry = OrderRegistry(acteParent: string, expressions: seq<AuthorityExpression>, createdAt: Time)

  /** A registry of emitted expressions. */
  datatype EmittedRegistry = EmittedRegistry(expressions: seq<AuthorityExpression>, createdAt: Time, acteParent: string) {
    /** The same expressions, parent act and creation time, as an order registry. */
    function AsRegistry(): (r: OrderRegistry)
      ensures r.expressions == expressions && r.acteParent == acteParent && r.createdAt == createdAt
    {
      OrderRegistry(acteParent, expressions, createdAt)
    }
  }
}
