/** The application's context object (`context_class`): three writable attributes that
    the helper points at the selected tenant. */
module Context {
  import opened Ruby

  datatype Attr = TenantShard | TenantMongoDb | PartnerIdentifier

  /** `%i[tenant_shard tenant_mongo_db partner_identifier]`, in that order. */
  const ATTRS: seq<Attr> := [TenantShard, TenantMongoDb, PartnerIdentifier]

  /** The three attribute values at one moment. */
  datatype Values = Values(shard: Val, mongoDb: Val, partner: Val)

  const CLEARED: Values := Values(Nil, Nil, Nil)

  class TenantContext {
    var tenantShard: Val
    var tenantMongoDb: Val
    var partnerIdentifier: Val

    /** A fresh struct instance: every attribute nil. */
    constructor ()
      ensures Snapshot() == CLEARED
    {
      tenantShard, tenantMongoDb, partnerIdentifier := Nil, Nil, Nil;
    }

    function Snapshot(): Values
      reads this
    {
      Values(tenantShard, tenantMongoDb, partnerIdentifier)
    }

    function Read(a: Attr): Val
      reads this
    {
      match a
      case TenantShard => tenantShard
      case TenantMongoDb => tenantMongoDb
      case PartnerIdentifier => partnerIdentifier
    }

    /** `public_send("#{attr}=", v)`: writes one attribute and leaves the others. */
    method Assign(a: Attr, v: Val)
      modifies this
      ensures Read(a) == v
      ensures forall b :: b != a ==> Read(b) == old(Read(b))
    {
      match a
      case TenantShard => tenantShard := v;
      case TenantMongoDb => tenantMongoDb := v;
      case PartnerIdentifier => partnerIdentifier := v;
    }
  }
}
