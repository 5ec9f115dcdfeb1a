/** The configured tenant map: an insertion-ordered Ruby Hash from tenant key to a
    configuration hash whose `:constants` entry holds the tenant's constants. */
module Tenants {
  import opened Ruby

  type Key = string

  /** The symbol keys the helper reads from a tenant's constants. */
  const SHARD: string := "shard"
  const MONGO_DB: string := "mongo_db"
  const PARTNER_CODE: string := "partner_code"

  /** A tenant's `:constants` hash, keyed by symbol name. A key may be present with a nil value. */
  type Constants = map<string, Val>

  /** A tenant's configuration hash; `constants` is None when `:constants` is absent or nil. */
  datatype TenantConfig = TenantConfig(constants: Option<Constants>)

  /** One entry of the map; `config` is None when the key maps to nil. */
  datatype Tenant = Tenant(key: Key, config: Option<TenantConfig>)

  predicate UniqueKeys(entries: seq<Tenant>) {
    forall i, j :: 0 <= i < j < |entries| ==> entries[i].key != entries[j].key
  }

  /** A Ruby Hash keeps its keys unique and in insertion order. */
  type Registry = entries: seq<Tenant> | UniqueKeys(entries)

  /** `tenants.keys`, in insertion order. */
  function Keys(r: Registry): (keys: seq<Key>)
    ensures |keys| == |r|
    ensures forall i :: 0 <= i < |r| ==> keys[i] == r[i].key
  {
    seq(|r|, i requires 0 <= i < |r| => r[i].key)
  }

  /** `tenants[key]`: the configuration stored under `key`, None when the key is absent
      or maps to nil. */
  function Lookup(r: seq<Tenant>, key: Key): (c: Option<TenantConfig>)
    ensures c.Some? ==> exists i :: 0 <= i < |r| && r[i].key == key && r[i].config == c
    ensures (forall i :: 0 <= i < |r| ==> r[i].key != key) ==> c == None
  {
    if r == [] then None else if r[0].key == key then r[0].config else Lookup(r[1..], key)
  }

  /** The i-th entry is what looking up its own key finds. */
  lemma {:induction false} LookupAt(r: Registry, i: nat)
    requires i < |r|
    ensures Lookup(r, r[i].key) == r[i].config
  {
    if i > 0 {
      var rest: Registry := r[1..];
      LookupAt(rest, i - 1);
    }
  }

  /** `tenants[key]&.[](:constants)`. */
  function ConstantsOf(r: Registry, key: Key): Option<Constants> {
    match Lookup(r, key)
    case None => None
    case Some(config) => config.constants
  }

  /** `Hash#[]` on the constants: nil for a missing key. */
  function Get(c: Constants, name: string): Val {
    if name in c then c[name] else Nil
  }

  /** `tenants.dig(key, :constants, name)`. */
  function Dig(r: Registry, key: Key, name: string): Val {
    match ConstantsOf(r, key)
    case None => Nil
    case Some(c) => Get(c, name)
  }

  /** `tenants.dig(key, :constants, :partner_code) || 'N/A'`: the menu's partner label. */
  function PartnerLabel(r: Registry, key: Key): (shown: string)
    ensures ConstantsOf(r, key).Some? && PARTNER_CODE in ConstantsOf(r, key).value
              && ConstantsOf(r, key).value[PARTNER_CODE].Str?
            ==> shown == ConstantsOf(r, key).value[PARTNER_CODE].s
    ensures (ConstantsOf(r, key).None? || Get(ConstantsOf(r, key).value, PARTNER_CODE).Nil?)
            ==> shown == "N/A"
  {
    match Dig(r, key, PARTNER_CODE)
    case Nil => "N/A"
    case Str(s) => s
  }
}
