/** A .NET `Dictionary` of entities as the entity manager uses it: entries are only
    added or overwritten, and all are cleared at once, so it enumerates in insertion
    order and an overwritten key keeps its slot. */
module EntityRegistry {
  import opened Common

  /** A handle on an entity object. */
  type EntityRef = nat

  /** The entries in enumeration order. */
  type Registry<K> = seq<(K, EntityRef)>

  predicate KeysDistinct<K(==)>(r: Registry<K>)
  {
    forall i, j :: 0 <= i < j < |r| ==> r[i].0 != r[j].0
  }

  predicate RefsDistinct<K>(r: Registry<K>)
  {
    forall i, j :: 0 <= i < j < |r| ==> r[i].1 != r[j].1
  }

  /** The dictionary's `Values`, in enumeration order. */
  function Refs<K>(r: Registry<K>): (refs: seq<EntityRef>)
    ensures |refs| == |r| && forall i :: 0 <= i < |r| ==> refs[i] == r[i].1
  {
    seq(|r|, i requires 0 <= i < |r| => r[i].1)
  }

  /** The slot holding key `k`, if any. */
  function IndexOf<K(==)>(r: Registry<K>, k: K): (i: Option<nat>)
    ensures i.None? <==> forall j :: 0 <= j < |r| ==> r[j].0 != k
    ensures i.Some? ==> (i.value < |r| && r[i.value].0 == k
      && forall j :: 0 <= j < i.value ==> r[j].0 != k)
  {
    if |r| == 0 then None
    else if r[|r| - 1].0 == k && IndexOf(r[..|r| - 1], k).None? then Some(|r| - 1)
    else
      match IndexOf(r[..|r| - 1], k)
      case None => None
      case Some(i) => Some(i)
  }

  /** `TryGetValue`: the entity stored under `k`, if any. */
  function Lookup<K(==)>(r: Registry<K>, k: K): (v: Option<EntityRef>)
    ensures v.None? <==> forall i :: 0 <= i < |r| ==> r[i].0 != k
    ensures v.Some? ==> (k, v.value) in r
  {
    match IndexOf(r, k)
    case None => None
    case Some(i) => Some(r[i].1)
  }

  /** The indexer `dict[k] = v`: overwrites the entry for `k` in its slot, or adds it
      at the end when `k` is new. */
  function Put<K(==)>(r: Registry<K>, k: K, v: EntityRef): (r': Registry<K>)
    ensures IndexOf(r, k).None? ==> r' == r + [(k, v)]
    ensures IndexOf(r, k).Some? ==> (|r'| == |r| && r'[IndexOf(r, k).value] == (k, v)
      && forall i :: 0 <= i < |r| && i != IndexOf(r, k).value ==> r'[i] == r[i])
  {
    match IndexOf(r, k)
    case None => r + [(k, v)]
    case Some(i) => r[i := (k, v)]
  }

  /** In a dictionary, the entry holding a key is the only one. */
  lemma LookupUnique<K>(r: Registry<K>, k: K, i: nat)
    requires KeysDistinct(r) && i < |r| && r[i].0 == k
    ensures Lookup(r, k) == Some(r[i].1)
  {
  }

  /** After storing `v` under `k`, `k` finds `v` and every other key finds what it
      found before. */
  lemma PutLookup<K>(r: Registry<K>, k: K, v: EntityRef, k': K)
    ensures Lookup(Put(r, k, v), k') == if k' == k then Some(v) else Lookup(r, k')
  {
    var r' := Put(r, k, v);
    if k' != k {
      match IndexOf(r, k')
      case None =>
      case Some(i) =>
        assert r'[i] == r[i];
        assert IndexOf(r', k') == Some(i);
    } else {
      match IndexOf(r, k)
      case None =>
        assert IndexOf(r', k) == Some(|r|);
      case Some(i) =>
        assert IndexOf(r', k) == Some(i);
    }
  }

  /** Storing keeps the keys distinct. */
  lemma PutKeysDistinct<K>(r: Registry<K>, k: K, v: EntityRef)
    requires KeysDistinct(r)
    ensures KeysDistinct(Put(r, k, v))
  {
  }

  /** The registry is well formed: keys are distinct (it is a dictionary), every
      entity is registered at most once (each registration creates a new entity), and
      every handle was handed out before `next`. */
  predicate WellFormed<K(==)>(r: Registry<K>, next: nat)
  {
    KeysDistinct(r) && RefsDistinct(r) && forall i :: 0 <= i < |r| ==> r[i].1 < next
  }

  /** Storing a fresh entity keeps the registry well formed, and the entity it
      replaces, if any, is no longer registered. */
  lemma PutFresh<K>(r: Registry<K>, next: nat, k: K)
    requires WellFormed(r, next)
    ensures WellFormed(Put(r, k, next), next + 1)
    ensures Lookup(r, k).Some? ==> Lookup(r, k).value !in Refs(Put(r, k, next))
  {
    PutKeysDistinct(r, k, next);
  }
}
