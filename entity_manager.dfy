/** The client-side entity manager: a registry of the synchronised enemies in the
    current scene, keyed by entity type and instance id, and the router that turns
    scene events and inbound network updates into calls on those entities.

    Entities are opaque handles here; what the manager does to them is recorded as an
    append-only trace of calls, in the order the manager makes them. */
module EntityManager {
  import opened Common
  import opened EntityNames
  import opened EntityRegistry

  /** A position as sent over the network; its coordinates are only passed along. */
  datatype Vector2 = Vector2(x: real, y: real)

  /** The kinds of data an entity update can carry. */
  datatype EntityUpdateType = Position | Scale | Animation | State

  /** One entity's entry in the scene-entry batch: its type as a byte, its id, the set
      of kinds present, and the value of each kind. */
  datatype EntityUpdate = EntityUpdate(
    entityType: byte, id: byte, updateTypes: set<EntityUpdateType>,
    position: Vector2, scale: bool, state: byte)

  /** The registry key: entity type and instance id. */
  type Key = (EntityType, byte)

  /** The entity methods the manager calls. */
  datatype EntityCall =
    | InitializeAsSceneHost
    | InitializeAsSceneClient(stateIndex: Option<byte>)
    | UpdatePosition(position: Vector2)
    | UpdateScale(scale: bool)
    | UpdateAnimation(index: byte, info: seq<byte>)
    | UpdateState(state: byte)
    | SwitchToSceneHost
    | Destroy

  /** One call on one entity. */
  datatype Call = Call(target: EntityRef, call: EntityCall)

  // ---------------------------------------------------------------------------
  // Calls the manager makes

  /** One call of `c` on every registered entity, in enumeration order. */
  function Broadcast<K>(r: Registry<K>, c: EntityCall): (calls: seq<Call>)
    ensures |calls| == |r|
    ensures forall i :: 0 <= i < |r| ==> calls[i] == Call(r[i].1, c)
  {
    if |r| == 0 then []
    else Broadcast(r[..|r| - 1], c) + [Call(r[|r| - 1].1, c)]
  }

  /** How many calls of the trace target entity `e`. */
  function CallsTo(calls: seq<Call>, e: EntityRef): nat
  {
    if |calls| == 0 then 0
    else CallsTo(calls[..|calls| - 1], e) + (if calls[|calls| - 1].target == e then 1 else 0)
  }

  /** A broadcast reaches every registered entity exactly once and no other entity. */
  lemma {:induction false} BroadcastReachesEachOnce<K>(r: Registry<K>, c: EntityCall, e: EntityRef)
    requires RefsDistinct(r)
    ensures CallsTo(Broadcast(r, c), e) == if e in Refs(r) then 1 else 0
  {
    if |r| > 0 {
      var front := r[..|r| - 1];
      BroadcastReachesEachOnce(front, c, e);
      LastRefIsNew(r);
    }
  }

  /** The last entry of a registry whose entities are distinct adds a new entity. */
  lemma LastRefIsNew<K>(r: Registry<K>)
    requires |r| > 0 && RefsDistinct(r)
    ensures RefsDistinct(r[..|r| - 1])
    ensures r[|r| - 1].1 !in Refs(r[..|r| - 1])
    ensures Refs(r) == Refs(r[..|r| - 1]) + [r[|r| - 1].1]
  {
  }

  /** The calls that set up one entity from its scene-entry update: initialise it as
      scene client with the update's state when the state kind is present, then set
      its position and then its scale when those kinds are present. */
  function EntryCalls(e: EntityRef, u: EntityUpdate): (calls: seq<Call>)
    ensures 1 <= |calls| <= 3
    ensures forall i :: 0 <= i < |calls| ==> calls[i].target == e
    ensures calls[0].call.InitializeAsSceneClient?
    ensures calls[0].call.stateIndex.Some? <==> State in u.updateTypes
    ensures calls[0].call.stateIndex.Some? ==> calls[0].call.stateIndex.value == u.state
    ensures Call(e, UpdatePosition(u.position)) in calls <==> Position in u.updateTypes
    ensures Call(e, UpdateScale(u.scale)) in calls <==> Scale in u.updateTypes
    ensures Scale in u.updateTypes ==> calls[|calls| - 1] == Call(e, UpdateScale(u.scale))
  {
    [Call(e, InitializeAsSceneClient(if State in u.updateTypes then Some(u.state) else None))]
    + (if Position in u.updateTypes then [Call(e, UpdatePosition(u.position))] else [])
    + (if Scale in u.updateTypes then [Call(e, UpdateScale(u.scale))] else [])
  }

  /** The entity an update addresses: the byte `entityType` cast to the enum, paired
      with the id. A byte that names no member finds nothing. */
  function Addressed(r: Registry<Key>, u: EntityUpdate): Option<EntityRef>
  {
    match TypeOf(u.entityType)
    case None => None
    case Some(t) => Lookup(r, (t, u.id))
  }

  /** An update finds exactly the entity registered under the key whose type casts to
      the update's type byte and whose id is the update's id. */
  lemma AddressedIsRegistered(r: Registry<Key>, u: EntityUpdate, i: nat)
    requires KeysDistinct(r) && RefsDistinct(r) && i < |r|
    ensures Code(r[i].0.0) == u.entityType && r[i].0.1 == u.id ==> Addressed(r, u) == Some(r[i].1)
    ensures Addressed(r, u) == Some(r[i].1) ==> Code(r[i].0.0) == u.entityType && r[i].0.1 == u.id
  {
    if Addressed(r, u) == Some(r[i].1) {
      var k := (TypeOf(u.entityType).value, u.id);
      var j :| 0 <= j < |r| && r[j] == (k, r[i].1);
      assert j == i;
      CastRoundTrip(u.entityType);
    }
  }

  /** The calls for one update of the scene-entry batch; nothing when it addresses no
      registered entity. */
  function UpdateEntry(r: Registry<Key>, u: EntityUpdate): seq<Call>
  {
    match Addressed(r, u)
    case None => []
    case Some(e) => EntryCalls(e, u)
  }

  /** The calls for a whole scene-entry batch, update by update in batch order. */
  function ClientEntry(r: Registry<Key>, updates: seq<EntityUpdate>): seq<Call>
  {
    if |updates| == 0 then []
    else ClientEntry(r, updates[..|updates| - 1]) + UpdateEntry(r, updates[|updates| - 1])
  }

  /** Every call made on entering a scene as client goes to a registered entity. */
  lemma {:induction false} ClientEntryTargetsRegistered(r: Registry<Key>, updates: seq<EntityUpdate>)
    ensures forall c :: c in ClientEntry(r, updates) ==> c.target in Refs(r)
  {
    if |updates| > 0 {
      var u := updates[|updates| - 1];
      ClientEntryTargetsRegistered(r, updates[..|updates| - 1]);
      match Addressed(r, u)
      case None =>
      case Some(e) =>
        var k := (TypeOf(u.entityType).value, u.id);
        var j :| 0 <= j < |r| && r[j] == (k, e);
        assert Refs(r)[j] == e;
    }
  }

  /** How many updates of the batch address a registered entity. */
  function Found(r: Registry<Key>, updates: seq<EntityUpdate>): nat
  {
    if |updates| == 0 then 0
    else Found(r, updates[..|updates| - 1]) + (if Addressed(r, updates[|updates| - 1]).Some? then 1 else 0)
  }

  /** How many calls of the trace initialise their target as scene client. */
  function ClientInits(calls: seq<Call>): nat
  {
    if |calls| == 0 then 0
    else ClientInits(calls[..|calls| - 1]) + (if calls[|calls| - 1].call.InitializeAsSceneClient? then 1 else 0)
  }

  lemma {:induction false} ClientInitsAppend(a: seq<Call>, b: seq<Call>)
    ensures ClientInits(a + b) == ClientInits(a) + ClientInits(b)
    decreases |b|
  {
    if |b| > 0 {
      assert (a + b)[..|a + b| - 1] == a + b[..|b| - 1];
      ClientInitsAppend(a, b[..|b| - 1]);
    } else {
      assert a + b == a;
    }
  }

  /** Each update that addresses a registered entity initialises it exactly once;
      the others are skipped. */
  lemma {:induction false} OneInitPerFoundUpdate(r: Registry<Key>, updates: seq<EntityUpdate>)
    ensures ClientInits(ClientEntry(r, updates)) == Found(r, updates)
  {
    if |updates| > 0 {
      var front := updates[..|updates| - 1];
      var u := updates[|updates| - 1];
      OneInitPerFoundUpdate(r, front);
      ClientInitsAppend(ClientEntry(r, front), UpdateEntry(r, u));
      match Addressed(r, u)
      case None =>
      case Some(e) =>
        var calls := EntryCalls(e, u);
        var init := [calls[0]];
        assert ClientInits(init) == 1 by {
          assert init[..0] == [];
        }
        assert calls == init + calls[1..];
        ClientInitsAppend(init, calls[1..]);
        NoInitsAfterFirst(e, u);
    }
  }

  /** After its first call, an entry sets only position and scale. */
  lemma NoInitsAfterFirst(e: EntityRef, u: EntityUpdate)
    ensures ClientInits(EntryCalls(e, u)[1..]) == 0
  {
    var pos := if Position in u.updateTypes then [Call(e, UpdatePosition(u.position))] else [];
    var scale := if Scale in u.updateTypes then [Call(e, UpdateScale(u.scale))] else [];
    assert EntryCalls(e, u)[1..] == pos + scale;
    ClientInitsAppend(pos, scale);
    assert pos == [] || pos[..0] == [];
    assert scale == [] || scale[..0] == [];
  }

  /** Whether an update addresses key `k`: its type byte is the key type's byte and
      its id is the key's id. */
  predicate Addresses(u: EntityUpdate, k: Key)
  {
    u.entityType == Code(k.0) && u.id == k.1
  }

  /** The first update of the cached batch that addresses key `k`, if any. */
  function FirstCached(updates: seq<EntityUpdate>, k: Key): (u: Option<EntityUpdate>)
    ensures u.Some? ==> exists i :: (0 <= i < |updates| && updates[i] == u.value && Addresses(u.value, k)
      && forall j :: 0 <= j < i ==> !Addresses(updates[j], k))
    ensures u.None? <==> forall i :: 0 <= i < |updates| ==> !Addresses(updates[i], k)
  {
    if |updates| == 0 then None
    else if Addresses(updates[0], k) then Some(updates[0])
    else
      var u := FirstCached(updates[1..], k);
      assert forall i :: 1 <= i < |updates| ==> updates[i] == updates[1..][i - 1];
      if u.Some? then
        var i :| 0 <= i < |updates[1..]| && updates[1..][i] == u.value && Addresses(u.value, k)
          && forall j :: 0 <= j < i ==> !Addresses(updates[1..][j], k);
        assert updates[i + 1] == u.value;
        u
      else u
  }

  /** How a newly registered entity (or one `InitializeEntity` is asked about) is
      set up once the scene status is known: as scene host it is initialised as host;
      as scene client it is set up from the first cached update for its key, and left
      alone when there is no cache or no such update. */
  function LateInit(e: EntityRef, k: Key, isSceneHost: bool, cache: Option<seq<EntityUpdate>>): (calls: seq<Call>)
    ensures isSceneHost ==> calls == [Call(e, InitializeAsSceneHost)]
    ensures !isSceneHost && (cache.None? || FirstCached(cache.value, k).None?) ==> calls == []
    ensures !isSceneHost && cache.Some? && FirstCached(cache.value, k).Some? ==>
      calls == EntryCalls(e, FirstCached(cache.value, k).value)
  {
    if isSceneHost then [Call(e, InitializeAsSceneHost)]
    else match cache
      case None => []
      case Some(updates) =>
        match FirstCached(updates, k)
        case None => []
        case Some(u) => EntryCalls(e, u)
  }

  /** The call an inbound update makes: nothing on the scene host, nothing when no
      entity is registered under the key, otherwise one call on that entity. */
  function Route(r: Registry<Key>, isSceneHost: bool, k: Key, c: EntityCall): (calls: seq<Call>)
    ensures |calls| <= 1
    ensures calls == [] <==> isSceneHost || Lookup(r, k).None?
    ensures calls != [] ==> calls[0].call == c && (k, calls[0].target) in r
  {
    if isSceneHost then []
    else match Lookup(r, k)
      case None => []
      case Some(e) => [Call(e, c)]
  }

  // ---------------------------------------------------------------------------
  // The manager

  class EntityManager {
    var entities: Registry<Key>
    var isEnabled: bool
    var receivedSceneStatus: bool
    var isSceneHost: bool
    var cachedEntityUpdates: Option<seq<EntityUpdate>>
    /** Every call made on an entity so far, in order. */
    var trace: seq<Call>
    /** The handle the next created entity gets. */
    var nextRef: nat

    predicate Valid()
      reads this
    {
      WellFormed(entities, nextRef)
    }

    constructor ()
      ensures Valid()
      ensures entities == [] && !isEnabled && !receivedSceneStatus && !isSceneHost
      ensures cachedEntityUpdates.None? && trace == []
    {
      entities := [];
      isEnabled := false;
      receivedSceneStatus := false;
      isSceneHost := false;
      cachedEntityUpdates := None;
      trace := [];
      nextRef := 0;
    }

    /** Makes call `c` on every registered entity, in enumeration order. */
    method BroadcastCall(c: EntityCall)
      modifies this
      ensures trace == old(trace) + Broadcast(entities, c)
      ensures entities == old(entities) && isEnabled == old(isEnabled)
      ensures receivedSceneStatus == old(receivedSceneStatus) && isSceneHost == old(isSceneHost)
      ensures cachedEntityUpdates == old(cachedEntityUpdates) && nextRef == old(nextRef)
    {
      var calls := [];
      var i := 0;
      while i < |entities|
        invariant 0 <= i <= |entities|
        invariant calls == Broadcast(entities[..i], c)
      {
        assert entities[..i + 1][..i] == entities[..i];
        calls := calls + [Call(entities[i].1, c)];
        i := i + 1;
      }
      assert entities[..i] == entities;
      trace := trace + calls;
    }

    /** The scene host answered our scene entry: we are host. The flags are always
        recorded; only with sync enabled is every entity initialised as host. */
    method OnEnterSceneAsHost()
      requires Valid()
      modifies this
      ensures Valid()
      ensures isSceneHost && receivedSceneStatus
      ensures trace == old(trace) + if isEnabled then Broadcast(entities, InitializeAsSceneHost) else []
      ensures entities == old(entities) && isEnabled == old(isEnabled)
      ensures cachedEntityUpdates == old(cachedEntityUpdates) && nextRef == old(nextRef)
    {
      isSceneHost := true;
      receivedSceneStatus := true;
      if !isEnabled {
        return;
      }
      BroadcastCall(InitializeAsSceneHost);
    }

    /** We entered a scene that already has a host. The flags and the batch are always
        recorded; only with sync enabled is each addressed entity set up from its
        update. */
    method OnEnterSceneAsClient(entityUpdates: seq<EntityUpdate>)
      requires Valid()
      modifies this
      ensures Valid()
      ensures !isSceneHost && receivedSceneStatus && cachedEntityUpdates == Some(entityUpdates)
      ensures trace == old(trace) + if isEnabled then ClientEntry(entities, entityUpdates) else []
      ensures entities == old(entities) && isEnabled == old(isEnabled) && nextRef == old(nextRef)
    {
      isSceneHost := false;
      receivedSceneStatus := true;
      cachedEntityUpdates := Some(entityUpdates);
      if !isEnabled {
        return;
      }
      var calls := ClientEntryCalls(entities, entityUpdates);
      trace := trace + calls;
    }

    /** The calls that set up every addressed entity of `r` from the batch, update
        by update. */
    static method ClientEntryCalls(r: Registry<Key>, entityUpdates: seq<EntityUpdate>) returns (calls: seq<Call>)
      ensures calls == ClientEntry(r, entityUpdates)
    {
      calls := [];
      var i := 0;
      while i < |entityUpdates|
        invariant 0 <= i <= |entityUpdates|
        invariant calls == ClientEntry(r, entityUpdates[..i])
      {
        var entityUpdate := entityUpdates[i];
        assert entityUpdates[..i + 1][..i] == entityUpdates[..i];
        var entity := Addressed(r, entityUpdate);
        if entity.Some? {
          var entry := ClientSetUp(entity.value, entityUpdate);
          calls := calls + entry;
        }
        i := i + 1;
      }
      assert entityUpdates[..i] == entityUpdates;
    }

    /** The calls that set up entity `e` from update `u` on scene entry. */
    static method ClientSetUp(e: EntityRef, u: EntityUpdate) returns (calls: seq<Call>)
      ensures calls == EntryCalls(e, u)
    {
      var state: Option<byte> := None;
      if State in u.updateTypes {
        state := Some(u.state);
      }
      calls := [Call(e, InitializeAsSceneClient(state))];
      if Position in u.updateTypes {
        calls := calls + [Call(e, UpdatePosition(u.position))];
      }
      if Scale in u.updateTypes {
        calls := calls + [Call(e, UpdateScale(u.scale))];
      }
    }

    /** The host left and we took over. Only with sync enabled is every entity told. */
    method OnSwitchToSceneHost()
      requires Valid()
      modifies this
      ensures Valid()
      ensures isSceneHost && receivedSceneStatus == old(receivedSceneStatus)
      ensures trace == old(trace) + if isEnabled then Broadcast(entities, SwitchToSceneHost) else []
      ensures entities == old(entities) && isEnabled == old(isEnabled)
      ensures cachedEntityUpdates == old(cachedEntityUpdates) && nextRef == old(nextRef)
    {
      isSceneHost := true;
      if !isEnabled {
        return;
      }
      BroadcastCall(SwitchToSceneHost);
    }

    /** The setting is only recorded; it takes effect on the next scene. */
    method OnEntitySyncSettingChanged(syncEntities: bool)
      requires Valid()
      modifies this
      ensures Valid()
      ensures isEnabled == syncEntities
      ensures entities == old(entities) && trace == old(trace)
      ensures receivedSceneStatus == old(receivedSceneStatus) && isSceneHost == old(isSceneHost)
      ensures cachedEntityUpdates == old(cachedEntityUpdates) && nextRef == old(nextRef)
    {
      isEnabled := syncEntities;
    }

    /** A new scene became active: every registered entity is destroyed, whatever the
        setting, and the registry is emptied. The host flag and the cached batch are
        kept. */
    method OnSceneChanged()
      requires Valid()
      modifies this
      ensures Valid()
      ensures !receivedSceneStatus && entities == []
      ensures trace == old(trace) + Broadcast(old(entities), Destroy)
      ensures isSceneHost == old(isSceneHost) && isEnabled == old(isEnabled)
      ensures cachedEntityUpdates == old(cachedEntityUpdates) && nextRef == old(nextRef)
    {
      receivedSceneStatus := false;
      BroadcastCall(Destroy);
      entities := [];
    }

    /** The first cached update for key `k`, found by scanning the batch. */
    method FindCachedUpdate(updates: seq<EntityUpdate>, k: Key) returns (found: Option<EntityUpdate>)
      ensures found == FirstCached(updates, k)
    {
      found := None;
      var i := 0;
      while i < |updates|
        invariant 0 <= i <= |updates|
        invariant FirstCached(updates, k) == FirstCached(updates[i..], k)
      {
        var entityUpdate := updates[i];
        if Addresses(entityUpdate, k) {
          found := Some(entityUpdate);
          break;
        }
        assert updates[i..][1..] == updates[i + 1..];
        i := i + 1;
      }
    }

    /** Sets up entity `e` registered under `k` from the current scene status. */
    method InitializeFromStatus(e: EntityRef, k: Key)
      modifies this
      ensures trace == old(trace) + LateInit(e, k, isSceneHost, cachedEntityUpdates)
      ensures entities == old(entities) && isEnabled == old(isEnabled)
      ensures receivedSceneStatus == old(receivedSceneStatus) && isSceneHost == old(isSceneHost)
      ensures cachedEntityUpdates == old(cachedEntityUpdates) && nextRef == old(nextRef)
    {
      if isSceneHost {
        trace := trace + [Call(e, InitializeAsSceneHost)];
        return;
      }
      if cachedEntityUpdates.Some? {
        var entityUpdate := FindCachedUpdate(cachedEntityUpdates.value, k);
        if entityUpdate.Some? {
          var entry := ClientSetUp(e, entityUpdate.value);
          trace := trace + entry;
        }
      }
    }

    /** An enemy object was enabled. A name no rule classifies is ignored; otherwise a
        new entity is stored under its type and id, replacing any entity already there,
        and, when sync is enabled and the scene status is known, set up at once. The
        enemy's dead flag is handed back unchanged. */
    method OnEnableEnemyHook(enemyName: string, isDead: bool) returns (result: bool)
      requires Valid()
      modifies this
      ensures Valid()
      ensures result == isDead
      ensures Instantiate(enemyName).None? ==>
        entities == old(entities) && trace == old(trace) && nextRef == old(nextRef)
      ensures Instantiate(enemyName).Some? ==>
        entities == Put(old(entities), Instantiate(enemyName).value, old(nextRef))
        && nextRef == old(nextRef) + 1
        && trace == old(trace) + if isEnabled && receivedSceneStatus
          then LateInit(old(nextRef), Instantiate(enemyName).value, isSceneHost, cachedEntityUpdates) else []
      ensures isEnabled == old(isEnabled) && receivedSceneStatus == old(receivedSceneStatus)
      ensures isSceneHost == old(isSceneHost) && cachedEntityUpdates == old(cachedEntityUpdates)
    {
      var instantiated := Instantiate(enemyName);
      if instantiated.Some? {
        Register(instantiated.value);
      }
      return isDead;
    }

    /** Stores a new entity under `k`, replacing any entity already there, and sets it
        up at once when sync is enabled and the scene status is known. */
    method Register(k: Key)
      requires Valid()
      modifies this
      ensures Valid()
      ensures entities == Put(old(entities), k, old(nextRef)) && nextRef == old(nextRef) + 1
      ensures trace == old(trace) + if isEnabled && receivedSceneStatus
        then LateInit(old(nextRef), k, isSceneHost, cachedEntityUpdates) else []
      ensures isEnabled == old(isEnabled) && receivedSceneStatus == old(receivedSceneStatus)
      ensures isSceneHost == old(isSceneHost) && cachedEntityUpdates == old(cachedEntityUpdates)
    {
      var entity := nextRef;
      PutFresh(entities, nextRef, k);
      nextRef := nextRef + 1;
      entities := Put(entities, k, entity);
      if !isEnabled {
        return;
      }
      if receivedSceneStatus {
        InitializeFromStatus(entity, k);
      }
    }

    /** `InitializeEntity`: sets up the entity registered under `(entityType, entityId)`
        from the current scene status; nothing when no entity is registered there. */
    method InitializeEntity(entityType: EntityType, entityId: byte)
      requires Valid()
      modifies this
      ensures Valid()
      ensures trace == old(trace) + match Lookup(entities, (entityType, entityId))
        case None => []
        case Some(e) => LateInit(e, (entityType, entityId), isSceneHost, cachedEntityUpdates)
      ensures entities == old(entities) && isEnabled == old(isEnabled)
      ensures receivedSceneStatus == old(receivedSceneStatus) && isSceneHost == old(isSceneHost)
      ensures cachedEntityUpdates == old(cachedEntityUpdates) && nextRef == old(nextRef)
    {
      var entity := Lookup(entities, (entityType, entityId));
      if entity.None? {
        return;
      }
      InitializeFromStatus(entity.value, (entityType, entityId));
    }

    /** Makes call `c` on the entity under `k`, unless we are scene host or nothing is
        registered there. */
    method Dispatch(k: Key, c: EntityCall)
      modifies this
      ensures trace == old(trace) + Route(entities, isSceneHost, k, c)
      ensures entities == old(entities) && isEnabled == old(isEnabled)
      ensures receivedSceneStatus == old(receivedSceneStatus) && isSceneHost == old(isSceneHost)
      ensures cachedEntityUpdates == old(cachedEntityUpdates) && nextRef == old(nextRef)
    {
      if isSceneHost {
        return;
      }
      var entity := Lookup(entities, k);
      if entity.None? {
        return;
      }
      trace := trace + [Call(entity.value, c)];
    }

    method UpdateEntityPosition(entityType: EntityType, id: byte, position: Vector2)
      requires Valid()
      modifies this
      ensures Valid()
      ensures trace == old(trace) + Route(entities, isSceneHost, (entityType, id), UpdatePosition(position))
      ensures entities == old(entities) && isEnabled == old(isEnabled)
      ensures receivedSceneStatus == old(receivedSceneStatus) && isSceneHost == old(isSceneHost)
      ensures cachedEntityUpdates == old(cachedEntityUpdates) && nextRef == old(nextRef)
    {
      Dispatch((entityType, id), UpdatePosition(position));
    }

    method UpdateEntityScale(entityType: EntityType, id: byte, scale: bool)
      requires Valid()
      modifies this
      ensures Valid()
      ensures trace == old(trace) + Route(entities, isSceneHost, (entityType, id), UpdateScale(scale))
      ensures entities == old(entities) && isEnabled == old(isEnabled)
      ensures receivedSceneStatus == old(receivedSceneStatus) && isSceneHost == old(isSceneHost)
      ensures cachedEntityUpdates == old(cachedEntityUpdates) && nextRef == old(nextRef)
    {
      Dispatch((entityType, id), UpdateScale(scale));
    }

    method UpdateEntityAnimation(entityType: EntityType, id: byte, animationIndex: byte, animationInfo: seq<byte>)
      requires Valid()
      modifies this
      ensures Valid()
      ensures trace == old(trace)
        + Route(entities, isSceneHost, (entityType, id), UpdateAnimation(animationIndex, animationInfo))
      ensures entities == old(entities) && isEnabled == old(isEnabled)
      ensures receivedSceneStatus == old(receivedSceneStatus) && isSceneHost == old(isSceneHost)
      ensures cachedEntityUpdates == old(cachedEntityUpdates) && nextRef == old(nextRef)
    {
      Dispatch((entityType, id), UpdateAnimation(animationIndex, animationInfo));
    }

    method UpdateEntityState(entityType: EntityType, id: byte, state: byte)
      requires Valid()
      modifies this
      ensures Valid()
      ensures trace == old(trace) + Route(entities, isSceneHost, (entityType, id), UpdateState(state))
      ensures entities == old(entities) && isEnabled == old(isEnabled)
      ensures receivedSceneStatus == old(receivedSceneStatus) && isSceneHost == old(isSceneHost)
      ensures cachedEntityUpdates == old(cachedEntityUpdates) && nextRef == old(nextRef)
    {
      Dispatch((entityType, id), UpdateState(state));
    }
  }
}
