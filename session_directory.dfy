/**
 * The spawn rules of Assets/Scripts/PlayerManager.cs stated on values: the
 * connected-clients table with each client's player object, what a host or
 * guest spawn adds to it, and what the bulk reset leaves behind.
 */
module SessionDirectory {
  import opened Unity

  /** Netcode's `ulong` client ids and network object ids. */
  type ClientId = nat
  type ObjectId = nat

  /** Prefab A is the host's player, prefab B the guest's. */
  datatype PlayerVariant = HostVariant | GuestVariant

  /** An inspector prefab slot: empty, or a prefab with or without a NetworkObject component. */
  datatype Prefab = Unassigned | Assigned(hasNetworkObject: bool)

  /** A spawned player object. */
  datatype PlayerObject = PlayerObject(owner: ClientId, variant: PlayerVariant, position: Vector3)

  /**
   * The server's view: the connected clients in list order, each client's
   * player object (absent when it has none), the spawned player objects, and
   * the next unused object id.
   */
  datatype Directory = Directory(
    connected: seq<ClientId>,
    playerObjects: map<ClientId, ObjectId>,
    spawned: map<ObjectId, PlayerObject>,
    nextObjectId: ObjectId)

  const HostId: ClientId := 0
  const HostSpawnPoint := Vector3(-7.5, -2.0, 0.0)
  const GuestSpawnPoint := Vector3(-7.5, -4.0, 0.0)

  /**
   * The table's invariant: no client is listed twice, only connected clients
   * have player objects, each a spawned object that client owns, and object ids
   * are handed out in increasing order.
   */
  predicate Valid(d: Directory) {
    && (forall i, j :: 0 <= i < j < |d.connected| ==> d.connected[i] != d.connected[j])
    && (forall c :: c in d.playerObjects ==>
          c in d.connected && d.playerObjects[c] in d.spawned && d.spawned[d.playerObjects[c]].owner == c)
    && (forall k :: k in d.spawned ==> k < d.nextObjectId)
  }

  function RoleVariant(id: ClientId): PlayerVariant {
    if id == HostId then HostVariant else GuestVariant
  }

  function SpawnPoint(id: ClientId): Vector3 {
    if id == HostId then HostSpawnPoint else GuestSpawnPoint
  }

  /** `SpawnHostPlayer` gets as far as spawning. */
  predicate HostSpawnable(prefabA: Prefab) {
    prefabA.Assigned? && prefabA.hasNetworkObject
  }

  /** `SpawnClientPlayer` gets as far as spawning: it checks both slots, then uses B. */
  predicate GuestSpawnable(prefabA: Prefab, prefabB: Prefab) {
    prefabA.Assigned? && prefabB.Assigned? && prefabB.hasNetworkObject
  }

  /** The spawn the reset uses for `id` gets as far as spawning. */
  predicate RespawnSucceeds(prefabA: Prefab, prefabB: Prefab, id: ClientId) {
    if id == HostId then HostSpawnable(prefabA) else GuestSpawnable(prefabA, prefabB)
  }

  /**
   * `r` is `d` with exactly one more spawned object, owned by `id` with the given
   * variant and position, now `id`'s player object; nothing was despawned and no
   * other client's player object changed.
   */
  ghost predicate AddsPlayerObject(d: Directory, r: Directory, id: ClientId, variant: PlayerVariant, at: Vector3) {
    && id in r.playerObjects
    && r.playerObjects[id] !in d.spawned
    && r.spawned == d.spawned[r.playerObjects[id] := PlayerObject(id, variant, at)]
    && (forall c :: c != id ==> (c in r.playerObjects <==> c in d.playerObjects))
    && (forall c :: c != id && c in d.playerObjects ==> r.playerObjects[c] == d.playerObjects[c])
  }

  /** Netcode's `SpawnAsPlayerObject`: a fresh object becomes the owner's player object. */
  function SpawnedAsPlayer(d: Directory, owner: ClientId, variant: PlayerVariant, at: Vector3): (r: Directory)
    requires Valid(d) && owner in d.connected
    ensures Valid(r)
  {
    d.(playerObjects := d.playerObjects[owner := d.nextObjectId],
       spawned := d.spawned[d.nextObjectId := PlayerObject(owner, variant, at)],
       nextObjectId := d.nextObjectId + 1)
  }

  /** `SpawnHostPlayer`: a prefab-A object at the host spawn point, if prefab A can be spawned. */
  function SpawnHost(d: Directory, prefabA: Prefab, id: ClientId): (r: Directory)
    requires Valid(d) && id in d.connected
    ensures Valid(r) && r.connected == d.connected && r.nextObjectId >= d.nextObjectId
    ensures HostSpawnable(prefabA) ==> AddsPlayerObject(d, r, id, HostVariant, HostSpawnPoint)
    ensures !HostSpawnable(prefabA) ==> r == d
  {
    if prefabA.Unassigned? then d
    else if !prefabA.hasNetworkObject then d
    else SpawnedAsPlayer(d, id, HostVariant, HostSpawnPoint)
  }

  /** `SpawnClientPlayer`: a prefab-B object at the guest spawn point, if both prefabs are assigned. */
  function SpawnGuest(d: Directory, prefabA: Prefab, prefabB: Prefab, id: ClientId): (r: Directory)
    requires Valid(d) && id in d.connected
    ensures Valid(r) && r.connected == d.connected && r.nextObjectId >= d.nextObjectId
    ensures GuestSpawnable(prefabA, prefabB) ==> AddsPlayerObject(d, r, id, GuestVariant, GuestSpawnPoint)
    ensures !GuestSpawnable(prefabA, prefabB) ==> r == d
  {
    if prefabA.Unassigned? || prefabB.Unassigned? then d
    else if !prefabB.hasNetworkObject then d
    else SpawnedAsPlayer(d, id, GuestVariant, GuestSpawnPoint)
  }

  /**
   * `OnClientConnected` and `RequestSpawnServerRpc`, which share one rule: the
   * host id and ids missing from the table are ignored; any other id gets a
   * guest spawn, whether or not it already has a player object.
   */
  function AcceptGuestSpawn(d: Directory, prefabA: Prefab, prefabB: Prefab, id: ClientId): (r: Directory)
    requires Valid(d)
    ensures Valid(r) && r.connected == d.connected
    ensures id == HostId || id !in d.connected ==> r == d
    ensures id != HostId && id in d.connected && GuestSpawnable(prefabA, prefabB) ==>
      AddsPlayerObject(d, r, id, GuestVariant, GuestSpawnPoint)
    ensures !GuestSpawnable(prefabA, prefabB) ==> r == d
  {
    if id == HostId then d
    else if id !in d.connected then d
    else SpawnGuest(d, prefabA, prefabB, id)
  }

  /** The spawned objects owned by `id`. */
  function OwnedBy(d: Directory, id: ClientId): set<ObjectId> {
    set k | k in d.spawned && d.spawned[k].owner == id
  }

  /**
   * No spawn checks for an existing player object: each accepted call leaves the
   * previous one spawned and adds one more object owned by `id`.
   */
  lemma EachAcceptedSpawnAddsAnObject(d: Directory, prefabA: Prefab, prefabB: Prefab, id: ClientId)
    requires Valid(d) && id != HostId && id in d.connected && GuestSpawnable(prefabA, prefabB)
    ensures var r := AcceptGuestSpawn(d, prefabA, prefabB, id);
      |OwnedBy(r, id)| == |OwnedBy(d, id)| + 1 &&
      (id in d.playerObjects ==> d.playerObjects[id] in r.spawned)
  {
    var r := AcceptGuestSpawn(d, prefabA, prefabB, id);
    var added := r.playerObjects[id];
    assert OwnedBy(r, id) == OwnedBy(d, id) + {added};
    assert added !in OwnedBy(d, id);
  }

  /**
   * The transport admitting a client: a new id joins the end of the table and
   * nothing is spawned; an id already there changes nothing.
   */
  function Connected(d: Directory, id: ClientId): (r: Directory)
    requires Valid(d)
    ensures Valid(r) && id in r.connected
    ensures r.playerObjects == d.playerObjects && r.spawned == d.spawned && r.nextObjectId == d.nextObjectId
    ensures forall c :: c in r.connected <==> c in d.connected || c == id
    ensures id in d.connected ==> r == d
  {
    if id in d.connected then d else d.(connected := d.connected + [id])
  }

  /**
   * A guest's connection can be answered on both paths: the connect callback
   * spawns it, and a spawn request for the same id spawns it again. It then
   * owns two more objects than before, both still spawned.
   */
  lemma ConnectThenRequestSpawnsTwice(d: Directory, prefabA: Prefab, prefabB: Prefab, id: ClientId)
    requires Valid(d) && id != HostId && id !in d.connected && GuestSpawnable(prefabA, prefabB)
    ensures var r1 := AcceptGuestSpawn(Connected(d, id), prefabA, prefabB, id);
      var r2 := AcceptGuestSpawn(r1, prefabA, prefabB, id);
      |OwnedBy(r2, id)| == |OwnedBy(d, id)| + 2 &&
      r1.playerObjects[id] in r2.spawned && r1.playerObjects[id] != r2.playerObjects[id]
  {
    var c := Connected(d, id);
    assert OwnedBy(c, id) == OwnedBy(d, id);
    EachAcceptedSpawnAddsAnObject(c, prefabA, prefabB, id);
    var r1 := AcceptGuestSpawn(c, prefabA, prefabB, id);
    EachAcceptedSpawnAddsAnObject(r1, prefabA, prefabB, id);
  }

  /** `Despawn` of `id`'s player object: the object leaves the world and the link is cleared. */
  function Despawned(d: Directory, id: ClientId): (r: Directory)
    requires Valid(d) && id in d.playerObjects
    ensures Valid(r)
  {
    d.(spawned := d.spawned - {d.playerObjects[id]}, playerObjects := d.playerObjects - {id})
  }

  /**
   * One iteration of `DoResetPlayers`: a client with a player object is despawned
   * and then respawned by its role; one without is skipped.
   */
  function ResetClient(d: Directory, prefabA: Prefab, prefabB: Prefab, id: ClientId): (r: Directory)
    requires Valid(d) && id in d.connected
    ensures Valid(r) && r.connected == d.connected && r.nextObjectId >= d.nextObjectId
    ensures forall k :: k in r.spawned ==> k in d.spawned || k >= d.nextObjectId
    ensures id in r.playerObjects <==> id in d.playerObjects && RespawnSucceeds(prefabA, prefabB, id)
    ensures id in r.playerObjects ==>
      r.spawned[r.playerObjects[id]] == PlayerObject(id, RoleVariant(id), SpawnPoint(id))
    ensures id in d.playerObjects ==> d.playerObjects[id] !in r.spawned
    ensures forall c :: c != id ==> (c in r.playerObjects <==> c in d.playerObjects)
    ensures forall c :: c != id && c in d.playerObjects ==>
      r.playerObjects[c] == d.playerObjects[c] && r.spawned[r.playerObjects[c]] == d.spawned[d.playerObjects[c]]
  {
    if id in d.playerObjects then
      var d1 := Despawned(d, id);
      if id == HostId then SpawnHost(d1, prefabA, id) else SpawnGuest(d1, prefabA, prefabB, id)
    else
      d
  }

  /** The player loop of `DoResetPlayers` over the clients `ids`, in order. */
  function ResetEach(d: Directory, prefabA: Prefab, prefabB: Prefab, ids: seq<ClientId>): (r: Directory)
    requires Valid(d) && forall i :: 0 <= i < |ids| ==> ids[i] in d.connected
    ensures Valid(r) && r.connected == d.connected && r.nextObjectId >= d.nextObjectId
    ensures forall k :: k in r.spawned ==> k in d.spawned || k >= d.nextObjectId
    decreases |ids|
  {
    if ids == [] then d
    else
      var prev := ResetEach(d, prefabA, prefabB, ids[..|ids| - 1]);
      ResetClient(prev, prefabA, prefabB, ids[|ids| - 1])
  }

  /**
   * What the player loop leaves behind. A listed client that had a player object
   * has a fresh one at its role's spawn point when its prefab check passes, and
   * none otherwise; its old object is gone either way. A listed client without
   * one still has none. Unlisted clients are untouched.
   */
  lemma {:induction false} ResetEachOutcome(d: Directory, prefabA: Prefab, prefabB: Prefab, ids: seq<ClientId>)
    requires Valid(d) && forall i :: 0 <= i < |ids| ==> ids[i] in d.connected
    requires forall i, j :: 0 <= i < j < |ids| ==> ids[i] != ids[j]
    ensures var r := ResetEach(d, prefabA, prefabB, ids);
      forall c :: c in ids ==>
        && (c in r.playerObjects <==> c in d.playerObjects && RespawnSucceeds(prefabA, prefabB, c))
        && (c in r.playerObjects ==>
              r.spawned[r.playerObjects[c]] == PlayerObject(c, RoleVariant(c), SpawnPoint(c)))
        && (c in d.playerObjects ==> d.playerObjects[c] !in r.spawned)
    ensures var r := ResetEach(d, prefabA, prefabB, ids);
      forall c :: c !in ids ==>
        && (c in r.playerObjects <==> c in d.playerObjects)
        && (c in d.playerObjects ==>
              r.playerObjects[c] == d.playerObjects[c] && r.spawned[r.playerObjects[c]] == d.spawned[d.playerObjects[c]])
    decreases |ids|
  {
    if ids != [] {
      var front := ids[..|ids| - 1];
      var x := ids[|ids| - 1];
      ResetEachOutcome(d, prefabA, prefabB, front);
      var prev := ResetEach(d, prefabA, prefabB, front);
      var r := ResetClient(prev, prefabA, prefabB, x);
      assert r == ResetEach(d, prefabA, prefabB, ids);
      assert x !in front;
      forall c | c in ids
        ensures c in r.playerObjects <==> c in d.playerObjects && RespawnSucceeds(prefabA, prefabB, c)
        ensures c in r.playerObjects ==>
          r.spawned[r.playerObjects[c]] == PlayerObject(c, RoleVariant(c), SpawnPoint(c))
        ensures c in d.playerObjects ==> d.playerObjects[c] !in r.spawned
      {
        if c != x {
          assert c in front;
          if c in d.playerObjects {
            // the old object was despawned earlier; later spawns only use fresh ids
            assert d.playerObjects[c] < d.nextObjectId <= prev.nextObjectId;
          }
        }
      }
    }
  }

  /** The whole player loop, over the connected-clients list. */
  function Reset(d: Directory, prefabA: Prefab, prefabB: Prefab): (r: Directory)
    requires Valid(d)
    ensures Valid(r) && r.connected == d.connected
  {
    ResetEach(d, prefabA, prefabB, d.connected)
  }

  /** Each client with a player object, mapped to that object's position. */
  function PlayerPositions(d: Directory): map<ClientId, Vector3> {
    map c | c in d.playerObjects && d.playerObjects[c] in d.spawned :: d.spawned[d.playerObjects[c]].position
  }

  /**
   * After a reset, exactly the clients that had a player object and whose respawn
   * passes the prefab checks have one, each at its role's spawn point.
   */
  lemma ResetPlacesEachRole(d: Directory, prefabA: Prefab, prefabB: Prefab)
    requires Valid(d)
    ensures var r := Reset(d, prefabA, prefabB);
      forall c :: c in r.playerObjects <==> c in d.playerObjects && RespawnSucceeds(prefabA, prefabB, c)
    ensures var r := Reset(d, prefabA, prefabB);
      forall c :: c in r.playerObjects ==>
        r.spawned[r.playerObjects[c]] == PlayerObject(c, RoleVariant(c), SpawnPoint(c))
  {
    var r := Reset(d, prefabA, prefabB);
    ResetEachOutcome(d, prefabA, prefabB, d.connected);
    forall c
      ensures c in r.playerObjects <==> c in d.playerObjects && RespawnSucceeds(prefabA, prefabB, c)
      ensures c in r.playerObjects ==>
        r.spawned[r.playerObjects[c]] == PlayerObject(c, RoleVariant(c), SpawnPoint(c))
    {
      if c !in d.connected {
        assert c !in d.playerObjects && c !in r.playerObjects;
      }
    }
  }

  /** Where a reset puts players: each client that keeps one, at its role's spawn point. */
  function RespawnPositions(d: Directory, prefabA: Prefab, prefabB: Prefab): map<ClientId, Vector3> {
    map c | c in d.playerObjects && RespawnSucceeds(prefabA, prefabB, c) :: SpawnPoint(c)
  }

  lemma PositionsOfRespawned(r: Directory, d: Directory, prefabA: Prefab, prefabB: Prefab)
    requires forall c :: c in r.playerObjects <==> c in d.playerObjects && RespawnSucceeds(prefabA, prefabB, c)
    requires forall c :: c in r.playerObjects ==>
      r.playerObjects[c] in r.spawned && r.spawned[r.playerObjects[c]].position == SpawnPoint(c)
    ensures PlayerPositions(r) == RespawnPositions(d, prefabA, prefabB)
  {
    var p := PlayerPositions(r);
    var m := RespawnPositions(d, prefabA, prefabB);
    assert p.Keys == m.Keys;
  }

  /** The positions a reset leaves: each surviving client at its role's spawn point. */
  lemma ResetPositions(d: Directory, prefabA: Prefab, prefabB: Prefab)
    requires Valid(d)
    ensures PlayerPositions(Reset(d, prefabA, prefabB)) == RespawnPositions(d, prefabA, prefabB)
  {
    ResetPlacesEachRole(d, prefabA, prefabB);
    PositionsOfRespawned(Reset(d, prefabA, prefabB), d, prefabA, prefabB);
  }

  /** Two resets in a row give the same player positions as one. */
  lemma ResetTwiceSamePositions(d: Directory, prefabA: Prefab, prefabB: Prefab)
    requires Valid(d)
    ensures PlayerPositions(Reset(Reset(d, prefabA, prefabB), prefabA, prefabB)) ==
            PlayerPositions(Reset(d, prefabA, prefabB))
  {
    var r1 := Reset(d, prefabA, prefabB);
    ResetPlacesEachRole(d, prefabA, prefabB);
    ResetPositions(d, prefabA, prefabB);
    ResetPositions(r1, prefabA, prefabB);
    assert RespawnPositions(r1, prefabA, prefabB).Keys == RespawnPositions(d, prefabA, prefabB).Keys;
  }
}
