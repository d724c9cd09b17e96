/**
 * The spawn directory and reset orchestrator (Assets/Scripts/PlayerManager.cs),
 * over an explicitly passed network manager that holds the connected-clients
 * table. Each handler is proved to produce what the rules in SessionDirectory
 * say; the reset also restores the camera and re-arms the camera-mover
 * buttons that the tag lookup finds, which are the active ones.
 */
module PlayerManagerScript {
  import opened Wrappers
  import opened Unity
  import opened SessionDirectory
  import opened NextScreenButtonScript

  /** Netcode's connected-clients table and spawned player objects, on the server. */
  class NetworkManager {
    var connectedClients: seq<ClientId>
    var playerObjects: map<ClientId, ObjectId>
    var spawned: map<ObjectId, PlayerObject>
    var nextObjectId: ObjectId

    function Snapshot(): Directory
      reads this
    {
      Directory(connectedClients, playerObjects, spawned, nextObjectId)
    }

    constructor ()
      ensures Snapshot() == Directory([], map[], map[], 0) && Valid(Snapshot())
    {
      connectedClients := [];
      playerObjects := map[];
      spawned := map[];
      nextObjectId := 0;
    }

    /** The transport's connection handshake, which adds the client to the table. */
    method AcceptConnection(id: ClientId)
      requires Valid(Snapshot())
      modifies this
      ensures Snapshot() == Connected(old(Snapshot()), id)
    {
      if id !in connectedClients {
        connectedClients := connectedClients + [id];
      }
    }

    method SpawnAsPlayerObject(owner: ClientId, variant: PlayerVariant, at: Vector3)
      requires Valid(Snapshot()) && owner in connectedClients
      modifies this
      ensures Snapshot() == SpawnedAsPlayer(old(Snapshot()), owner, variant, at)
    {
      playerObjects := playerObjects[owner := nextObjectId];
      spawned := spawned[nextObjectId := PlayerObject(owner, variant, at)];
      nextObjectId := nextObjectId + 1;
    }

    /** `NetworkObject.Despawn` on a client's player object. */
    method Despawn(id: ClientId)
      requires Valid(Snapshot()) && id in playerObjects
      modifies this
      ensures Snapshot() == Despawned(old(Snapshot()), id)
    {
      spawned := spawned - {playerObjects[id]};
      playerObjects := playerObjects - {id};
    }
  }

  /**
   * A scene object tagged "Camera_Mover". A mover that carries a
   * `NextScreenButton` is that button's own object, the one the button
   * deactivates when it fires.
   */
  datatype CameraMover = Plain(plain: GameObject) | Button(button: NextScreenButton)
  {
    function Obj(): GameObject {
      if Plain? then plain else button.gameObject
    }
  }

  const CameraHome := Vector3(0.0, 0.0, -10.0)

  function MoverObjects(movers: seq<CameraMover>): set<GameObject> {
    set m | m in movers :: m.Obj()
  }

  function MoverButtons(movers: seq<CameraMover>): set<NextScreenButton> {
    set m | m in movers && m.Button? :: m.button
  }

  /**
   * `GameObject.FindGameObjectsWithTag("Camera_Mover")`: of all the tagged
   * objects in the scene, in scene order, the active ones. A button that has
   * fired has deactivated its own object and so is not found.
   */
  function FindCameraMovers(movers: seq<CameraMover>): (r: seq<CameraMover>)
    reads MoverObjects(movers)
    ensures forall m :: m in r ==> m in movers && m.Obj().active
    ensures forall i :: 0 <= i < |movers| && movers[i].Obj().active ==> movers[i] in r
  {
    if movers == [] then []
    else if movers[0].Obj().active then [movers[0]] + FindCameraMovers(movers[1..])
    else FindCameraMovers(movers[1..])
  }

  class PlayerManager {
    /** The injected network context in place of `NetworkManager.Singleton`. */
    const network: NetworkManager
    const isServer: bool
    const isOwner: bool
    const playerPrefabA: Prefab
    const playerPrefabB: Prefab
    const mainCamera: GameObject?
    /** This participant's copy of the replicated `Position`. */
    var position: Vector3
    var transform: Vector3

    constructor (network: NetworkManager, isServer: bool, isOwner: bool,
                 playerPrefabA: Prefab, playerPrefabB: Prefab, mainCamera: GameObject?, transform: Vector3)
      ensures this.network == network && this.isServer == isServer && this.isOwner == isOwner
      ensures this.playerPrefabA == playerPrefabA && this.playerPrefabB == playerPrefabB
      ensures this.mainCamera == mainCamera && this.transform == transform && position == Vector3Zero
    {
      this.network := network;
      this.isServer := isServer;
      this.isOwner := isOwner;
      this.playerPrefabA := playerPrefabA;
      this.playerPrefabB := playerPrefabB;
      this.mainCamera := mainCamera;
      this.transform := transform;
      position := Vector3Zero;
    }

    /** The server-started callback spawns the host's own player; the host is already in the table. */
    method HandleServerStarted(localClientId: ClientId)
      requires Valid(network.Snapshot()) && localClientId in network.connectedClients
      modifies network
      ensures Snapshot() == SpawnHost(old(Snapshot()), playerPrefabA, localClientId)
    {
      SpawnHostPlayer(localClientId);
    }

    function Snapshot(): Directory
      reads network
    {
      network.Snapshot()
    }

    method OnClientConnected(clientId: ClientId)
      requires Valid(Snapshot())
      modifies network
      ensures Snapshot() == AcceptGuestSpawn(old(Snapshot()), playerPrefabA, playerPrefabB, clientId)
    {
      if clientId == 0 {
        return;
      }
      if clientId !in network.connectedClients {
        return;
      }
      SpawnClientPlayer(clientId);
    }

    method RequestSpawnServerRpc(clientId: ClientId)
      requires Valid(Snapshot())
      modifies network
      ensures Snapshot() == AcceptGuestSpawn(old(Snapshot()), playerPrefabA, playerPrefabB, clientId)
    {
      if clientId == 0 {
        return;
      }
      if clientId !in network.connectedClients {
        return;
      }
      SpawnClientPlayer(clientId);
    }

    method SpawnHostPlayer(hostClientId: ClientId)
      requires Valid(Snapshot()) && hostClientId in network.connectedClients
      modifies network
      ensures Snapshot() == SpawnHost(old(Snapshot()), playerPrefabA, hostClientId)
    {
      if playerPrefabA.Unassigned? {
        return;
      }
      if !playerPrefabA.hasNetworkObject {
        return;
      }
      network.SpawnAsPlayerObject(hostClientId, HostVariant, HostSpawnPoint);
    }

    method SpawnClientPlayer(clientId: ClientId)
      requires Valid(Snapshot()) && clientId in network.connectedClients
      modifies network
      ensures Snapshot() == SpawnGuest(old(Snapshot()), playerPrefabA, playerPrefabB, clientId)
    {
      if playerPrefabA.Unassigned? || playerPrefabB.Unassigned? {
        return;
      }
      if !playerPrefabB.hasNetworkObject {
        return;
      }
      network.SpawnAsPlayerObject(clientId, GuestVariant, GuestSpawnPoint);
    }

    function CameraFrame(): set<GameObject> {
      if mainCamera == null then {} else {mainCamera}
    }

    /** The change callback: the transform follows `Position` only when it differs from `previous`. */
    method OnStateChanged(previous: Vector3, current: Vector3)
      modifies this
      ensures transform == (if position != previous then position else old(transform))
      ensures position == old(position)
    {
      if position != previous {
        transform := position;
      }
    }

    /** Only the owner submits; the result is the RPC payload sent, if any. */
    method Move() returns (request: Option<Vector3>)
      ensures request.Some? <==> isOwner
      ensures request.Some? ==> request.value == transform
    {
      if !isOwner {
        return None;
      }
      request := Some(transform);
    }

    /** The server's handler: the submitted value becomes both the transform and `Position`. */
    method SubmitPositionRequestServerRpc(newPosition: Vector3)
      modifies this
      ensures transform == newPosition && position == newPosition
    {
      transform := newPosition;
      position := newPosition;
    }

    /**
     * The state a reset leaves, where `movers` are all the objects tagged
     * "Camera_Mover": the player table as the reset rules say, and the camera
     * at home with its active flag kept. The lookup finds only active movers,
     * so no mover's active flag changes, and no mover other than the camera
     * moves. A button on an active mover is re-armed. A button that has fired
     * sits on an inactive mover, so it stays latched and inactive. No counter
     * changes.
     */
    twostate predicate ResetApplied(movers: seq<CameraMover>)
      reads network, mainCamera, MoverObjects(movers), MoverButtons(movers)
      requires Valid(old(network.Snapshot()))
    {
      && network.Snapshot() == Reset(old(network.Snapshot()), playerPrefabA, playerPrefabB)
      && (mainCamera != null ==> mainCamera.position == CameraHome && mainCamera.active == old(mainCamera.active))
      && (forall i :: 0 <= i < |movers| ==> movers[i].Obj().active == old(movers[i].Obj().active))
      && (forall i :: 0 <= i < |movers| && movers[i].Obj() != mainCamera ==>
            movers[i].Obj().position == old(movers[i].Obj().position))
      && (forall i :: 0 <= i < |movers| && movers[i].Button? ==>
            movers[i].button.playersOnButton == old(movers[i].button.playersOnButton) &&
            movers[i].button.hasTriggered == (old(movers[i].button.hasTriggered) && !old(movers[i].Obj().active)))
    }

    /**
     * The reset button's handler. On the server it resets at once; elsewhere it
     * only forwards the request (the result says whether it did) and changes nothing.
     */
    method ResetPlayers(movers: seq<CameraMover>) returns (forwarded: bool)
      requires Valid(Snapshot())
      modifies network, mainCamera, MoverObjects(movers), MoverButtons(movers)
      ensures forwarded == !isServer
      ensures isServer ==> ResetApplied(movers)
      ensures !isServer ==>
        unchanged(network) && unchanged(CameraFrame()) &&
        unchanged(MoverObjects(movers)) && unchanged(MoverButtons(movers))
    {
      if !isServer {
        forwarded := true;
      } else {
        forwarded := false;
        DoResetPlayers(movers);
      }
    }

    /** The forwarded request, handled on the server with the same outcome. */
    method ResetPlayersServerRpc(movers: seq<CameraMover>)
      requires Valid(Snapshot())
      modifies network, mainCamera, MoverObjects(movers), MoverButtons(movers)
      ensures ResetApplied(movers)
    {
      DoResetPlayers(movers);
    }

    /** The player loop, then the camera and the camera movers. */
    method DoResetPlayers(movers: seq<CameraMover>)
      requires Valid(Snapshot())
      modifies network, mainCamera, MoverObjects(movers), MoverButtons(movers)
      ensures ResetApplied(movers)
    {
      RespawnPlayers();
      label respawned:
      ResetScene(movers);
      assert forall i :: 0 <= i < |movers| ==>
        old@respawned(movers[i].Obj().active) == old(movers[i].Obj().active) &&
        old@respawned(movers[i].Obj().position) == old(movers[i].Obj().position);
      assert forall i :: 0 <= i < |movers| && movers[i].Button? ==>
        old@respawned(movers[i].button.playersOnButton) == old(movers[i].button.playersOnButton) &&
        old@respawned(movers[i].button.hasTriggered) == old(movers[i].button.hasTriggered);
    }

    /**
     * The scene part of `DoResetPlayers`: the camera goes home, then the camera
     * movers are looked up and reset.
     */
    method ResetScene(movers: seq<CameraMover>)
      modifies mainCamera, MoverObjects(movers), MoverButtons(movers)
      ensures mainCamera != null ==> mainCamera.position == CameraHome && mainCamera.active == old(mainCamera.active)
      ensures forall i :: 0 <= i < |movers| ==> movers[i].Obj().active == old(movers[i].Obj().active)
      ensures forall i :: 0 <= i < |movers| && movers[i].Obj() != mainCamera ==>
        movers[i].Obj().position == old(movers[i].Obj().position)
      ensures forall i :: 0 <= i < |movers| && movers[i].Button? ==>
        movers[i].button.playersOnButton == old(movers[i].button.playersOnButton) &&
        movers[i].button.hasTriggered == (old(movers[i].button.hasTriggered) && !old(movers[i].Obj().active))
    {
      ResetCamera();
      label cameraHome:
      ResetCameraMovers(movers);
      assert forall i :: 0 <= i < |movers| ==>
        old@cameraHome(movers[i].Obj().active) == old(movers[i].Obj().active);
      assert forall i :: 0 <= i < |movers| && movers[i].Obj() != mainCamera ==>
        old@cameraHome(movers[i].Obj().position) == old(movers[i].Obj().position);
      assert forall i :: 0 <= i < |movers| && movers[i].Button? ==>
        old@cameraHome(movers[i].button.playersOnButton) == old(movers[i].button.playersOnButton) &&
        old@cameraHome(movers[i].button.hasTriggered) == old(movers[i].button.hasTriggered);
    }

    /** The camera part of `DoResetPlayers`: an assigned camera goes home and nothing else changes. */
    method ResetCamera()
      modifies CameraFrame()
      ensures mainCamera != null ==> mainCamera.position == CameraHome && mainCamera.active == old(mainCamera.active)
    {
      if mainCamera != null {
        mainCamera.position := CameraHome;
      }
    }

    /**
     * The last part of `DoResetPlayers`, over all the objects tagged
     * "Camera_Mover": look up the active ones, then reactivate them and re-arm
     * their buttons. No mover's active flag or position changes. A button on an
     * active mover is re-armed; one on an inactive mover keeps its latch.
     */
    method ResetCameraMovers(movers: seq<CameraMover>)
      modifies MoverObjects(movers), MoverButtons(movers)
      ensures forall o :: o in MoverObjects(movers) ==> o.active == old(o.active) && o.position == old(o.position)
      ensures forall i :: 0 <= i < |movers| ==>
        movers[i].Obj().active == old(movers[i].Obj().active) &&
        movers[i].Obj().position == old(movers[i].Obj().position)
      ensures mainCamera != null ==>
        mainCamera.active == old(mainCamera.active) && mainCamera.position == old(mainCamera.position)
      ensures forall i :: 0 <= i < |movers| && movers[i].Button? ==>
        movers[i].button.playersOnButton == old(movers[i].button.playersOnButton) &&
        movers[i].button.hasTriggered == (old(movers[i].button.hasTriggered) && !old(movers[i].Obj().active))
    {
      var found := FindCameraMovers(movers);
      assert MoverObjects(found) <= MoverObjects(movers);
      assert MoverButtons(found) <= MoverButtons(movers);
      ReactivateCameraMovers(found);
    }

    /** The first loop of `DoResetPlayers`: despawn and respawn each client, in list order. */
    method RespawnPlayers()
      requires Valid(Snapshot())
      modifies network
      ensures Snapshot() == Reset(old(Snapshot()), playerPrefabA, playerPrefabB)
    {
      ghost var before := network.Snapshot();
      var clients := network.connectedClients;
      for i := 0 to |clients|
        invariant network.Snapshot() == ResetEach(before, playerPrefabA, playerPrefabB, clients[..i])
        invariant network.connectedClients == clients
      {
        var id := clients[i];
        if id in network.playerObjects {
          network.Despawn(id);
          if id == 0 {
            SpawnHostPlayer(id);
          } else {
            SpawnClientPlayer(id);
          }
        }
        assert clients[..i + 1][..i] == clients[..i];
      }
      assert clients[..|clients|] == clients;
    }

    /**
     * The second loop of `DoResetPlayers`: activate each mover found and
     * re-arm its button, keeping counters and positions.
     */
    method ReactivateCameraMovers(found: seq<CameraMover>)
      modifies MoverObjects(found), MoverButtons(found)
      ensures forall k :: 0 <= k < |found| ==> found[k].Obj().active
      ensures forall k :: 0 <= k < |found| && found[k].Button? ==>
        !found[k].button.hasTriggered && found[k].button.playersOnButton == old(found[k].button.playersOnButton)
      ensures forall o :: o in MoverObjects(found) ==> o.position == old(o.position)
    {
      for j := 0 to |found|
        invariant forall k :: 0 <= k < j ==> found[k].Obj().active
        invariant forall k :: 0 <= k < j && found[k].Button? ==> !found[k].button.hasTriggered
        invariant forall k :: 0 <= k < |found| && found[k].Button? ==>
          found[k].button.playersOnButton == old(found[k].button.playersOnButton)
        invariant forall o :: o in MoverObjects(found) ==> o.position == old(o.position)
      {
        var mover := found[j];
        mover.Obj().SetActive(true);
        if mover.Button? {
          mover.button.ResetTrigger();
        }
      }
    }
  }
}
