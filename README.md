# Co-op platformer scripts: spawn directory, movement and trigger state machines

A two-player networked puzzle platformer. Beneath the engine calls, each script
is a small event-driven state machine over a few fields. This project models
those machines in Dafny and proves what they promise.

- **PlayerManager** keeps the connected-clients table. Each client may have a
  player object. The host (client id 0) is spawned from prefab A at
  (-7.5,-2,0). Every other client is spawned from prefab B at (-7.5,-4,0). A bulk
  reset despawns and respawns every player and puts the camera back at
  (0,0,-10). It then looks up the camera-mover objects and re-arms the buttons
  on the ones it finds. The lookup finds only active objects.
- **PlayerMovement** is the server-authoritative movement step. Each participant
  copies the replicated `Position` into its transform. Only the owner sends a
  displacement. The server commits the body position plus that displacement.
- **NextScreenButton** and **Victory** are occupancy counters with a single-use
  latch. **GateTrigger** is a counter plus the gate's vertical velocity.
  **PositionMonitor** is a threshold raise. **BlueWaterTrigger**,
  **RedWaterTrigger** and **horizontal_movement** are one-shot switches.

Layout. `unity.dfy` holds the engine values: vectors, tags, trigger callbacks,
`GameObject` and `Rigidbody2D`. Each script has one module. Where the script
updates fields, it is a class with those fields. A `State()` function gives the
class's value view. Each handler is proved to move `State()` exactly as a pure
transition function says (`Enter`, `Exit`, `Tick`, ...). The lemmas about
sequences of events are proved about those functions. `SessionDirectory` states
the spawn and reset rules on values. `PlayerManagerScript` implements them over
an injected `NetworkManager`, which stands in for `NetworkManager.Singleton`.

Modelling conventions:
- Vectors have `real` components. A collider is modelled by its tag string.
- A call from a client to a server RPC is modelled in two parts. The caller
  returns the payload it would send (`FixedUpdate`, `Move`, `ResetPlayers` on a
  client). The server's handler is a method on the server's copy.
- `Rigidbody2D.MovePosition` only records a requested move. The engine's physics
  step then puts the body where collisions allow. That landing point is an input
  (`Landed`). The unobstructed case is `Unobstructed`.
- A missing engine reference is a nullable field (`GameObject?`) or, in a value
  view, `None`.

In several places the code behaves differently from what its own comments,
tooltips or names suggest. The model follows the code:
- The host is in the connected-clients table. The comment at
  `PlayerManager.cs:88` says it is not, but the reset loop needs the host there
  for its id-0 branch (`PlayerManager.cs:228-231`).
- The reset never re-arms a camera button that has fired. The comment at
  `PlayerManager.cs:255` says the reset activates every object tagged
  "Camera_Mover" and resets its button. But the lookup at line 256 returns only
  active objects, and a button deactivates its own object when it fires
  (`NextScreenButton.cs:75`). So the buttons it re-arms are ones whose latch is
  already clear, and `SetActive(true)` changes nothing (`ResetApplied`,
  `ResetCameraMovers`).
- No spawn checks for an existing player object. Each accepted connect or spawn
  request adds one more object for that client, and the previous one stays
  spawned (`EachAcceptedSpawnAddsAnObject`). So "one entity per session" is not
  an invariant of the code.
- The server commits the unobstructed sum. It does not read back where physics
  put the body (`CommitIgnoresCollisions`), although the comments at
  `PlayerMovement.cs:53-56` speak of physics and collisions.
- Two intents handled before one physics step do not add up: the second commit
  overwrites the first. From the guest spawn point, two (1,0,0) intents in one
  tick end at x = -6.5. In two ticks they end at x = -5.5
  (`TwoStepsRightFromGuestSpawn`).
- `OnStateChanged` compares the current `Position` with `previous`. Nothing ever
  subscribes it: `PlayerManager.cs:158` only unsubscribes it. It is modelled as
  a plain method.
- `BlueWaterTrigger` reacts to `Red_Player`. The comment at line 26 says
  `Blue_Player`. `RedWaterTrigger` reacts to `Blue_Player`.

## Model

| member | source | states |
|---|---|---|
| `NextScreenButtonScript.Enter` | Assets/Scripts/NextScreenButton.cs:39-56 | Other tags change nothing. A player entry adds one to the counter. It fires (latch set, button inactive, camera raised) exactly when the latch was clear and the count reaches 2. Otherwise latch, active flag and camera are kept. |
| `NextScreenButtonScript.Exit` | Assets/Scripts/NextScreenButton.cs:58-64 | A player exit takes one off the counter, with no lower bound. Other tags change nothing. Latch, active flag and camera never change. |
| `NextScreenButtonScript.Checked` | Assets/Scripts/NextScreenButton.cs:66-77 | The latch is set afterwards iff it was set or the count is at least 2. On firing the button is inactive and the camera is raised. Otherwise nothing changes. The counter is kept. |
| `NextScreenButtonScript.CameraRaised` | Assets/Scripts/NextScreenButton.cs:79-92 | Adds the move amount to the camera's y and keeps x and z. With no camera there is nothing to move. |
| `NextScreenButtonScript.Rearm` | Assets/Scripts/NextScreenButton.cs:94-97 | Clears the latch only. Counter, active flag and camera are kept. |
| `NextScreenButtonScript.FiresAtMostOncePerArming` | Assets/Scripts/NextScreenButton.cs:66-97 | Over any event sequence, firings are at most the number of re-arms, plus one if the latch starts clear. A latch set at the end was set at the start or by a firing. |
| `NextScreenButtonScript.CameraMovesOnlyWhenFiring` | Assets/Scripts/NextScreenButton.cs:69-85 | Over any event sequence the camera is raised once per firing and at no other time. |
| `NextScreenButtonScript.CounterIsEntriesMinusExits` | Assets/Scripts/NextScreenButton.cs:49-63 | The counter is its start value plus player entries minus player exits. It can go negative. |
| `NextScreenButtonScript.LatchedButtonNeverMovesCamera` | Assets/Scripts/NextScreenButton.cs:69-72 | While latched and not re-armed, no sequence of events moves the camera. |
| `NextScreenButtonScript.NextScreenButton.constructor` | Assets/Scripts/NextScreenButton.cs:5-15 | A new button has counter 0 and a clear latch. |
| `NextScreenButtonScript.NextScreenButton.OnTriggerEnter2D` | Assets/Scripts/NextScreenButton.cs:39-56 | The handler moves the button's state as `Enter` says. It leaves the other fields of the camera and of its own object alone. |
| `NextScreenButtonScript.NextScreenButton.OnTriggerExit2D` | Assets/Scripts/NextScreenButton.cs:58-64 | The handler moves the state as `Exit` says. |
| `NextScreenButtonScript.NextScreenButton.CheckTrigger` | Assets/Scripts/NextScreenButton.cs:66-77 | The handler moves the state as `Checked` says. |
| `NextScreenButtonScript.NextScreenButton.MoveCameraUp` | Assets/Scripts/NextScreenButton.cs:79-92 | An assigned camera is raised by the move amount. Its active flag is kept. |
| `NextScreenButtonScript.NextScreenButton.ResetTrigger` | Assets/Scripts/NextScreenButton.cs:94-97 | The handler moves the state as `Rearm` says. |
| `VictoryScript.Enter` | Assets/Scripts/Victory.cs:30-37 | Other tags change nothing. A player entry adds one to the counter. It fires (latch set, panel activated) exactly when the latch was clear and the count reaches 2. Otherwise latch and panel are kept. |
| `VictoryScript.Exit` | Assets/Scripts/Victory.cs:39-45 | A player exit takes one off the counter, with no check and no lower bound. Latch and panel are kept. |
| `VictoryScript.Checked` | Assets/Scripts/Victory.cs:47-55 | The latch is set iff it was set or the count is at least 2. Firing activates the panel when there is one. |
| `VictoryScript.PanelActivated` | Assets/Scripts/Victory.cs:57-71 | An assigned panel becomes active. An unassigned one stays unassigned. |
| `VictoryScript.VictoryAtMostOnce` | Assets/Scripts/Victory.cs:12-55 | Over any event sequence victory fires at most once, and never once latched. The latch is never cleared. It ends set iff it started set or victory fired. |
| `VictoryScript.PanelOnlyByFiring` | Assets/Scripts/Victory.cs:50-70 | The panel ends as it started unless victory fired, and then it is activated. With no panel, firing is used up and nothing is shown. |
| `VictoryScript.TooFewEntriesNeverFire` | Assets/Scripts/Victory.cs:32-35 | If the start count plus the player entries is below 2, victory never fires. |
| `VictoryScript.RepeatedEntryOfOnePlayerWins` | Assets/Scripts/Victory.cs:32-35 | The same player entering twice without leaving is counted twice and wins. |
| `VictoryScript.Victory.constructor` | Assets/Scripts/Victory.cs:5-12 | A new trigger has counter 0 and a clear latch. |
| `VictoryScript.Victory.OnTriggerEnter2D` | Assets/Scripts/Victory.cs:30-37 | The handler moves the state as `Enter` says. The panel's position is kept. |
| `VictoryScript.Victory.OnTriggerExit2D` | Assets/Scripts/Victory.cs:39-45 | The handler moves the state as `Exit` says. |
| `VictoryScript.Victory.CheckVictory` | Assets/Scripts/Victory.cs:47-55 | The handler moves the state as `Checked` says. |
| `VictoryScript.Victory.ActivateVictoryPanel` | Assets/Scripts/Victory.cs:57-71 | An assigned panel is active afterwards. |
| `GateTriggerScript.Enter` | Assets/Scripts/GateTrigger.cs:44-51 | A player entry adds one to the counter. Other tags change nothing. The velocity is never touched. |
| `GateTriggerScript.Stay` | Assets/Scripts/GateTrigger.cs:53-59 | A staying player sets the vertical velocity to +speed when there is a body. The horizontal velocity and the counter are kept. |
| `GateTriggerScript.Exit` | Assets/Scripts/GateTrigger.cs:62-74 | A player exit takes one off the counter. At 0 or below, with a body, the vertical velocity becomes -speed and the horizontal one is kept. Above 0 the velocity is unchanged. |
| `GateTriggerScript.CounterIsEntriesMinusExits` | Assets/Scripts/GateTrigger.cs:46-66 | The counter is its start value plus player entries minus player exits, unclamped. |
| `GateTriggerScript.VelocityStaysVertical` | Assets/Scripts/GateTrigger.cs:29-72 | Over any sequence, a missing body stays missing. With a body, the horizontal velocity is kept and the vertical one is its start value, +speed or -speed. |
| `GateTriggerScript.ExitsBelowZeroDriveGateDownAgain` | Assets/Scripts/GateTrigger.cs:64-72 | A second exit below zero drives the gate down again, even after a stay sent it up. |
| `GateTriggerScript.GateTrigger.constructor` | Assets/Scripts/GateTrigger.cs:10-14 | A new trigger has counter 0. |
| `GateTriggerScript.GateTrigger.OnTriggerEnter2D` | Assets/Scripts/GateTrigger.cs:44-51 | The handler moves the state as `Enter` says. |
| `GateTriggerScript.GateTrigger.OnTriggerStay2D` | Assets/Scripts/GateTrigger.cs:53-59 | The handler moves the state as `Stay` says. It only writes the body's velocity. |
| `GateTriggerScript.GateTrigger.OnTriggerExit2D` | Assets/Scripts/GateTrigger.cs:62-74 | The handler moves the state as `Exit` says. It only writes the body's velocity. |
| `PositionMonitorScript.Tick` | Assets/Scripts/PositionMonitor.cs:22-37 | Below the threshold: y is raised by the raise amount, x is kept, z becomes 0, and a body's velocity becomes zero. At or above the threshold: nothing changes. A body is never added or lost. |
| `PositionMonitorScript.StableAtOrAboveThreshold` | Assets/Scripts/PositionMonitor.cs:25 | From at or above the threshold, any number of ticks changes nothing. |
| `PositionMonitorScript.AtMostOneRaisePerTick` | Assets/Scripts/PositionMonitor.cs:25-29 | With a non-negative raise, n ticks keep x and never lower y. They lift y by at most n raises. |
| `PositionMonitorScript.OneTickMayStayBelowThreshold` | Assets/Scripts/PositionMonitor.cs:25-29 | One raise can leave the object still below the threshold. |
| `PositionMonitorScript.PositionMonitor.FixedUpdate` | Assets/Scripts/PositionMonitor.cs:22-37 | The handler moves the state as `Tick` says. The active flag and the body's position are kept. |
| `WaterTriggerScripts.PanelAfterEnter` | Assets/Scripts/BlueWaterTrigger.cs:24-42 | The panel ends active iff it was active, or it is assigned and the entering tag is the one the hazard reacts to. An unassigned panel stays unassigned. Any other tag leaves the panel unchanged. |
| `WaterTriggerScripts.PanelActiveIffVictimEntered` | Assets/Scripts/RedWaterTrigger.cs:24-41 | Over any event sequence, the panel ends active iff it started active, or it is assigned and the reacting tag entered at some point. Nothing turns it off. |
| `WaterTriggerScripts.EntryIsIdempotent` | Assets/Scripts/BlueWaterTrigger.cs:35 | A repeated identical entry changes nothing more. |
| `WaterTriggerScripts.HazardsIgnoreTheirOwnColour` | Assets/Scripts/BlueWaterTrigger.cs:27 | Blue water ignores `Blue_Player`, and red water ignores `Red_Player`. |
| `WaterTriggerScripts.BlueWaterTrigger.OnTriggerEnter2D` | Assets/Scripts/BlueWaterTrigger.cs:24-42 | The handler switches the panel as `PanelAfterEnter` says, reacting to `Red_Player`. |
| `WaterTriggerScripts.RedWaterTrigger.OnTriggerEnter2D` | Assets/Scripts/RedWaterTrigger.cs:24-41 | The handler switches the panel as `PanelAfterEnter` says, reacting to `Blue_Player`. |
| `HorizontalMovementScript.GateAfterEnter` | Assets/Scripts/horizontal_movement.cs:34-40 | Any entry, whatever its tag, leaves the gate inactive. |
| `HorizontalMovementScript.GateNeverReactivates` | Assets/Scripts/horizontal_movement.cs:34-40 | Over any sequence, the gate stays active iff it was active and nothing entered. |
| `HorizontalMovementScript.HorizontalMovement.OnTriggerEnter2D` | Assets/Scripts/horizontal_movement.cs:34-40 | The handler deactivates the gate and keeps its position. The gate reference must be set. |
| `PlayerMovementScript.Displacement` | Assets/Scripts/PlayerMovement.cs:38-40 | The displacement has z = 0. With both axes at 0 it is zero. |
| `PlayerMovementScript.Request` | Assets/Scripts/PlayerMovement.cs:34-46 | A request is sent iff the caller is the owner and the displacement is non-zero, and it carries that displacement. |
| `PlayerMovementScript.Mirrored` | Assets/Scripts/PlayerMovement.cs:31 | The transform becomes the replicated `Position`. Everything else is kept. |
| `PlayerMovementScript.Committed` | Assets/Scripts/PlayerMovement.cs:50-61 | `Position` is the body position plus the displacement in x and y. Its z is the transform's. The same point is the requested move. Transform and body are unchanged. |
| `PlayerMovementScript.CommitIgnoresZ` | Assets/Scripts/PlayerMovement.cs:54 | The displacement's z has no effect. |
| `PlayerMovementScript.CommitIgnoresCollisions` | Assets/Scripts/PlayerMovement.cs:54-60 | Wherever physics lands the body, the next mirror copy shows the unobstructed sum. |
| `PlayerMovementScript.UnobstructedIntentsAccumulate` | Assets/Scripts/PlayerMovement.cs:50-61 | With one intent per tick and no obstruction, the body ends at its start plus the sum of the displacements. `Position` agrees with it and keeps its z. |
| `PlayerMovementScript.SameTickIntentsOverwrite` | Assets/Scripts/PlayerMovement.cs:54-60 | Two commits before one physics step equal the second commit alone. |
| `PlayerMovementScript.TwoStepsRightFromGuestSpawn` | Assets/Scripts/PlayerMovement.cs:54-60 | Two (1,0,0) intents from the guest spawn end at x = -6.5 in one tick and at x = -5.5 in two. |
| `PlayerMovementScript.PlayerMovement.constructor` | Assets/Scripts/PlayerMovement.cs:9-12 | The replicated value starts at zero. |
| `PlayerMovementScript.PlayerMovement.Start` | Assets/Scripts/PlayerMovement.cs:19-26 | Only the server initialises `Position`, from its transform. |
| `PlayerMovementScript.PlayerMovement.FixedUpdate` | Assets/Scripts/PlayerMovement.cs:28-47 | Every participant mirrors `Position` into its transform. The request returned is the one `Request` gives. Only the owner sends, and only a non-zero displacement. |
| `PlayerMovementScript.PlayerMovement.SubmitMovementServerRpc` | Assets/Scripts/PlayerMovement.cs:49-62 | On the server, the state moves as `Committed` says. The body's velocity is kept. |
| `SessionDirectory.SpawnedAsPlayer` | Assets/Scripts/PlayerManager.cs:124 | A spawn as a player object keeps the table's invariant. |
| `SessionDirectory.SpawnHost` | Assets/Scripts/PlayerManager.cs:105-126 | If prefab A is assigned with a NetworkObject, the id gets exactly one new prefab-A object at (-7.5,-2,0), and no other client's link changes. Otherwise nothing is spawned. |
| `SessionDirectory.SpawnGuest` | Assets/Scripts/PlayerManager.cs:128-152 | If both prefabs are assigned and B has a NetworkObject, the id gets exactly one new prefab-B object at (-7.5,-4,0). Otherwise nothing is spawned. |
| `SessionDirectory.AcceptGuestSpawn` | Assets/Scripts/PlayerManager.cs:62-102 | The host id and ids missing from the table leave everything unchanged. Any other id gets a guest spawn. |
| `SessionDirectory.EachAcceptedSpawnAddsAnObject` | Assets/Scripts/PlayerManager.cs:128-152 | Each accepted spawn adds one more object owned by the client. Its previous player object is still spawned. |
| `SessionDirectory.ConnectThenRequestSpawnsTwice` | Assets/Scripts/PlayerManager.cs:62-102 | A new guest that is admitted, spawned by the connect callback and then sent a spawn request for its own id owns two more objects. The first object is still spawned. |
| `SessionDirectory.Despawned` | Assets/Scripts/PlayerManager.cs:226 | Despawning a client's player object keeps the table's invariant. |
| `SessionDirectory.ResetClient` | Assets/Scripts/PlayerManager.cs:223-240 | A client with a player object loses it. It has a new one at its role's spawn point iff its respawn passes the prefab checks. A client without one still has none. Other clients are untouched. Only fresh object ids are added. |
| `SessionDirectory.ResetEach` | Assets/Scripts/PlayerManager.cs:221-241 | The loop keeps the invariant and the client list, and only adds fresh object ids. |
| `SessionDirectory.ResetEachOutcome` | Assets/Scripts/PlayerManager.cs:221-241 | Every listed client ends as `ResetClient` says, whatever failed for earlier clients. Unlisted clients are untouched. |
| `SessionDirectory.Reset` | Assets/Scripts/PlayerManager.cs:221-241 | The reset keeps the invariant and the client table. |
| `SessionDirectory.ResetPlacesEachRole` | Assets/Scripts/PlayerManager.cs:221-241 | After a reset, exactly the clients that had a player object and pass their prefab check have one. The host's is prefab A at (-7.5,-2,0), a guest's prefab B at (-7.5,-4,0). |
| `SessionDirectory.PositionsOfRespawned` | Assets/Scripts/PlayerManager.cs:221-241 | A table whose survivors all sit at their spawn points has exactly the respawn positions. |
| `SessionDirectory.ResetPositions` | Assets/Scripts/PlayerManager.cs:221-241 | After a reset the player positions are exactly the respawn positions. |
| `SessionDirectory.ResetTwiceSamePositions` | Assets/Scripts/PlayerManager.cs:218-241 | Two resets in a row give the same player positions as one. |
| `PlayerManagerScript.NetworkManager.SpawnAsPlayerObject` | Assets/Scripts/PlayerManager.cs:151 | The table changes as `SpawnedAsPlayer` says. |
| `PlayerManagerScript.NetworkManager.Despawn` | Assets/Scripts/PlayerManager.cs:226 | The table changes as `Despawned` says. |
| `PlayerManagerScript.PlayerManager.constructor` | Assets/Scripts/PlayerManager.cs:9-15 | `Position` starts at the zero vector. The prefabs and the camera are kept as assigned. |
| `PlayerManagerScript.PlayerManager.HandleServerStarted` | Assets/Scripts/PlayerManager.cs:51-57 | The host's own player is spawned as `SpawnHost` says. |
| `PlayerManagerScript.PlayerManager.OnClientConnected` | Assets/Scripts/PlayerManager.cs:62-79 | The table changes as `AcceptGuestSpawn` says. |
| `PlayerManagerScript.PlayerManager.RequestSpawnServerRpc` | Assets/Scripts/PlayerManager.cs:83-102 | The table changes as `AcceptGuestSpawn` says, the same rule as a connection. |
| `PlayerManagerScript.PlayerManager.SpawnHostPlayer` | Assets/Scripts/PlayerManager.cs:105-126 | The table changes as `SpawnHost` says. |
| `PlayerManagerScript.PlayerManager.SpawnClientPlayer` | Assets/Scripts/PlayerManager.cs:128-152 | The table changes as `SpawnGuest` says. |
| `PlayerManagerScript.PlayerManager.OnStateChanged` | Assets/Scripts/PlayerManager.cs:165-171 | The transform becomes `Position` only when `Position` differs from `previous`. `Position` is kept. |
| `PlayerManagerScript.PlayerManager.Move` | Assets/Scripts/PlayerManager.cs:173-177 | A request is sent iff the caller is the owner, and it carries the caller's transform position. |
| `PlayerManagerScript.PlayerManager.SubmitPositionRequestServerRpc` | Assets/Scripts/PlayerManager.cs:179-184 | Both the transform and `Position` become exactly the submitted value. |
| `PlayerManagerScript.PlayerManager.ResetPlayers` | Assets/Scripts/PlayerManager.cs:192-206 | On the server it leaves `ResetApplied`. On a client it only forwards the request and changes nothing. |
| `PlayerManagerScript.PlayerManager.ResetPlayersServerRpc` | Assets/Scripts/PlayerManager.cs:208-212 | The forwarded request leaves the same `ResetApplied` outcome as a reset started on the server. |
| `PlayerManagerScript.PlayerManager.DoResetPlayers` | Assets/Scripts/PlayerManager.cs:218-267 | With `movers` being all objects tagged "Camera_Mover", the state ends as `ResetApplied` says. The player table is as `Reset` says. An assigned camera is at (0,0,-10) and keeps its active flag. No mover's active flag changes, and no mover other than the camera moves. A button on an active mover is re-armed. A fired button, whose object is inactive, stays latched. No counter changes. |
| `PlayerManagerScript.PlayerManager.RespawnPlayers` | Assets/Scripts/PlayerManager.cs:221-241 | The loop, in list order, leaves the table that `Reset` gives. |
| `PlayerManagerScript.PlayerManager.ResetScene` | Assets/Scripts/PlayerManager.cs:243-265 | The camera goes home and keeps its active flag. Then, over all tagged objects, the movers are reset as `ResetCameraMovers` says, and only the camera moves. |
| `PlayerManagerScript.PlayerManager.ResetCamera` | Assets/Scripts/PlayerManager.cs:243-251 | An assigned camera is at (0,0,-10) and keeps its active flag. |
| `PlayerManagerScript.FindCameraMovers` | Assets/Scripts/PlayerManager.cs:256 | It returns exactly the active tagged objects: every result is a tagged object and active, and every active tagged object is in the result. |
| `PlayerManagerScript.PlayerManager.ResetCameraMovers` | Assets/Scripts/PlayerManager.cs:255-265 | Over all tagged objects: no active flag or position changes. A button on an active mover is re-armed. A button on an inactive mover keeps its latch. Counters are kept. |
| `PlayerManagerScript.PlayerManager.ReactivateCameraMovers` | Assets/Scripts/PlayerManager.cs:257-265 | Every mover found is active, and the button on it is re-armed with its counter kept. Mover positions are kept. |

## Left out

- Netcode transport is not modelled. This covers RPC delivery, the
  `OnNetworkSpawn`/`OnNetworkDespawn` subscriptions (`PlayerManager.cs:33-49`,
  `156-163`) and `NetworkVariable` replication. An RPC is a returned payload plus
  a handler on the server's copy. The connection handshake is
  `NetworkManager.AcceptConnection`, which adds the client to the table as
  `Connected` says.
- The id in a client's spawn request (`PlayerManager.cs:47`) is the manager's
  `OwnerClientId`. For a server-owned manager that is 0, and the request is
  ignored. The model takes the id as a parameter.
- Disconnects: the scripts have no disconnect handler, and Netcode's own cleanup
  of a leaving client is not modelled.
- Spawning a prefab that has no NetworkObject leaves an unnetworked copy in the
  scene. The model records no player object and does not track that copy.
- Physics is not modelled: how collisions stop `MovePosition`, how gate velocity
  becomes motion, and whether setting a transform moves its rigid body. The
  landing point is an input.
- Input and timing: the input axes and `Time.deltaTime` are inputs to
  `FixedUpdate`.
- Audio (`PlayOneShot`), logging, `GetComponent`/`AddComponent` and
  `Camera.main` are not modelled. The camera a button moves, and the bodies
  scripts use, are constructor arguments. The objects tagged "Camera_Mover"
  are the `movers` argument. The tag lookup over them is `FindCameraMovers`,
  and a button is found by `GetComponent` only on its own mover object.
- Floating point: numbers are reals. Unity's vector `==` and `!=` are
  approximate (differences below about 1e-5 count as equal). The model uses
  exact equality in `Request`, `FixedUpdate` and `OnStateChanged`.
- Inactive objects: the model delivers every event to a script, active or not.
  Whether the engine delivers trigger events to a deactivated button is engine
  behaviour.
- GateTriggerScript.GateTrigger.OnTriggerEnter2D: with no gate assigned, `Start`
  returns before fetching the audio source. The entry then fails after counting.
  The model keeps the count and does not model the failure.
- HorizontalMovementScript.HorizontalMovement.OnTriggerEnter2D: with no gate
  assigned, entry behaviour is undefined, so a gate is required.
- PlayerMovementScript.PlayerMovement.SubmitMovementServerRpc: the rigid body is
  required to exist; without one the source would fail.
- Assets/Scripts/NetworkTransformTest.cs is not part of this model. It drives a
  position with floating-point trigonometry of the clock.
