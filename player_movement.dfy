/**
 * Server-authoritative movement (Assets/Scripts/PlayerMovement.cs). Every
 * participant mirrors the replicated `Position` into its transform each physics
 * tick; only the owner turns input into a displacement and sends it; the server
 * commits the body position plus the displacement. Input sampling enters as the
 * two axis values, the RPC as its payload.
 */
module PlayerMovementScript {
  import opened Wrappers
  import opened Unity

  /**
   * Value view of one participant's copy of a player: its transform, its copy of
   * the replicated `Position`, and its body (position and the move requested
   * for the next physics step).
   */
  datatype MovementState = MovementState(
    transform: Vector3,
    position: Vector3,
    body: Vector2,
    pendingMove: Option<Vector2>)

  /** The displacement `FixedUpdate` computes from the two input axes. */
  function Displacement(moveX: real, moveY: real, moveSpeed: real, deltaTime: real): (r: Vector3)
    ensures r.z == 0.0
    ensures moveX == 0.0 && moveY == 0.0 ==> r == Vector3Zero
  {
    Vector3(moveX * moveSpeed * deltaTime, moveY * moveSpeed * deltaTime, 0.0)
  }

  /** What `FixedUpdate` sends to the server, if anything. */
  function Request(isOwner: bool, movement: Vector3): (r: Option<Vector3>)
    ensures r.Some? <==> isOwner && movement != Vector3Zero
    ensures r.Some? ==> r.value == movement
  {
    if isOwner && movement != Vector3Zero then Some(movement) else None
  }

  /** The state after the mirror copy at the start of `FixedUpdate`. */
  function Mirrored(s: MovementState): (r: MovementState)
    ensures r.transform == s.position
    ensures r.position == s.position && r.body == s.body && r.pendingMove == s.pendingMove
  {
    s.(transform := s.position)
  }

  /**
   * `SubmitMovementServerRpc` on the server: the unobstructed sum of the body's
   * position and the displacement becomes both the requested move and the new
   * `Position`, whose z is the transform's; the displacement's z is ignored.
   */
  function Committed(s: MovementState, movement: Vector3): (r: MovementState)
    ensures r.position.x - s.body.x == movement.x && r.position.y - s.body.y == movement.y
    ensures r.position.z == s.transform.z
    ensures r.pendingMove == Some(Vector2(r.position.x, r.position.y))
    ensures r.transform == s.transform && r.body == s.body
  {
    var newPos := Vector2(s.body.x + movement.x, s.body.y + movement.y);
    s.(position := Vector3(newPos.x, newPos.y, s.transform.z), pendingMove := Some(newPos))
  }

  /** The displacement's z component has no effect on the commit. */
  lemma CommitIgnoresZ(s: MovementState, movement: Vector3, z: real)
    ensures Committed(s, movement.(z := z)) == Committed(s, movement)
  {
  }

  /** The engine's physics step: the body lands at `landed`, wherever collisions put it. */
  function Landed(s: MovementState, landed: Vector2): MovementState {
    s.(body := landed, pendingMove := None)
  }

  /** The physics step on an unobstructed body: it lands where it was asked to go. */
  function Unobstructed(s: MovementState): MovementState {
    match s.pendingMove
    case None => s
    case Some(target) => Landed(s, target)
  }

  /**
   * `Position` is the sum computed before the move, not read back from physics:
   * if a collision stops the body elsewhere, the next mirror copy still shows
   * the unobstructed sum.
   */
  lemma CommitIgnoresCollisions(s: MovementState, movement: Vector3, landed: Vector2)
    ensures var r := Mirrored(Landed(Committed(s, movement), landed));
      r.transform == Vector3(s.body.x + movement.x, s.body.y + movement.y, s.transform.z) &&
      r.body == landed
  {
  }

  /** One server tick with one intent: mirror, commit, then the physics step. */
  function ServerTick(s: MovementState, movement: Vector3): MovementState {
    Unobstructed(Committed(Mirrored(s), movement))
  }

  function ServerTicks(s: MovementState, intents: seq<Vector3>): MovementState
    decreases |intents|
  {
    if intents == [] then s else ServerTicks(ServerTick(s, intents[0]), intents[1..])
  }

  /** Sum of the planar parts of the displacements. */
  function PlanarSum(intents: seq<Vector3>): Vector2
    decreases |intents|
  {
    if intents == [] then Vector2Zero
    else
      var rest := PlanarSum(intents[1..]);
      Vector2(intents[0].x + rest.x, intents[0].y + rest.y)
  }

  /**
   * With one intent per tick and nothing in the way, the body ends at its start
   * plus the sum of the displacements, and `Position` agrees with it in x and y
   * while keeping the replicated z.
   */
  lemma {:induction false} UnobstructedIntentsAccumulate(s: MovementState, intents: seq<Vector3>)
    requires s.pendingMove == None
    requires |intents| > 0
    ensures var r := ServerTicks(s, intents);
      var sum := PlanarSum(intents);
      r.body == Vector2(s.body.x + sum.x, s.body.y + sum.y) &&
      r.position == Vector3(r.body.x, r.body.y, s.position.z) &&
      r.pendingMove == None
    decreases |intents|
  {
    var s1 := ServerTick(s, intents[0]);
    assert s1.position == Vector3(s1.body.x, s1.body.y, s.position.z);
    if |intents| > 1 {
      UnobstructedIntentsAccumulate(s1, intents[1..]);
    }
  }

  /**
   * Two intents handled before one physics step do not add up: the body has not
   * moved yet, so the second commit overwrites the first.
   */
  lemma SameTickIntentsOverwrite(s: MovementState, d1: Vector3, d2: Vector3)
    ensures Committed(Committed(s, d1), d2) == Committed(s, d2)
  {
  }

  /**
   * A guest at its spawn point sending (1,0,0) twice: in one tick it ends at
   * x = -6.5; over two unobstructed ticks at x = -5.5.
   */
  lemma TwoStepsRightFromGuestSpawn()
    ensures var s := MovementState(Vector3(-7.5, -4.0, 0.0), Vector3(-7.5, -4.0, 0.0), Vector2(-7.5, -4.0), None);
      var d := Vector3(1.0, 0.0, 0.0);
      Committed(Committed(Mirrored(s), d), d).position.x == -6.5 &&
      ServerTicks(s, [d, d]).position.x == -5.5
  {
    var s := MovementState(Vector3(-7.5, -4.0, 0.0), Vector3(-7.5, -4.0, 0.0), Vector2(-7.5, -4.0), None);
    var d := Vector3(1.0, 0.0, 0.0);
    var ds := [d, d];
    var s1 := ServerTick(s, d);
    var s2 := ServerTick(s1, d);
    assert ds[1..] == [d] && ds[1..][1..] == [];
    assert ServerTicks(s1, ds[1..]) == ServerTicks(s2, []);
    assert ServerTicks(s, ds) == ServerTicks(s1, ds[1..]);
  }

  /** The replicated `Position` and the mirror on one participant. */
  class PlayerMovement {
    const isServer: bool
    const isOwner: bool
    const moveSpeed: real
    /** The body `Awake` fetched. */
    const rb: Rigidbody2D
    var transform: Vector3
    /** This participant's copy of the replicated `Position`; only the server writes it. */
    var position: Vector3

    function State(): MovementState
      reads this, rb
    {
      MovementState(transform, position, rb.position, rb.pendingMove)
    }

    /** Before `Start` the replicated value holds its default, zero. */
    constructor (isServer: bool, isOwner: bool, moveSpeed: real, rb: Rigidbody2D, transform: Vector3)
      ensures this.isServer == isServer && this.isOwner == isOwner && this.moveSpeed == moveSpeed
      ensures this.rb == rb && this.transform == transform && position == Vector3Zero
    {
      this.isServer := isServer;
      this.isOwner := isOwner;
      this.moveSpeed := moveSpeed;
      this.rb := rb;
      this.transform := transform;
      position := Vector3Zero;
    }

    method Start()
      modifies this
      ensures position == (if isServer then old(transform) else old(position))
      ensures transform == old(transform)
    {
      if isServer {
        position := transform;
      }
    }

    /**
     * `FixedUpdate`: the mirror copy on every participant, then the owner's input.
     * The returned request is the RPC payload the owner sends, if any.
     */
    method FixedUpdate(moveX: real, moveY: real, deltaTime: real) returns (request: Option<Vector3>)
      modifies this
      ensures State() == Mirrored(old(State()))
      ensures request == Request(isOwner, Displacement(moveX, moveY, moveSpeed, deltaTime))
    {
      transform := position;
      request := None;
      if !isOwner {
        return;
      }
      var movement := Vector3(moveX * moveSpeed * deltaTime, moveY * moveSpeed * deltaTime, 0.0);
      if movement != Vector3Zero {
        request := Some(movement);
      }
    }

    /** The server's handler; Netcode runs it on the server's copy only. */
    method SubmitMovementServerRpc(movement: Vector3)
      requires isServer
      modifies this, rb
      ensures State() == Committed(old(State()), movement)
      ensures rb.linearVelocity == old(rb.linearVelocity)
    {
      var newPos := Vector2(rb.position.x + movement.x, rb.position.y + movement.y);
      rb.MovePosition(newPos);
      position := Vector3(newPos.x, newPos.y, transform.z);
    }
  }
}
