/**
 * The small slice of the game engine that the scripts read and write:
 * vector values, collider tags, trigger callbacks, scene objects and 2D rigid bodies.
 * Positions and speeds are real numbers; floating-point rounding is not modelled.
 */
module Unity {
  import opened Wrappers

  datatype Vector2 = Vector2(x: real, y: real)

  datatype Vector3 = Vector3(x: real, y: real, z: real)

  const Vector2Zero := Vector2(0.0, 0.0)
  const Vector3Zero := Vector3(0.0, 0.0, 0.0)

  /** Component-wise sum, as Unity's `+` on vectors. */
  function Add3(a: Vector3, b: Vector3): Vector3 {
    Vector3(a.x + b.x, a.y + b.y, a.z + b.z)
  }

  /** Unity's implicit conversion of a `Vector2` to a `Vector3`: z becomes 0. */
  function ToVector3(v: Vector2): Vector3 {
    Vector3(v.x, v.y, 0.0)
  }

  /** A collider is identified here by its tag only. */
  type Tag = string

  const RedPlayer: Tag := "Red_Player"
  const BluePlayer: Tag := "Blue_Player"

  /** The filter most trigger scripts apply: either player's tag. */
  predicate IsPlayerTag(tag: Tag) {
    tag == RedPlayer || tag == BluePlayer
  }

  /** The three 2D trigger callbacks the engine can deliver to a script. */
  datatype Trigger2D = Enter2D(tag: Tag) | Stay2D(tag: Tag) | Exit2D(tag: Tag)

  /** A scene object: its active flag and its transform position. */
  class GameObject {
    var active: bool
    var position: Vector3

    constructor (active: bool, position: Vector3)
      ensures this.active == active && this.position == position
    {
      this.active := active;
      this.position := position;
    }

    method SetActive(value: bool)
      modifies this
      ensures active == value && position == old(position)
    {
      active := value;
    }
  }

  /**
   * A 2D rigid body. `MovePosition` only requests a move: the body reaches the
   * requested point (or wherever collisions stop it) at the next physics step,
   * which is the engine's business and is not modelled here.
   */
  class Rigidbody2D {
    var position: Vector2
    var linearVelocity: Vector2
    var pendingMove: Option<Vector2>

    constructor (position: Vector2)
      ensures this.position == position && linearVelocity == Vector2Zero && pendingMove == None
    {
      this.position := position;
      linearVelocity := Vector2Zero;
      pendingMove := None;
    }

    method MovePosition(target: Vector2)
      modifies this
      ensures pendingMove == Some(target)
      ensures position == old(position) && linearVelocity == old(linearVelocity)
    {
      pendingMove := Some(target);
    }
  }
}
