/**
 * The fall guard (Assets/Scripts/PositionMonitor.cs): each physics tick, an
 * object below a height threshold is lifted by a fixed amount and its body's
 * velocity is zeroed.
 */
module PositionMonitorScript {
  import opened Wrappers
  import opened Unity

  /** Value view: the transform position and the body's velocity (None when there is no body). */
  datatype MonitorState = MonitorState(position: Vector3, velocity: Option<Vector2>)

  /** One `FixedUpdate`. */
  function Tick(s: MonitorState, yThreshold: real, raiseAmount: real): (r: MonitorState)
    ensures s.position.y >= yThreshold ==> r == s
    ensures s.position.y < yThreshold ==>
      r.position.x == s.position.x && r.position.y == s.position.y + raiseAmount && r.position.z == 0.0
    ensures r.velocity.None? <==> s.velocity.None?
    ensures s.position.y < yThreshold && r.velocity.Some? ==> r.velocity.value == Vector2Zero
  {
    if s.position.y < yThreshold then
      // the new position is a Vector2, so the assignment drops z
      var newPos := Vector2(s.position.x, s.position.y + raiseAmount);
      MonitorState(ToVector3(newPos), if s.velocity.Some? then Some(Vector2Zero) else None)
    else
      s
  }

  /** The state after `n` ticks with nothing else moving the object. */
  function Ticks(s: MonitorState, n: nat, yThreshold: real, raiseAmount: real): MonitorState {
    if n == 0 then s else Tick(Ticks(s, n - 1, yThreshold, raiseAmount), yThreshold, raiseAmount)
  }

  /** `y` lifted `n` times by `amount`. */
  function LiftedBy(y: real, amount: real, n: nat): real {
    if n == 0 then y else LiftedBy(y, amount, n - 1) + amount
  }

  /** Once at or above the threshold, further ticks change nothing. */
  lemma {:induction false} StableAtOrAboveThreshold(s: MonitorState, n: nat, yThreshold: real, raiseAmount: real)
    requires s.position.y >= yThreshold
    ensures Ticks(s, n, yThreshold, raiseAmount) == s
  {
    if n > 0 {
      StableAtOrAboveThreshold(s, n - 1, yThreshold, raiseAmount);
    }
  }

  /** Ticks keep x, and lift y by at most one `raiseAmount` each, never lowering it. */
  lemma {:induction false} AtMostOneRaisePerTick(s: MonitorState, n: nat, yThreshold: real, raiseAmount: real)
    requires raiseAmount >= 0.0
    ensures Ticks(s, n, yThreshold, raiseAmount).position.x == s.position.x
    ensures s.position.y <= Ticks(s, n, yThreshold, raiseAmount).position.y <= LiftedBy(s.position.y, raiseAmount, n)
  {
    if n > 0 {
      AtMostOneRaisePerTick(s, n - 1, yThreshold, raiseAmount);
      assert LiftedBy(s.position.y, raiseAmount, n - 1) <= LiftedBy(s.position.y, raiseAmount, n);
    }
  }

  /** A tick below the threshold can leave the object still below it. */
  lemma OneTickMayStayBelowThreshold()
    ensures Tick(MonitorState(Vector3(0.0, -5.0, 0.0), None), 0.0, 1.0).position.y < 0.0
  {
  }

  class PositionMonitor {
    const yThreshold: real
    const raiseAmount: real
    /** The object this script is attached to (its transform). */
    const gameObject: GameObject
    /** The body `Start` found; null when there is none. */
    const rb: Rigidbody2D?

    function State(): MonitorState
      reads gameObject, rb
    {
      MonitorState(gameObject.position, if rb == null then None else Some(rb.linearVelocity))
    }

    constructor (yThreshold: real, raiseAmount: real, gameObject: GameObject, rb: Rigidbody2D?)
      ensures this.yThreshold == yThreshold && this.raiseAmount == raiseAmount
      ensures this.gameObject == gameObject && this.rb == rb
    {
      this.yThreshold := yThreshold;
      this.raiseAmount := raiseAmount;
      this.gameObject := gameObject;
      this.rb := rb;
    }

    method FixedUpdate()
      modifies gameObject, rb
      ensures State() == Tick(old(State()), yThreshold, raiseAmount)
      ensures gameObject.active == old(gameObject.active)
      ensures rb != null ==> rb.position == old(rb.position) && rb.pendingMove == old(rb.pendingMove)
    {
      if gameObject.position.y < yThreshold {
        var newPos := Vector2(gameObject.position.x, gameObject.position.y + raiseAmount);
        gameObject.position := ToVector3(newPos);
        if rb != null {
          rb.linearVelocity := Vector2Zero;
        }
      }
    }
  }
}
