/**
 * The occupancy-driven gate (Assets/Scripts/GateTrigger.cs): a counter of
 * players in the trigger and the gate body's vertical velocity, set upwards
 * while a player stays and downwards when the last player leaves.
 */
module GateTriggerScript {
  import opened Wrappers
  import opened Unity

  /** Value view: the counter and the gate body's velocity (None when there is no body). */
  datatype GateState = GateState(playersInTrigger: int, gateVelocity: Option<Vector2>)

  /** `OnTriggerEnter2D`: count a player; the velocity is not touched. */
  function Enter(s: GateState, tag: Tag): (r: GateState)
    ensures !IsPlayerTag(tag) ==> r == s
    ensures IsPlayerTag(tag) ==> r.playersInTrigger == s.playersInTrigger + 1
    ensures r.gateVelocity == s.gateVelocity
  {
    if IsPlayerTag(tag) then s.(playersInTrigger := s.playersInTrigger + 1) else s
  }

  /** `OnTriggerStay2D`: a staying player drives the gate up, whatever the counter says. */
  function Stay(s: GateState, tag: Tag, speed: real): (r: GateState)
    ensures r.playersInTrigger == s.playersInTrigger
    ensures r.gateVelocity.None? <==> s.gateVelocity.None?
    ensures IsPlayerTag(tag) && s.gateVelocity.Some? ==>
      r.gateVelocity.value.x == s.gateVelocity.value.x && r.gateVelocity.value.y == speed
    ensures !IsPlayerTag(tag) ==> r == s
  {
    if IsPlayerTag(tag) && s.gateVelocity.Some? then
      s.(gateVelocity := Some(Vector2(s.gateVelocity.value.x, speed)))
    else
      s
  }

  /** `OnTriggerExit2D`: uncount a player; at zero or below the gate is driven down. */
  function Exit(s: GateState, tag: Tag, speed: real): (r: GateState)
    ensures !IsPlayerTag(tag) ==> r == s
    ensures IsPlayerTag(tag) ==> r.playersInTrigger == s.playersInTrigger - 1
    ensures r.gateVelocity.None? <==> s.gateVelocity.None?
    ensures IsPlayerTag(tag) && r.playersInTrigger <= 0 && s.gateVelocity.Some? ==>
      r.gateVelocity.value.x == s.gateVelocity.value.x && r.gateVelocity.value.y == -speed
    ensures r.playersInTrigger > 0 ==> r.gateVelocity == s.gateVelocity
  {
    if IsPlayerTag(tag) then
      var count := s.playersInTrigger - 1;
      if count <= 0 && s.gateVelocity.Some? then
        GateState(count, Some(Vector2(s.gateVelocity.value.x, -1.0 * speed)))
      else
        GateState(count, s.gateVelocity)
    else
      s
  }

  function Step(s: GateState, e: Trigger2D, speed: real): GateState {
    match e
    case Enter2D(tag) => Enter(s, tag)
    case Stay2D(tag) => Stay(s, tag, speed)
    case Exit2D(tag) => Exit(s, tag, speed)
  }

  function Run(s: GateState, events: seq<Trigger2D>, speed: real): GateState
    decreases |events|
  {
    if events == [] then s else Run(Step(s, events[0], speed), events[1..], speed)
  }

  function PlayerEntries(events: seq<Trigger2D>): nat {
    if events == [] then 0
    else (if events[0].Enter2D? && IsPlayerTag(events[0].tag) then 1 else 0) + PlayerEntries(events[1..])
  }

  function PlayerExits(events: seq<Trigger2D>): nat {
    if events == [] then 0
    else (if events[0].Exit2D? && IsPlayerTag(events[0].tag) then 1 else 0) + PlayerExits(events[1..])
  }

  /** The counter is not clamped: it is always the start value plus entries minus exits. */
  lemma {:induction false} CounterIsEntriesMinusExits(s: GateState, events: seq<Trigger2D>, speed: real)
    ensures Run(s, events, speed).playersInTrigger == s.playersInTrigger + PlayerEntries(events) - PlayerExits(events)
    decreases |events|
  {
    if events != [] {
      CounterIsEntriesMinusExits(Step(s, events[0], speed), events[1..], speed);
    }
  }

  /**
   * Over any sequence, a missing body stays missing and unmoved, the gate's
   * horizontal velocity is kept, and its vertical velocity is the start value,
   * `speed` or `-speed`.
   */
  lemma {:induction false} VelocityStaysVertical(s: GateState, events: seq<Trigger2D>, speed: real)
    ensures Run(s, events, speed).gateVelocity.None? <==> s.gateVelocity.None?
    ensures s.gateVelocity.Some? ==>
      var v := Run(s, events, speed).gateVelocity.value;
      v.x == s.gateVelocity.value.x &&
      (v.y == s.gateVelocity.value.y || v.y == speed || v.y == -speed)
    decreases |events|
  {
    if events != [] {
      var s' := Step(s, events[0], speed);
      VelocityStaysVertical(s', events[1..], speed);
    }
  }

  /**
   * The last player leaving drives the gate down; a stray second exit takes the
   * counter below zero and drives it down again, even after a stay drove it up.
   */
  lemma ExitsBelowZeroDriveGateDownAgain(v: Vector2, speed: real)
    ensures Run(GateState(1, Some(v)), [Exit2D(RedPlayer), Stay2D(RedPlayer), Exit2D(BluePlayer)], speed)
      == GateState(-1, Some(Vector2(v.x, -speed)))
  {
    var events := [Exit2D(RedPlayer), Stay2D(RedPlayer), Exit2D(BluePlayer)];
    var s0 := GateState(1, Some(v));
    var s1 := Step(s0, events[0], speed);
    var s2 := Step(s1, events[1], speed);
    var s3 := Step(s2, events[2], speed);
    assert s3 == GateState(-1, Some(Vector2(v.x, -speed)));
    assert events[1..][1..][1..] == [];
    assert Run(s0, events, speed) == Run(s1, events[1..], speed) == Run(s2, events[1..][1..], speed)
      == Run(s3, events[1..][1..][1..], speed);
  }

  class GateTrigger {
    const gateVerticalSpeed: real
    /** The gate's body as `Start` found it; null when there is no gate or it has no body. */
    const gateRb: Rigidbody2D?
    var playersInTrigger: int

    function State(): GateState
      reads this, gateRb
    {
      GateState(playersInTrigger, if gateRb == null then None else Some(gateRb.linearVelocity))
    }

    constructor (gateVerticalSpeed: real, gateRb: Rigidbody2D?)
      ensures this.gateVerticalSpeed == gateVerticalSpeed && this.gateRb == gateRb
      ensures playersInTrigger == 0
    {
      this.gateVerticalSpeed := gateVerticalSpeed;
      this.gateRb := gateRb;
      playersInTrigger := 0;
    }

    method OnTriggerEnter2D(tag: Tag)
      modifies this
      ensures State() == Enter(old(State()), tag)
    {
      if IsPlayerTag(tag) {
        playersInTrigger := playersInTrigger + 1;
      }
    }

    method OnTriggerStay2D(tag: Tag)
      modifies gateRb
      ensures State() == Stay(old(State()), tag, gateVerticalSpeed)
      ensures gateRb != null ==> gateRb.position == old(gateRb.position) && gateRb.pendingMove == old(gateRb.pendingMove)
    {
      if (tag == RedPlayer && gateRb != null) || (tag == BluePlayer && gateRb != null) {
        gateRb.linearVelocity := Vector2(gateRb.linearVelocity.x, gateVerticalSpeed);
      }
    }

    method OnTriggerExit2D(tag: Tag)
      modifies this, gateRb
      ensures State() == Exit(old(State()), tag, gateVerticalSpeed)
      ensures gateRb != null ==> gateRb.position == old(gateRb.position) && gateRb.pendingMove == old(gateRb.pendingMove)
    {
      if IsPlayerTag(tag) {
        playersInTrigger := playersInTrigger - 1;
        if playersInTrigger <= 0 && gateRb != null {
          gateRb.linearVelocity := Vector2(gateRb.linearVelocity.x, -1.0 * gateVerticalSpeed);
        }
      }
    }
  }
}
