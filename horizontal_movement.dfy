/**
 * The one-way gate switch (Assets/Scripts/horizontal_movement.cs): any collider
 * entering the trigger switches the gate object off, whatever its tag.
 */
module HorizontalMovementScript {
  import opened Unity

  /** `OnTriggerEnter2D`: the gate's active flag afterwards. */
  function GateAfterEnter(active: bool, tag: Tag): (r: bool)
    ensures !r
  {
    false
  }

  /** Only entries matter: there is no stay or exit handler, counter or latch. */
  function Run(active: bool, events: seq<Trigger2D>): bool
    decreases |events|
  {
    if events == [] then active
    else Run(if events[0].Enter2D? then GateAfterEnter(active, events[0].tag) else active, events[1..])
  }

  /** The gate stays active exactly when it was active and nothing ever entered. */
  lemma {:induction false} GateNeverReactivates(active: bool, events: seq<Trigger2D>)
    ensures Run(active, events) <==> active && forall i :: 0 <= i < |events| ==> !events[i].Enter2D?
    decreases |events|
  {
    if events != [] {
      var next := if events[0].Enter2D? then GateAfterEnter(active, events[0].tag) else active;
      GateNeverReactivates(next, events[1..]);
      assert forall i :: 1 <= i < |events| ==> events[i] == events[1..][i - 1];
    }
  }

  class HorizontalMovement {
    /**
     * The gate. Without one, `Start` returns before fetching the audio source and
     * an entry would fail, so the model requires a gate (a non-null reference).
     */
    const gate: GameObject

    constructor (gate: GameObject)
      ensures this.gate == gate
    {
      this.gate := gate;
    }

    method OnTriggerEnter2D(tag: Tag)
      modifies gate
      ensures gate.active == GateAfterEnter(old(gate.active), tag)
      ensures gate.position == old(gate.position)
    {
      gate.SetActive(false);
    }
  }
}
