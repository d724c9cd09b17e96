/**
 * The two water hazards (Assets/Scripts/BlueWaterTrigger.cs and
 * Assets/Scripts/RedWaterTrigger.cs): entry by the one player tag the water is
 * lethal to switches a lose panel on. Blue water reacts to the red player and
 * red water to the blue player; neither has an exit handler.
 */
module WaterTriggerScripts {
  import opened Wrappers
  import opened Unity

  /** The tag each hazard reacts to, as the code compares it. */
  const BlueWaterVictim: Tag := RedPlayer
  const RedWaterVictim: Tag := BluePlayer

  /**
   * `OnTriggerEnter2D` of a hazard reacting to `victim`; the panel is None when
   * unassigned, else its active flag.
   */
  function PanelAfterEnter(victim: Tag, panel: Option<bool>, tag: Tag): (r: Option<bool>)
    ensures r.None? <==> panel.None?
    ensures r == Some(true) <==> panel == Some(true) || (panel.Some? && tag == victim)
    ensures tag != victim ==> r == panel
  {
    if tag == victim then
      if panel.Some? then Some(true) else panel
    else
      panel
  }

  /** Only entries matter: there is no stay or exit handler. */
  function Run(victim: Tag, panel: Option<bool>, events: seq<Trigger2D>): Option<bool>
    decreases |events|
  {
    if events == [] then panel
    else
      var next := if events[0].Enter2D? then PanelAfterEnter(victim, panel, events[0].tag) else panel;
      Run(victim, next, events[1..])
  }

  /**
   * Over any sequence the panel ends active exactly when it started active or
   * the victim entered at some point with a panel assigned; nothing switches it off.
   */
  lemma {:induction false} PanelActiveIffVictimEntered(victim: Tag, panel: Option<bool>, events: seq<Trigger2D>)
    ensures Run(victim, panel, events).None? <==> panel.None?
    ensures Run(victim, panel, events) == Some(true) <==>
      panel == Some(true) || (panel.Some? && Enter2D(victim) in events)
    decreases |events|
  {
    if events != [] {
      var next := if events[0].Enter2D? then PanelAfterEnter(victim, panel, events[0].tag) else panel;
      PanelActiveIffVictimEntered(victim, next, events[1..]);
      assert Enter2D(victim) in events <==> events[0] == Enter2D(victim) || Enter2D(victim) in events[1..];
    }
  }

  /** Entries are idempotent: a second identical entry changes nothing more. */
  lemma EntryIsIdempotent(victim: Tag, panel: Option<bool>, tag: Tag)
    ensures PanelAfterEnter(victim, PanelAfterEnter(victim, panel, tag), tag) == PanelAfterEnter(victim, panel, tag)
  {
  }

  class BlueWaterTrigger {
    const panel: GameObject?

    function PanelState(): Option<bool>
      reads panel
    {
      if panel == null then None else Some(panel.active)
    }

    constructor (panel: GameObject?)
      ensures this.panel == panel
    {
      this.panel := panel;
    }

    method OnTriggerEnter2D(tag: Tag)
      modifies panel
      ensures PanelState() == PanelAfterEnter(BlueWaterVictim, old(PanelState()), tag)
      ensures panel != null ==> panel.position == old(panel.position)
    {
      if tag == RedPlayer {
        if panel != null {
          panel.SetActive(true);
        }
      }
    }
  }

  class RedWaterTrigger {
    const panel: GameObject?

    function PanelState(): Option<bool>
      reads panel
    {
      if panel == null then None else Some(panel.active)
    }

    constructor (panel: GameObject?)
      ensures this.panel == panel
    {
      this.panel := panel;
    }

    method OnTriggerEnter2D(tag: Tag)
      modifies panel
      ensures PanelState() == PanelAfterEnter(RedWaterVictim, old(PanelState()), tag)
      ensures panel != null ==> panel.position == old(panel.position)
    {
      if tag == BluePlayer {
        if panel != null {
          panel.SetActive(true);
        }
      }
    }
  }

  /** The hazards are asymmetric: each ignores the player whose colour it shares. */
  lemma HazardsIgnoreTheirOwnColour(panel: Option<bool>)
    ensures PanelAfterEnter(BlueWaterVictim, panel, BluePlayer) == panel
    ensures PanelAfterEnter(RedWaterVictim, panel, RedPlayer) == panel
  {
  }
}
