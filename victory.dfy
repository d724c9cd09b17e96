/**
 * The victory trigger (Assets/Scripts/Victory.cs): the same two-player counter
 * and single-use latch as the camera button, except that nothing ever re-arms
 * the latch, so the victory panel is switched on at most once.
 */
module VictoryScript {
  import opened Wrappers
  import opened Unity

  /** Value view: the two private fields and the panel's active flag (None when unassigned). */
  datatype VictoryState = VictoryState(playersOnObject: int, hasTriggered: bool, panel: Option<bool>)

  /** `ActivateVictoryPanel`: switch the panel on if there is one. */
  function PanelActivated(panel: Option<bool>): (r: Option<bool>)
    ensures r.None? <==> panel.None?
    ensures panel.Some? ==> r == Some(true)
  {
    if panel.Some? then Some(true) else None
  }

  /** True when this entry is the one that wins the level. */
  predicate FiresOnEnter(s: VictoryState, tag: Tag) {
    IsPlayerTag(tag) && !s.hasTriggered && s.playersOnObject + 1 >= 2
  }

  /** `CheckVictory`: latch first, then the panel. */
  function Checked(s: VictoryState): (r: VictoryState)
    ensures r.playersOnObject == s.playersOnObject
    ensures r.hasTriggered == (s.hasTriggered || s.playersOnObject >= 2)
    ensures !s.hasTriggered && s.playersOnObject >= 2 ==> r.panel == PanelActivated(s.panel)
    ensures s.hasTriggered || s.playersOnObject < 2 ==> r == s
  {
    if s.playersOnObject >= 2 && !s.hasTriggered then
      s.(hasTriggered := true, panel := PanelActivated(s.panel))
    else
      s
  }

  /** `OnTriggerEnter2D`: count a player, then check for victory. */
  function Enter(s: VictoryState, tag: Tag): (r: VictoryState)
    ensures !IsPlayerTag(tag) ==> r == s
    ensures IsPlayerTag(tag) ==> r.playersOnObject == s.playersOnObject + 1
    ensures FiresOnEnter(s, tag) ==> r.hasTriggered && r.panel == PanelActivated(s.panel)
    ensures !FiresOnEnter(s, tag) ==> r.hasTriggered == s.hasTriggered && r.panel == s.panel
  {
    if IsPlayerTag(tag) then Checked(s.(playersOnObject := s.playersOnObject + 1)) else s
  }

  /** `OnTriggerExit2D`: uncount a player; no check and no lower bound. */
  function Exit(s: VictoryState, tag: Tag): (r: VictoryState)
    ensures !IsPlayerTag(tag) ==> r == s
    ensures IsPlayerTag(tag) ==> r.playersOnObject == s.playersOnObject - 1
    ensures r.hasTriggered == s.hasTriggered && r.panel == s.panel
  {
    if IsPlayerTag(tag) then s.(playersOnObject := s.playersOnObject - 1) else s
  }

  /** The script has no stay handler. */
  function Step(s: VictoryState, e: Trigger2D): VictoryState {
    match e
    case Enter2D(tag) => Enter(s, tag)
    case Stay2D(_) => s
    case Exit2D(tag) => Exit(s, tag)
  }

  function Run(s: VictoryState, events: seq<Trigger2D>): VictoryState
    decreases |events|
  {
    if events == [] then s else Run(Step(s, events[0]), events[1..])
  }

  /** How many events of the sequence fire the victory check. */
  function Firings(s: VictoryState, events: seq<Trigger2D>): nat
    decreases |events|
  {
    if events == [] then 0
    else
      (if events[0].Enter2D? && FiresOnEnter(s, events[0].tag) then 1 else 0)
      + Firings(Step(s, events[0]), events[1..])
  }

  function PlayerEntries(events: seq<Trigger2D>): nat {
    if events == [] then 0
    else (if events[0].Enter2D? && IsPlayerTag(events[0].tag) then 1 else 0) + PlayerEntries(events[1..])
  }

  /**
   * Over any event sequence victory fires at most once, and not at all once
   * latched; the latch is never cleared.
   */
  lemma {:induction false} VictoryAtMostOnce(s: VictoryState, events: seq<Trigger2D>)
    ensures Firings(s, events) <= (if s.hasTriggered then 0 else 1)
    ensures s.hasTriggered ==> Run(s, events).hasTriggered
    ensures Run(s, events).hasTriggered <==> s.hasTriggered || Firings(s, events) == 1
    decreases |events|
  {
    if events != [] {
      VictoryAtMostOnce(Step(s, events[0]), events[1..]);
    }
  }

  /**
   * The panel ends active only if it started active or the one firing switched
   * it on; an unassigned panel stays unassigned.
   */
  lemma {:induction false} PanelOnlyByFiring(s: VictoryState, events: seq<Trigger2D>)
    ensures Run(s, events).panel.None? <==> s.panel.None?
    ensures Run(s, events).panel == (if Firings(s, events) > 0 then PanelActivated(s.panel) else s.panel)
    decreases |events|
  {
    if events != [] {
      var s' := Step(s, events[0]);
      PanelOnlyByFiring(s', events[1..]);
    }
  }

  /**
   * Victory needs the count to reach two through entries: if the start count
   * plus the player entries stays below two, nothing fires.
   */
  lemma {:induction false} TooFewEntriesNeverFire(s: VictoryState, events: seq<Trigger2D>)
    requires s.playersOnObject + PlayerEntries(events) < 2
    ensures Firings(s, events) == 0
    ensures Run(s, events).hasTriggered == s.hasTriggered
    decreases |events|
  {
    if events != [] {
      TooFewEntriesNeverFire(Step(s, events[0]), events[1..]);
    }
  }

  /** A single player entering twice without leaving is counted twice and wins. */
  lemma RepeatedEntryOfOnePlayerWins(panel: Option<bool>)
    ensures Run(VictoryState(0, false, panel), [Enter2D(RedPlayer), Enter2D(RedPlayer)]).hasTriggered
  {
    var events := [Enter2D(RedPlayer), Enter2D(RedPlayer)];
    var s1 := Step(VictoryState(0, false, panel), events[0]);
    assert s1.playersOnObject == 1 && !s1.hasTriggered;
    var s2 := Step(s1, events[1]);
    assert s2.hasTriggered;
    assert events[1..][1..] == [];
    assert Run(VictoryState(0, false, panel), events) == Run(s1, events[1..]) == Run(s2, []);
  }

  class Victory {
    const victoryPanel: GameObject?
    var playersOnObject: int
    var hasTriggered: bool

    function State(): VictoryState
      reads this, victoryPanel
    {
      VictoryState(playersOnObject, hasTriggered,
                   if victoryPanel == null then None else Some(victoryPanel.active))
    }

    constructor (victoryPanel: GameObject?)
      ensures this.victoryPanel == victoryPanel
      ensures playersOnObject == 0 && !hasTriggered
    {
      this.victoryPanel := victoryPanel;
      playersOnObject := 0;
      hasTriggered := false;
    }

    method OnTriggerEnter2D(tag: Tag)
      modifies this, victoryPanel
      ensures State() == Enter(old(State()), tag)
      ensures victoryPanel != null ==> victoryPanel.position == old(victoryPanel.position)
    {
      if IsPlayerTag(tag) {
        playersOnObject := playersOnObject + 1;
        CheckVictory();
      }
    }

    method OnTriggerExit2D(tag: Tag)
      modifies this
      ensures State() == Exit(old(State()), tag)
    {
      if IsPlayerTag(tag) {
        playersOnObject := playersOnObject - 1;
      }
    }

    method CheckVictory()
      modifies this, victoryPanel
      ensures State() == Checked(old(State()))
      ensures victoryPanel != null ==> victoryPanel.position == old(victoryPanel.position)
    {
      if playersOnObject >= 2 && !hasTriggered {
        hasTriggered := true;
        ActivateVictoryPanel();
      }
    }

    method ActivateVictoryPanel()
      modifies victoryPanel
      ensures victoryPanel != null ==> victoryPanel.active && victoryPanel.position == old(victoryPanel.position)
    {
      if victoryPanel != null {
        victoryPanel.SetActive(true);
      }
    }
  }
}
