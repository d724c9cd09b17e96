/**
 * The camera-advance button (Assets/Scripts/NextScreenButton.cs): a counter of
 * players standing on it and a single-use latch. When the second player arrives
 * the camera moves up once and the button switches itself off; the reset in
 * PlayerManager re-arms the latch.
 */
module NextScreenButtonScript {
  import opened Wrappers
  import opened Unity

  /**
   * Value view of one button: its two private fields, its own active flag and
   * the camera position (None when no camera is assigned).
   */
  datatype ButtonState = ButtonState(
    playersOnButton: int,
    hasTriggered: bool,
    active: bool,
    camera: Option<Vector3>)

  /** The camera after `MoveCameraUp`: `amount` is added to y only. */
  function CameraRaised(camera: Option<Vector3>, amount: real): (r: Option<Vector3>)
    ensures r.None? <==> camera.None?
    ensures r.Some? ==>
      r.value.x == camera.value.x && r.value.z == camera.value.z &&
      r.value.y - camera.value.y == amount
  {
    match camera
    case None => None
    case Some(p) => Some(Add3(p, Vector3(0.0, amount, 0.0)))
  }

  /** `CheckTrigger`: fire when at least two players are counted and the latch is clear. */
  function Checked(s: ButtonState, amount: real): (r: ButtonState)
    ensures r.playersOnButton == s.playersOnButton
    ensures r.hasTriggered == (s.hasTriggered || s.playersOnButton >= 2)
    ensures !s.hasTriggered && s.playersOnButton >= 2 ==>
      !r.active && r.camera == CameraRaised(s.camera, amount)
    ensures s.hasTriggered || s.playersOnButton < 2 ==> r == s
  {
    if s.playersOnButton >= 2 && !s.hasTriggered then
      s.(hasTriggered := true, camera := CameraRaised(s.camera, amount), active := false)
    else
      s
  }

  /** True when this entry is the one that fires the button. */
  predicate FiresOnEnter(s: ButtonState, tag: Tag) {
    IsPlayerTag(tag) && !s.hasTriggered && s.playersOnButton + 1 >= 2
  }

  /** `OnTriggerEnter2D`: a player is counted, then the trigger is checked. */
  function Enter(s: ButtonState, tag: Tag, amount: real): (r: ButtonState)
    ensures !IsPlayerTag(tag) ==> r == s
    ensures IsPlayerTag(tag) ==> r.playersOnButton == s.playersOnButton + 1
    ensures FiresOnEnter(s, tag) ==>
      r.hasTriggered && !r.active && r.camera == CameraRaised(s.camera, amount)
    ensures !FiresOnEnter(s, tag) ==>
      r.hasTriggered == s.hasTriggered && r.active == s.active && r.camera == s.camera
  {
    if IsPlayerTag(tag) then
      Checked(s.(playersOnButton := s.playersOnButton + 1), amount)
    else
      s
  }

  /** `OnTriggerExit2D`: a player is uncounted, with no lower bound. */
  function Exit(s: ButtonState, tag: Tag): (r: ButtonState)
    ensures !IsPlayerTag(tag) ==> r == s
    ensures IsPlayerTag(tag) ==> r.playersOnButton == s.playersOnButton - 1
    ensures r.hasTriggered == s.hasTriggered && r.active == s.active && r.camera == s.camera
  {
    if IsPlayerTag(tag) then s.(playersOnButton := s.playersOnButton - 1) else s
  }

  /** `ResetTrigger`: only the latch is cleared. */
  function Rearm(s: ButtonState): (r: ButtonState)
    ensures !r.hasTriggered
    ensures r.playersOnButton == s.playersOnButton && r.active == s.active && r.camera == s.camera
  {
    s.(hasTriggered := false)
  }

  /** What can happen to a button: an engine trigger callback, or a re-arm from the reset. */
  datatype ButtonEvent = Collider(trigger: Trigger2D) | ResetRequested

  function Step(s: ButtonState, e: ButtonEvent, amount: real): ButtonState {
    match e
    case Collider(Enter2D(tag)) => Enter(s, tag, amount)
    case Collider(Stay2D(_)) => s
    case Collider(Exit2D(tag)) => Exit(s, tag)
    case ResetRequested => Rearm(s)
  }

  /** The button after a sequence of events, in order. */
  function Run(s: ButtonState, events: seq<ButtonEvent>, amount: real): ButtonState
    decreases |events|
  {
    if events == [] then s else Run(Step(s, events[0], amount), events[1..], amount)
  }

  /** How many events of the sequence fire the button. */
  function Firings(s: ButtonState, events: seq<ButtonEvent>, amount: real): nat
    decreases |events|
  {
    if events == [] then 0
    else
      var fired := if events[0].Collider? && events[0].trigger.Enter2D?
                      && FiresOnEnter(s, events[0].trigger.tag) then 1 else 0;
      fired + Firings(Step(s, events[0], amount), events[1..], amount)
  }

  function Rearms(events: seq<ButtonEvent>): nat {
    if events == [] then 0 else (if events[0].ResetRequested? then 1 else 0) + Rearms(events[1..])
  }

  function PlayerEntries(events: seq<ButtonEvent>): nat {
    if events == [] then 0
    else
      (match events[0] case Collider(Enter2D(tag)) => if IsPlayerTag(tag) then 1 else 0 case _ => 0)
      + PlayerEntries(events[1..])
  }

  function PlayerExits(events: seq<ButtonEvent>): nat {
    if events == [] then 0
    else
      (match events[0] case Collider(Exit2D(tag)) => if IsPlayerTag(tag) then 1 else 0 case _ => 0)
      + PlayerExits(events[1..])
  }

  /**
   * Between two re-arms the button fires at most once: the number of firings
   * is bounded by the number of re-arms, plus one if the latch starts clear.
   */
  lemma {:induction false} FiresAtMostOncePerArming(s: ButtonState, events: seq<ButtonEvent>, amount: real)
    ensures Firings(s, events, amount) <= Rearms(events) + (if s.hasTriggered then 0 else 1)
    ensures Run(s, events, amount).hasTriggered ==> Firings(s, events, amount) > 0 || s.hasTriggered
    decreases |events|
  {
    if events != [] {
      FiresAtMostOncePerArming(Step(s, events[0], amount), events[1..], amount);
    }
  }

  /** The camera after `n` raises of `amount`. */
  function RaisedTimes(camera: Option<Vector3>, amount: real, n: nat): Option<Vector3> {
    if n == 0 then camera else CameraRaised(RaisedTimes(camera, amount, n - 1), amount)
  }

  lemma {:induction false} RaisedTimesShift(camera: Option<Vector3>, amount: real, n: nat)
    ensures RaisedTimes(CameraRaised(camera, amount), amount, n) == RaisedTimes(camera, amount, n + 1)
  {
    if n > 0 {
      RaisedTimesShift(camera, amount, n - 1);
    }
  }

  /** The camera moves by exactly `amount` per firing, and never otherwise. */
  lemma {:induction false} CameraMovesOnlyWhenFiring(s: ButtonState, events: seq<ButtonEvent>, amount: real)
    ensures Run(s, events, amount).camera == RaisedTimes(s.camera, amount, Firings(s, events, amount))
    decreases |events|
  {
    if events != [] {
      var e := events[0];
      var s' := Step(s, e, amount);
      CameraMovesOnlyWhenFiring(s', events[1..], amount);
      if e.Collider? && e.trigger.Enter2D? && FiresOnEnter(s, e.trigger.tag) {
        RaisedTimesShift(s.camera, amount, Firings(s', events[1..], amount));
      }
    }
  }

  /** The counter is unclamped: entries minus exits, possibly negative. */
  lemma {:induction false} CounterIsEntriesMinusExits(s: ButtonState, events: seq<ButtonEvent>, amount: real)
    ensures Run(s, events, amount).playersOnButton ==
      s.playersOnButton + PlayerEntries(events) - PlayerExits(events)
    decreases |events|
  {
    if events != [] {
      CounterIsEntriesMinusExits(Step(s, events[0], amount), events[1..], amount);
    }
  }

  /** A latched button with no re-arm in between never moves the camera. */
  lemma LatchedButtonNeverMovesCamera(s: ButtonState, events: seq<ButtonEvent>, amount: real)
    requires s.hasTriggered && Rearms(events) == 0
    ensures Run(s, events, amount).camera == s.camera
  {
    FiresAtMostOncePerArming(s, events, amount);
    CameraMovesOnlyWhenFiring(s, events, amount);
  }

  /** A button in the scene; another object may be its camera. */
  class NextScreenButton {
    const verticalMoveAmount: real
    /** The camera after `Start`'s fallback to the main camera; null when there is none. */
    const cameraToMove: GameObject?
    /** The object this script is attached to. */
    const gameObject: GameObject
    var playersOnButton: int
    var hasTriggered: bool

    function State(): ButtonState
      reads this, gameObject, cameraToMove
    {
      ButtonState(playersOnButton, hasTriggered, gameObject.active,
                  if cameraToMove == null then None else Some(cameraToMove.position))
    }

    constructor (verticalMoveAmount: real, cameraToMove: GameObject?, gameObject: GameObject)
      ensures this.verticalMoveAmount == verticalMoveAmount
      ensures this.cameraToMove == cameraToMove && this.gameObject == gameObject
      ensures playersOnButton == 0 && !hasTriggered
    {
      this.verticalMoveAmount := verticalMoveAmount;
      this.cameraToMove := cameraToMove;
      this.gameObject := gameObject;
      playersOnButton := 0;
      hasTriggered := false;
    }

    method OnTriggerEnter2D(tag: Tag)
      modifies this, gameObject, cameraToMove
      ensures State() == Enter(old(State()), tag, verticalMoveAmount)
      ensures cameraToMove == gameObject || gameObject.position == old(gameObject.position)
      ensures cameraToMove == null || cameraToMove == gameObject ||
              cameraToMove.active == old(cameraToMove.active)
    {
      if IsPlayerTag(tag) {
        playersOnButton := playersOnButton + 1;
        CheckTrigger();
      }
    }

    method OnTriggerExit2D(tag: Tag)
      modifies this
      ensures State() == Exit(old(State()), tag)
    {
      if IsPlayerTag(tag) {
        playersOnButton := playersOnButton - 1;
      }
    }

    method CheckTrigger()
      modifies this, gameObject, cameraToMove
      ensures State() == Checked(old(State()), verticalMoveAmount)
      ensures cameraToMove == gameObject || gameObject.position == old(gameObject.position)
      ensures cameraToMove == null || cameraToMove == gameObject ||
              cameraToMove.active == old(cameraToMove.active)
    {
      if playersOnButton >= 2 && !hasTriggered {
        hasTriggered := true;
        MoveCameraUp();
        gameObject.SetActive(false);
      }
    }

    method MoveCameraUp()
      modifies cameraToMove
      ensures cameraToMove != null ==>
        Some(cameraToMove.position) == CameraRaised(Some(old(cameraToMove.position)), verticalMoveAmount)
      ensures cameraToMove != null ==> cameraToMove.active == old(cameraToMove.active)
    {
      if cameraToMove != null {
        cameraToMove.position := Add3(cameraToMove.position, Vector3(0.0, verticalMoveAmount, 0.0));
      }
    }

    method ResetTrigger()
      modifies this
      ensures State() == Rearm(old(State()))
    {
      hasTriggered := false;
    }
  }
}
