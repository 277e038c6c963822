/** wireButton: press detection and the enabled / active flags of one button. */
module ButtonBehavior {
  import opened Wrappers
  import opened Interactable

  /** The effects' new last state and whether onPress is called. */
  datatype Reaction = Reaction(shown: InteractiveState, pressed: bool)

  /**
   * The state-change callback wired into the interactable.  A press completes when
   * HOVER is reported right after the effects showed PRESSED; the effects then show
   * DISABLED while disabled, ACTIVE for an active button at rest, and the state otherwise.
   */
  function OnStateChange(isEnabled: bool, isActive: bool, hasOnPress: bool,
                         lastShown: InteractiveState, state: InteractiveState): (r: Reaction)
    ensures r.pressed <==> state == HOVER && lastShown == PRESSED && hasOnPress && isEnabled
    ensures !isEnabled ==> r.shown == DISABLED
    ensures isEnabled && isActive && state == IDLE ==> r.shown == ACTIVE
    ensures isEnabled && !(isActive && state == IDLE) ==> r.shown == state
  {
    var pressed := state == HOVER && lastShown == PRESSED && hasOnPress && isEnabled;
    var shown := if !isEnabled then DISABLED
                 else if isActive && state == IDLE then ACTIVE
                 else state;
    Reaction(shown, pressed)
  }

  /** A press never reaches a disabled button, whatever the states involved. */
  lemma {:induction false} DisabledNeverPresses(isActive: bool, hasOnPress: bool, last: InteractiveState, s: InteractiveState)
    ensures !OnStateChange(false, isActive, hasOnPress, last, s).pressed
    ensures OnStateChange(false, isActive, hasOnPress, last, s).shown == DISABLED
  {
  }

  class WiredButton {
    const id: string
    const hasOnPress: bool
    const interactable: InteractableObject
    var isActive: bool
    var isEnabled: bool
    /** The effects coordinator's lastState. */
    var lastShown: InteractiveState
    /** The ids passed to onPress, one per confirmed press. */
    var presses: seq<string>

    /**
     * The local enabled flag and the interactable's stay in step, and the effects show
     * PRESSED only while the interactable is pressed.
     */
    ghost predicate Valid()
      reads this, interactable
    {
      isEnabled == interactable.enabled && Consistent(interactable.Vars()) &&
      (lastShown == PRESSED ==> interactable.currentState == PRESSED)
    }

    constructor(id: string, hasOnPress: bool)
      ensures this.id == id && this.hasOnPress == hasOnPress
      ensures !isActive && isEnabled && lastShown == IDLE && presses == []
      ensures fresh(interactable) && interactable.Vars() == Initial && Valid()
    {
      this.id := id;
      this.hasOnPress := hasOnPress;
      var ix := new InteractableObject();
      interactable := ix;
      isActive := false;
      isEnabled := true;
      lastShown := IDLE;
      presses := [];
    }

    /** Runs the callback for a reported state, if there was one. */
    method React(notified: Option<InteractiveState>)
      modifies this
      ensures isActive == old(isActive) && isEnabled == old(isEnabled)
      ensures notified.None? ==> lastShown == old(lastShown) && presses == old(presses)
      ensures notified.Some? ==>
        var r := OnStateChange(isEnabled, isActive, hasOnPress, old(lastShown), notified.value);
        lastShown == r.shown && presses == old(presses) + (if r.pressed then [id] else [])
    {
      if notified.Some? {
        var r := OnStateChange(isEnabled, isActive, hasOnPress, lastShown, notified.value);
        lastShown := r.shown;
        if r.pressed {
          presses := presses + [id];
        }
      }
    }

    /** A pointer event on the button's view. */
    method HandlePointer(e: PointerEvent)
      requires Valid()
      modifies this, interactable
      ensures Valid()
      ensures isActive == old(isActive) && isEnabled == old(isEnabled)
      ensures interactable.Vars() == OnPointer(old(interactable.Vars()), e).next
      ensures var n := OnPointer(old(interactable.Vars()), e).notified;
        (n.None? ==> lastShown == old(lastShown) && presses == old(presses)) &&
        (n.Some? ==>
          var r := OnStateChange(isEnabled, isActive, hasOnPress, old(lastShown), n.value);
          lastShown == r.shown && presses == old(presses) + (if r.pressed then [id] else []))
    {
      ConsistentPreserved(interactable.Vars(), e, true);
      var n := interactable.HandlePointer(e);
      React(n);
    }

    /** setEnabled keeps the local flag and the interactable in sync. */
    method SetEnabled(flag: bool)
      requires Valid()
      modifies this, interactable
      ensures Valid()
      ensures isEnabled == flag && interactable.enabled == flag && isActive == old(isActive)
      ensures interactable.currentState == (if flag then IDLE else DISABLED)
      ensures !flag ==> lastShown == (if old(interactable.currentState) == DISABLED then old(lastShown) else DISABLED)
      ensures flag ==> lastShown == (if old(interactable.currentState) == IDLE then old(lastShown)
                                     else if isActive then ACTIVE else IDLE)
      ensures presses == old(presses)
    {
      isEnabled := flag;
      ConsistentPreserved(interactable.Vars(), PointerOver, flag);
      EnableStepOutcome(interactable.Vars(), flag);
      var n := interactable.SetEnabled(flag);
      React(n);
    }

    /** setActive shows ACTIVE or IDLE at once. */
    method SetActive(flag: bool)
      requires Valid()
      modifies this
      ensures Valid()
      ensures isActive == flag && lastShown == (if flag then ACTIVE else IDLE)
      ensures isEnabled == old(isEnabled) && presses == old(presses)
    {
      isActive := flag;
      lastShown := if flag then ACTIVE else IDLE;
    }

    method SetInteractive(flag: bool)
      requires Valid()
      modifies this, interactable
      ensures Valid()
      ensures isActive == old(isActive) && isEnabled == old(isEnabled) && presses == old(presses)
      ensures interactable.Vars() == InteractiveStep(old(interactable.Vars()), flag).next
      ensures var n := InteractiveStep(old(interactable.Vars()), flag).notified;
        (n.None? ==> lastShown == old(lastShown)) &&
        (n.Some? ==> lastShown == OnStateChange(isEnabled, isActive, hasOnPress, old(lastShown), n.value).shown)
    {
      ConsistentPreserved(interactable.Vars(), PointerOver, flag);
      var n := interactable.SetInteractive(flag);
      React(n);
    }

    method Destroy()
      modifies interactable
      ensures !interactable.listening
    {
      interactable.Destroy();
    }
  }

  /**
   * A click on an enabled, inactive button at rest: pointerover, pointerdown, pointerup
   * call onPress exactly once when one is wired.
   */
  method ClickPressesOnce(b: WiredButton)
    requires b.Valid() && b.isEnabled && !b.isActive && b.interactable.currentState == IDLE
    modifies b, b.interactable
    ensures b.presses == old(b.presses) + (if b.hasOnPress then [b.id] else [])
    ensures b.interactable.currentState == HOVER && b.lastShown == HOVER
  {
    b.HandlePointer(PointerOver);
    assert b.interactable.currentState == HOVER && b.lastShown == HOVER && b.presses == old(b.presses);
    b.HandlePointer(PointerDown);
    assert b.interactable.currentState == PRESSED && b.lastShown == PRESSED && b.presses == old(b.presses);
    b.HandlePointer(PointerUp);
  }
}
