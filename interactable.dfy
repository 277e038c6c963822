/** The pointer-interaction state machine behind every button. */
module Interactable {
  import opened Wrappers

  datatype InteractiveState = IDLE | HOVER | PRESSED | DISABLED | ACTIVE

  datatype PointerEvent = PointerOver | PointerOut | PointerDown | PointerUp | PointerUpOutside

  /** The interactable's own variables: the enabled flag and the current state. */
  datatype Ix = Ix(enabled: bool, current: InteractiveState)

  /** The result of an operation: the new variables and the state reported to the callback, if any. */
  datatype Step = Step(next: Ix, notified: Option<InteractiveState>)

  const Initial: Ix := Ix(true, IDLE)

  /**
   * setState: while disabled only DISABLED is accepted, and the callback fires only
   * when the state actually changes.
   */
  function SetState(x: Ix, s: InteractiveState): (r: Step)
    ensures r.next.enabled == x.enabled
    ensures r.notified.Some? ==> r.notified.value == s && r.next.current == s
    ensures r.notified.Some? <==> (x.enabled || s == DISABLED) && x.current != s
    ensures r.notified.None? ==> r.next == x
  {
    if !x.enabled && s != DISABLED then Step(x, None)
    else if x.current == s then Step(x, None)
    else Step(Ix(x.enabled, s), Some(s))
  }

  function OnPointer(x: Ix, e: PointerEvent): Step {
    if !x.enabled then Step(x, None)
    else match e
      case PointerOver => SetState(x, HOVER)
      case PointerOut => SetState(x, IDLE)
      case PointerDown => SetState(x, PRESSED)
      case PointerUp => if x.current == PRESSED then SetState(x, HOVER) else Step(x, None)
      case PointerUpOutside => if x.current == PRESSED then SetState(x, IDLE) else Step(x, None)
  }

  function EnableStep(x: Ix, isEnabled: bool): Step {
    var y := Ix(isEnabled, x.current);
    if !isEnabled then SetState(y, DISABLED) else SetState(y, IDLE)
  }

  /** Making the target non-interactive requests IDLE (refused while disabled). */
  function InteractiveStep(x: Ix, isInteractive: bool): Step {
    if !isInteractive then SetState(x, IDLE) else Step(x, None)
  }

  /** The state is DISABLED exactly when the interactable is disabled, and never ACTIVE. */
  predicate Consistent(x: Ix) {
    (x.current == DISABLED <==> !x.enabled) && x.current != ACTIVE
  }

  /** Every operation keeps the interactable consistent, starting from the initial state. */
  lemma {:induction false} ConsistentPreserved(x: Ix, e: PointerEvent, b: bool)
    requires Consistent(x)
    ensures Consistent(Initial)
    ensures Consistent(OnPointer(x, e).next)
    ensures Consistent(EnableStep(x, b).next)
    ensures Consistent(InteractiveStep(x, b).next)
  {
  }

  /** While disabled every pointer handler is a no-op and notifies no one. */
  lemma {:induction false} DisabledIgnoresPointer(x: Ix, e: PointerEvent)
    requires !x.enabled
    ensures OnPointer(x, e) == Step(x, None)
  {
  }

  /** pointerup only completes a press (PRESSED -> HOVER); pointerupoutside only cancels one. */
  lemma {:induction false} PointerUpOnlyFromPressed(x: Ix)
    ensures OnPointer(x, PointerUp).notified.Some? <==> x.enabled && x.current == PRESSED
    ensures OnPointer(x, PointerUp).notified.Some? ==> OnPointer(x, PointerUp).next.current == HOVER
    ensures OnPointer(x, PointerUpOutside).notified.Some? <==> x.enabled && x.current == PRESSED
    ensures OnPointer(x, PointerUpOutside).notified.Some? ==> OnPointer(x, PointerUpOutside).next.current == IDLE
  {
  }

  /** setEnabled(false) ends DISABLED and setEnabled(true) ends IDLE. */
  lemma {:induction false} EnableStepOutcome(x: Ix, b: bool)
    ensures EnableStep(x, b).next == Ix(b, if b then IDLE else DISABLED)
  {
  }

  /** The interactable attached to one display object. */
  class InteractableObject {
    var enabled: bool
    var currentState: InteractiveState
    /** The target's pointer properties: event mode 'static' and interactive, cursor 'pointer'. */
    var targetInteractive: bool
    var cursorPointer: bool
    /** Whether the five pointer handlers are attached to the target. */
    var listening: bool

    function Vars(): Ix reads this { Ix(enabled, currentState) }

    constructor()
      ensures Vars() == Initial && listening
    {
      enabled := true;
      currentState := IDLE;
      listening := true;
    }

    method HandlePointer(e: PointerEvent) returns (notified: Option<InteractiveState>)
      modifies this
      ensures Vars() == OnPointer(old(Vars()), e).next
      ensures notified == OnPointer(old(Vars()), e).notified
      ensures targetInteractive == old(targetInteractive) && cursorPointer == old(cursorPointer)
      ensures listening == old(listening)
    {
      var r := OnPointer(Vars(), e);
      enabled, currentState, notified := r.next.enabled, r.next.current, r.notified;
    }

    method SetEnabled(isEnabled: bool) returns (notified: Option<InteractiveState>)
      modifies this
      ensures Vars() == EnableStep(old(Vars()), isEnabled).next
      ensures notified == EnableStep(old(Vars()), isEnabled).notified
      ensures cursorPointer == isEnabled
      ensures targetInteractive == old(targetInteractive) && listening == old(listening)
    {
      enabled := isEnabled;
      cursorPointer := isEnabled;
      var r := if !isEnabled then SetState(Vars(), DISABLED) else SetState(Vars(), IDLE);
      currentState, notified := r.next.current, r.notified;
    }

    method SetInteractive(isInteractive: bool) returns (notified: Option<InteractiveState>)
      modifies this
      ensures Vars() == InteractiveStep(old(Vars()), isInteractive).next
      ensures notified == InteractiveStep(old(Vars()), isInteractive).notified
      ensures targetInteractive == isInteractive && cursorPointer == isInteractive
      ensures listening == old(listening)
    {
      targetInteractive := isInteractive;
      cursorPointer := isInteractive;
      notified := None;
      if !isInteractive {
        var r := SetState(Vars(), IDLE);
        currentState, notified := r.next.current, r.notified;
      }
    }

    method Destroy()
      modifies this
      ensures !listening && Vars() == old(Vars())
    {
      listening := false;
    }
  }
}
