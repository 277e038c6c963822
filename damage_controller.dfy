/** The client damage controller: detects changes of the player's submarine health between state updates. */
module DamageControl {
  import opened Wrappers
  import opened ClientView

  /** How a handled state update is answered. */
  datatype Reaction =
    | NoSubmarine            // the player holds no role on any submarine: nothing changes
    | Initialised(health: int) // the first health seen: the renderer shows it, without feedback
    | Damaged(health: int)     // health dropped: damage feedback, which also updates the renderer
    | Repaired(health: int)    // health rose: the renderer shows it
    | Steady                   // health unchanged: nothing to show

  /**
   * handleStateUpdate on a state whose submarines are present: the health
   * remembered next and the reaction, given the health remembered so far.
   */
  function React(lastHealth: Option<int>, subs: seq<SubView>, playerId: Option<string>): (r: (Option<int>, Reaction))
    ensures var mySub := if playerId.Some? then PlayerSub(subs, playerId.value) else None;
      (mySub.None? <==> r.1 == NoSubmarine) &&
      (mySub.None? ==> r.0 == lastHealth) &&
      (mySub.Some? ==> r.0 == Some(mySub.value.health)) &&
      (mySub.Some? && lastHealth.None? ==> r.1 == Initialised(mySub.value.health)) &&
      (mySub.Some? && lastHealth.Some? && mySub.value.health < lastHealth.value ==> r.1 == Damaged(mySub.value.health)) &&
      (mySub.Some? && lastHealth.Some? && mySub.value.health > lastHealth.value ==> r.1 == Repaired(mySub.value.health)) &&
      (mySub.Some? && lastHealth == Some(mySub.value.health) ==> r.1 == Steady)
  {
    var mySub := if playerId.Some? then PlayerSub(subs, playerId.value) else None;
    match mySub
    case None => (lastHealth, NoSubmarine)
    case Some(sub) =>
      if lastHealth.None? then (Some(sub.health), Initialised(sub.health))
      else if sub.health < lastHealth.value then (Some(sub.health), Damaged(sub.health))
      else if sub.health > lastHealth.value then (Some(sub.health), Repaired(sub.health))
      else (Some(sub.health), Steady)
  }

  /** The same state handled twice gives feedback at most once: the second time nothing changes. */
  lemma {:induction false} RepeatedStateIsSteady(lastHealth: Option<int>, subs: seq<SubView>, playerId: Option<string>)
    ensures var first := React(lastHealth, subs, playerId);
      var second := React(first.0, subs, playerId);
      second.0 == first.0 && (second.1 == Steady || second.1 == NoSubmarine)
  {
  }

  /** Damage feedback fires exactly on a drop below a health already seen. */
  lemma {:induction false} FeedbackOnlyOnDrop(lastHealth: Option<int>, subs: seq<SubView>, playerId: Option<string>)
    ensures React(lastHealth, subs, playerId).1.Damaged? <==>
      lastHealth.Some? && playerId.Some? && PlayerSub(subs, playerId.value).Some? &&
      PlayerSub(subs, playerId.value).value.health < lastHealth.value
  {
  }

  /** A state update as this controller reads it: null, or an object whose submarines may be missing. */
  datatype DamageState = DamageState(submarines: Option<seq<SubView>>)

  /** A side effect of the controller, in order. */
  datatype Effect =
    | RendererUpdate(health: int)
    | ScreenTint(durationMs: int)
    | Shake(intensity: int, durationMs: int)
    | DamageAnimating(active: bool)

  /** triggerDamageFeedback: tint, shake, renderer, and the map lock that the timer releases. */
  function FeedbackEffects(newHealth: int): seq<Effect> {
    [ScreenTint(800), Shake(50, 800), RendererUpdate(newHealth), DamageAnimating(true)]
  }

  function EffectsOf(reaction: Reaction): (r: seq<Effect>)
    ensures reaction.Damaged? ==> RendererUpdate(reaction.health) in r && DamageAnimating(true) in r
    ensures !reaction.Damaged? ==> DamageAnimating(true) !in r
  {
    match reaction
    case NoSubmarine => []
    case Initialised(h) => [RendererUpdate(h)]
    case Damaged(h) => FeedbackEffects(h)
    case Repaired(h) => [RendererUpdate(h)]
    case Steady => []
  }

  class DamageController {
    var lastHealth: Option<int>
    var effects: seq<Effect>
    /** Map locks started by damage feedback whose 800 ms release timer has not fired. */
    var pendingReleases: nat

    constructor()
      ensures lastHealth.None? && effects == [] && pendingReleases == 0
    {
      lastHealth := None;
      effects := [];
      pendingReleases := 0;
    }

    /**
     * handleStateUpdate, with the socket manager's player id as a parameter.
     * Its first statement reads `state.submarines[0]`, so a null state or one
     * without submarines throws (and changes nothing) before the null check.
     */
    method HandleStateUpdate(state: Option<DamageState>, playerId: Option<string>) returns (threw: bool)
      modifies this
      ensures threw <==> state.None? || state.value.submarines.None?
      ensures threw ==> lastHealth == old(lastHealth) && effects == old(effects) && pendingReleases == old(pendingReleases)
      ensures !threw ==>
        var r := React(old(lastHealth), state.value.submarines.value, playerId);
        lastHealth == r.0 && effects == old(effects) + EffectsOf(r.1) &&
        pendingReleases == old(pendingReleases) + (if r.1.Damaged? then 1 else 0)
    {
      if state.None? || state.value.submarines.None? {
        return true;
      }
      var subs := state.value.submarines.value;
      var mySub := if playerId.Some? then PlayerSub(subs, playerId.value) else None;
      if mySub.None? {
        return false;
      }
      var health := mySub.value.health;
      if lastHealth.None? {
        lastHealth := Some(health);
        effects := effects + [RendererUpdate(health)];
        return false;
      }
      if health < lastHealth.value {
        TriggerDamageFeedback(health);
      } else if health > lastHealth.value {
        effects := effects + [RendererUpdate(health)];
      }
      lastHealth := Some(health);
      return false;
    }

    method TriggerDamageFeedback(newHealth: int)
      modifies this
      ensures lastHealth == old(lastHealth) && effects == old(effects) + FeedbackEffects(newHealth)
      ensures pendingReleases == old(pendingReleases) + 1
    {
      effects := effects + [ScreenTint(800), Shake(50, 800), RendererUpdate(newHealth), DamageAnimating(true)];
      pendingReleases := pendingReleases + 1;
    }

    /** The release timer of one damage feedback fires. */
    method ReleaseTimerFires()
      requires pendingReleases > 0
      modifies this
      ensures lastHealth == old(lastHealth) && effects == old(effects) + [DamageAnimating(false)]
      ensures pendingReleases == old(pendingReleases) - 1
    {
      effects := effects + [DamageAnimating(false)];
      pendingReleases := pendingReleases - 1;
    }
  }
}
