/** Tiktik: a crawler driven by a Climber component rather than by a state machine. Its
    climber and the climber's sprite animator are switched on and off directly, and the
    one synchronised animation is the climber's walk clip. */
module Tiktik {
  import opened Common

  // State enum
  const Active: byte := 0
  const Dead: byte := 1

  // Animation enum
  const Walk: byte := 0

  /** Host side: the index sent when the climber's animator starts the clip named `clip`. */
  function ClipHook(clip: string): (r: Option<byte>)
    ensures r.Some? <==> clip == "Walk"
    ensures r.Some? ==> r.value == Walk && Replay(r.value) != []
  {
    if clip == "Walk" then Some(Walk) else None
  }

  /** Client side: what receiving animation `a` replays, after the base call. */
  function Replay(a: byte): (r: seq<Effect>)
    ensures r != [] <==> a == Walk
    ensures forall e :: e in r ==> e.PlayClip?
  {
    if a == Walk then [PlayClip("walk")] else []
  }

  /** The engine effects of client initialisation besides switching the climber and its
      animator off: the object is hidden exactly when the scene reports it dead. */
  function ClientInit(state: Option<byte>): (r: seq<Effect>)
    ensures Deactivate in r <==> state == Some(Dead)
    ensures forall e :: e in r ==> !e.RemoveAllTransitions? && !e.SendStateUpdate?
  {
    DeactivateIf(state == Some(Dead))
  }

  /** The host reports the clip named "Walk", while the client replays the clip named
      "walk": the names differ in case only. */
  lemma WalkClipNamesDiffer()
    ensures ClipHook("Walk") == Some(Walk) && ClipHook("walk").None?
    ensures PlayClip("walk") in Replay(Walk) && PlayClip("Walk") !in Replay(Walk)
  {
    assert "walk" != "Walk" by { assert "walk"[0] != "Walk"[0]; }
  }

  class Tiktik {
    var lastAnimation: byte
    var climberEnabled: bool
    var animatorEnabled: bool
    var effects: seq<Effect>

    constructor ()
      ensures lastAnimation == Walk && climberEnabled && animatorEnabled && effects == []
    {
      lastAnimation := 0;
      climberEnabled := true;
      animatorEnabled := true;
      effects := [];
    }

    /** Host initialisation reports Active and switches both components on. */
    method InternalInitializeAsSceneHost()
      modifies this
      ensures climberEnabled && animatorEnabled
      ensures lastAnimation == old(lastAnimation)
      ensures effects == old(effects) + [SendStateUpdate(Active)]
    {
      effects := effects + [SendStateUpdate(Active)];
      climberEnabled := true;
      animatorEnabled := true;
    }

    /** Client initialisation switches both components off and removes no transitions. */
    method InternalInitializeAsSceneClient(stateIndex: Option<byte>)
      modifies this
      ensures !climberEnabled && !animatorEnabled
      ensures lastAnimation == old(lastAnimation)
      ensures effects == old(effects) + ClientInit(stateIndex)
    {
      climberEnabled := false;
      animatorEnabled := false;
      if stateIndex == Some(Dead) {
        effects := effects + [Deactivate];
      }
    }

    method HealthManagerOnDieHook()
      modifies this
      ensures lastAnimation == old(lastAnimation)
      ensures climberEnabled == old(climberEnabled) && animatorEnabled == old(animatorEnabled)
      ensures effects == old(effects) + [BaseDieHook, SendStateUpdate(Dead)]
    {
      effects := effects + [BaseDieHook, SendStateUpdate(Dead)];
    }

    /** Becoming scene host forces no state, whatever the last animation was: only the
        climber and its animator are switched back on. */
    method InternalSwitchToSceneHost()
      modifies this
      ensures climberEnabled && animatorEnabled
      ensures lastAnimation == old(lastAnimation) && effects == old(effects)
    {
      climberEnabled := true;
      animatorEnabled := true;
    }

    /** Every update is stored; only Walk replays anything. */
    method UpdateAnimation(animationIndex: byte, animationInfo: seq<byte>)
      modifies this
      ensures lastAnimation == animationIndex
      ensures climberEnabled == old(climberEnabled) && animatorEnabled == old(animatorEnabled)
      ensures effects == old(effects) + [BaseUpdateAnimation(animationIndex, animationInfo)] + Replay(animationIndex)
    {
      effects := effects + [BaseUpdateAnimation(animationIndex, animationInfo)];
      lastAnimation := animationIndex;
      if animationIndex == Walk {
        effects := effects + [PlayClip("walk")];
      }
    }

    /** State updates are ignored by this enemy. */
    method UpdateState(stateIndex: byte)
    {
    }
  }
}
