/** Crawlid: a "Crawler" state machine that is only frozen and restored; its clips walk,
    turn and idle are synchronised through the sprite animator. */
module Crawlid {
  import opened Common

  // State enum
  const Active: byte := 0
  const Dead: byte := 1

  // Animation enum
  const Walk: byte := 0
  const Turn: byte := 1
  const Idle: byte := 2

  /** Host side: the index sent when the sprite animator starts the clip named `clip`. */
  function ClipHook(clip: string): (r: Option<byte>)
    ensures r.Some? <==> clip in {"walk", "turn", "idle"}
    ensures r.Some? ==> PlayClip(clip) in Replay(r.value)
    ensures r.Some? ==> (Resume(r.value).None? <==> r.value in {Turn, Idle})
  {
    if clip == "walk" then Some(Walk)
    else if clip == "turn" then Some(Turn)
    else if clip == "idle" then Some(Idle)
    else None
  }

  /** The state the reconciliation switch forces when this client becomes scene host,
      given the last animation it received. */
  function Resume(a: byte): (r: Option<(Fsm, string)>)
    ensures r.None? <==> a in {Turn, Idle} || a > Idle
    ensures r.Some? ==> r.value.0 == Main
  {
    if a == Walk then Some((Main, "Walk"))
    else None
  }

  /** Client side: what receiving animation `a` replays, after the base call. */
  function Replay(a: byte): (r: seq<Effect>)
    ensures r == [] <==> a > Idle
  {
    if a == Idle then [PlayClip("idle")]
    else if a == Walk then [PlayClip("walk")]
    else if a == Turn then [PlayClip("turn")]
    else []
  }

  /** Client initialisation: freeze the FSM, switch the animator off and hide the object
      exactly when the scene reports it dead. */
  function ClientInit(state: Option<byte>): (r: seq<Effect>)
    ensures Deactivate in r <==> state == Some(Dead)
    ensures |r| >= 2 && r[..2] == [RemoveAllTransitions(Main), SetAnimatorEnabled(false)]
  {
    [RemoveAllTransitions(Main), SetAnimatorEnabled(false)] + DeactivateIf(state == Some(Dead))
  }

  /** Walk is 0, so a crawlid that never received an update is forced into "Walk". */
  lemma NeverUpdatedResumesWalk()
    ensures Resume(0) == Some((Main, "Walk"))
  {}

  class Crawlid {
    var lastAnimation: byte
    var effects: seq<Effect>

    constructor ()
      ensures lastAnimation == Walk && effects == []
    {
      lastAnimation := 0;
      effects := [];
    }

    method InternalInitializeAsSceneHost()
      modifies this
      ensures lastAnimation == old(lastAnimation)
      ensures effects == old(effects) + [SendStateUpdate(Active), SetAnimatorEnabled(true)]
    {
      effects := effects + [SendStateUpdate(Active), SetAnimatorEnabled(true)];
    }

    method InternalInitializeAsSceneClient(stateIndex: Option<byte>)
      modifies this
      ensures lastAnimation == old(lastAnimation)
      ensures effects == old(effects) + ClientInit(stateIndex)
    {
      effects := effects + [RemoveAllTransitions(Main), SetAnimatorEnabled(false)];
      if stateIndex == Some(Dead) {
        effects := effects + [Deactivate];
      }
    }

    method HealthManagerOnDieHook()
      modifies this
      ensures lastAnimation == old(lastAnimation)
      ensures effects == old(effects) + [BaseDieHook, SendStateUpdate(Dead)]
    {
      effects := effects + [BaseDieHook, SendStateUpdate(Dead)];
    }

    method InternalSwitchToSceneHost()
      modifies this
      ensures lastAnimation == old(lastAnimation)
      ensures effects == old(effects) + [RestoreAllTransitions(Main), SetAnimatorEnabled(true)] + Forced(Resume(lastAnimation))
    {
      effects := effects + [RestoreAllTransitions(Main), SetAnimatorEnabled(true)] + Forced(Resume(lastAnimation));
    }

    method UpdateAnimation(animationIndex: byte, animationInfo: seq<byte>)
      modifies this
      ensures lastAnimation == animationIndex
      ensures effects == old(effects) + [BaseUpdateAnimation(animationIndex, animationInfo)] + Replay(animationIndex)
    {
      effects := effects + [BaseUpdateAnimation(animationIndex, animationInfo)];
      lastAnimation := animationIndex;
      effects := effects + Replay(animationIndex);
    }

    /** State updates are ignored by this enemy. */
    method UpdateState(stateIndex: byte)
    {
    }
  }
}
