/** Gulka: a "Plant Turret" state machine with a total resume table. */
module Gulka {
  import opened Common

  // State enum
  const Active: byte := 0
  const Dead: byte := 1

  // Animation enum
  const Idle: byte := 0
  const Wake: byte := 1
  const Antic: byte := 2
  const Fire: byte := 3

  /** Host side: the animation index sent when the state machine enters `node`. The client
      replays the index on that same node. */
  function Hook(node: string): (r: Option<byte>)
    ensures r.Some? ==> r.value <= Fire
    ensures r.Some? ==> Resume(r.value).Some?
    ensures r.Some? ==> |Replay(r.value)| == 1 && StartsOnNode(Replay(r.value), node)
  {
    if node == "Wake" then Some(Wake)
    else if node == "Idle Anim" then Some(Idle)
    else if node == "Shoot Antic" then Some(Antic)
    else if node == "Fire" then Some(Fire)
    else None
  }

  /** The state the reconciliation switch forces when this client becomes scene host,
      given the last animation it received. */
  function Resume(a: byte): (r: Option<(Fsm, string)>)
    ensures r.None? <==> a > Fire
    ensures r.Some? ==> r.value.0 == Main
  {
    if a == Wake then Some((Main, "Idle Anim"))
    else if a == Idle then Some((Main, "Check"))
    else if a == Antic then Some((Main, "Fire"))
    else if a == Fire then Some((Main, "Idle Anim"))
    else None
  }

  /** Client side: what receiving animation `a` replays, after the base call. */
  function Replay(a: byte): (r: seq<Effect>)
    ensures r == [] <==> a > Fire
    ensures a <= Fire ==> |r| == 1 && r[0].ExecuteActions? && r[0].fsm == Main
  {
    if a == Wake then [Exec("Wake", [1, 2, 3, 5])]
    else if a == Idle then [Exec("Idle Anim", [1])]
    else if a == Antic then [Exec("Shoot Antic", [1])]
    else if a == Fire then [Exec("Fire", [1, 4, 5, 6])]
    else []
  }

  /** Client initialisation: freeze the FSM and hide the object exactly when the scene
      reports it dead. */
  function ClientInit(state: Option<byte>): (r: seq<Effect>)
    ensures Deactivate in r <==> state == Some(Dead)
    ensures |r| >= 1 && r[..1] == [RemoveAllTransitions(Main)]
  {
    [RemoveAllTransitions(Main)] + DeactivateIf(state == Some(Dead))
  }

  /** Hook and Replay are inverse: the node an animation is replayed on is a node
      whose hook sends that same animation. */
  lemma ReplayedNodeSendsIt(a: byte)
    requires a <= Fire
    ensures Hook(Replay(a)[0].node) == Some(a)
  {
  }

  /** A Gulka that never received an update resumes from "Check". */
  lemma NeverUpdatedResumesCheck()
    ensures Resume(0) == Some((Main, "Check"))
  {}

  class Gulka {
    var lastAnimation: byte
    var effects: seq<Effect>

    constructor ()
      ensures lastAnimation == Idle && effects == []
    {
      lastAnimation := 0;
      effects := [];
    }

    method InternalInitializeAsSceneHost()
      modifies this
      ensures lastAnimation == old(lastAnimation)
      ensures effects == old(effects) + [SendStateUpdate(Active)]
    {
      effects := effects + [SendStateUpdate(Active)];
    }

    method InternalInitializeAsSceneClient(stateIndex: Option<byte>)
      modifies this
      ensures lastAnimation == old(lastAnimation)
      ensures effects == old(effects) + ClientInit(stateIndex)
    {
      effects := effects + [RemoveAllTransitions(Main)];
      if stateIndex == Some(Dead) {
        effects := effects + [Deactivate];
      }
    }

    method HealthManagerOnDieHook()
      modifies this
      ensures lastAnimation == old(lastAnimation)
      ensures effects == old(effects) + [BaseDieHook, SendStateUpdate(Dead)]
    {
      effects := effects + [BaseDieHook, SendStateUpdate(Dead)];
    }

    method InternalSwitchToSceneHost()
      modifies this
      ensures lastAnimation == old(lastAnimation)
      ensures effects == old(effects) + [RestoreAllTransitions(Main)] + Forced(Resume(lastAnimation))
    {
      effects := effects + [RestoreAllTransitions(Main)] + Forced(Resume(lastAnimation));
    }

    method UpdateAnimation(animationIndex: byte, animationInfo: seq<byte>)
      modifies this
      ensures lastAnimation == animationIndex
      ensures effects == old(effects) + [BaseUpdateAnimation(animationIndex, animationInfo)] + Replay(animationIndex)
    {
      effects := effects + [BaseUpdateAnimation(animationIndex, animationInfo)];
      lastAnimation := animationIndex;
      effects := effects + Replay(animationIndex);
    }

    /** State updates are ignored by this enemy. */
    method UpdateState(stateIndex: byte)
    {
    }
  }
}
