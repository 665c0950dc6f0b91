/** Duranda: an "Acid Flyer" state machine whose two animations both resume to "Idle". */
module Duranda {
  import opened Common

  // State enum
  const Active: byte := 0
  const Dead: byte := 1

  // Animation enum
  const Idle: byte := 0
  const Bounce: byte := 1

  /** Host side: the animation index sent when the state machine enters `node`. The client
      replays the index on that same node. */
  function Hook(node: string): (r: Option<byte>)
    ensures r.Some? ==> r.value <= Bounce
    ensures r.Some? ==> Resume(r.value).Some?
    ensures r.Some? ==> |Replay(r.value)| == 1 && StartsOnNode(Replay(r.value), node)
  {
    if node == "Bounce Anim" then Some(Bounce)
    else if node == "Idle" then Some(Idle)
    else None
  }

  /** The state the reconciliation switch forces when this client becomes scene host,
      given the last animation it received. */
  function Resume(a: byte): (r: Option<(Fsm, string)>)
    ensures r.None? <==> a > Bounce
    ensures r.Some? ==> r.value.0 == Main
  {
    if a == Idle then Some((Main, "Idle"))
    else if a == Bounce then Some((Main, "Idle"))
    else None
  }

  /** Client side: what receiving animation `a` replays, after the base call. */
  function Replay(a: byte): (r: seq<Effect>)
    ensures r == [] <==> a > Bounce
    ensures a <= Bounce ==> |r| == 1 && r[0].ExecuteActions? && r[0].fsm == Main
  {
    if a == Bounce then [Exec("Bounce Anim", [1])]
    else if a == Idle then [Exec("Idle", [1, 2])]
    else []
  }

  /** Client initialisation: freeze the FSM and hide the object exactly when the scene
      reports it dead. */
  function ClientInit(state: Option<byte>): (r: seq<Effect>)
    ensures Deactivate in r <==> state == Some(Dead)
    ensures |r| >= 1 && r[..1] == [RemoveAllTransitions(Main)]
  {
    [RemoveAllTransitions(Main)] + DeactivateIf(state == Some(Dead))
  }

  /** Hook and Replay are inverse: the node an animation is replayed on is a node
      whose hook sends that same animation. */
  lemma ReplayedNodeSendsIt(a: byte)
    requires a <= Bounce
    ensures Hook(Replay(a)[0].node) == Some(a)
  {
  }

  /** A Duranda that never received an update resumes in "Idle". */
  lemma NeverUpdatedResumesIdle()
    ensures Resume(0) == Some((Main, "Idle"))
  {}

  /** Every in-range index resumes to "Idle". */
  lemma EveryIndexResumesIdle(a: byte)
    requires a <= Bounce
    ensures Resume(a) == Some((Main, "Idle"))
  {
  }

  class Duranda {
    var lastAnimation: byte
    var effects: seq<Effect>

    constructor ()
      ensures lastAnimation == Idle && effects == []
    {
      lastAnimation := 0;
      effects := [];
    }

    method InternalInitializeAsSceneHost()
      modifies this
      ensures lastAnimation == old(lastAnimation)
      ensures effects == old(effects) + [SendStateUpdate(Active)]
    {
      effects := effects + [SendStateUpdate(Active)];
    }

    method InternalInitializeAsSceneClient(stateIndex: Option<byte>)
      modifies this
      ensures lastAnimation == old(lastAnimation)
      ensures effects == old(effects) + ClientInit(stateIndex)
    {
      effects := effects + [RemoveAllTransitions(Main)];
      if stateIndex == Some(Dead) {
        effects := effects + [Deactivate];
      }
    }

    method HealthManagerOnDieHook()
      modifies this
      ensures lastAnimation == old(lastAnimation)
      ensures effects == old(effects) + [BaseDieHook, SendStateUpdate(Dead)]
    {
      effects := effects + [BaseDieHook, SendStateUpdate(Dead)];
    }

    method InternalSwitchToSceneHost()
      modifies this
      ensures lastAnimation == old(lastAnimation)
      ensures effects == old(effects) + [RestoreAllTransitions(Main)] + Forced(Resume(lastAnimation))
    {
      effects := effects + [RestoreAllTransitions(Main)] + Forced(Resume(lastAnimation));
    }

    method UpdateAnimation(animationIndex: byte, animationInfo: seq<byte>)
      modifies this
      ensures lastAnimation == animationIndex
      ensures effects == old(effects) + [BaseUpdateAnimation(animationIndex, animationInfo)] + Replay(animationIndex)
    {
      effects := effects + [BaseUpdateAnimation(animationIndex, animationInfo)];
      lastAnimation := animationIndex;
      effects := effects + Replay(animationIndex);
    }

    /** State updates are ignored by this enemy. */
    method UpdateState(stateIndex: byte)
    {
    }
  }
}
