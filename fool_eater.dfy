/** Fool Eater: a "Plant Trap Control" state machine with a total resume table. */
module FoolEater {
  import opened Common

  // State enum
  const Active: byte := 0
  const Dead: byte := 1

  // Animation enum
  const Ready: byte := 0
  const Snap: byte := 1
  const Retract: byte := 2

  /** Host side: the animation index sent when the state machine enters `node`. The client
      replays the index on that same node. */
  function Hook(node: string): (r: Option<byte>)
    ensures r.Some? ==> r.value <= Retract
    ensures r.Some? ==> Resume(r.value).Some?
    ensures r.Some? ==> |Replay(r.value)| == 1 && StartsOnNode(Replay(r.value), node)
  {
    if node == "Ready" then Some(Ready)
    else if node == "Snap" then Some(Snap)
    else if node == "Retract" then Some(Retract)
    else None
  }

  /** The state the reconciliation switch forces when this client becomes scene host,
      given the last animation it received. */
  function Resume(a: byte): (r: Option<(Fsm, string)>)
    ensures r.None? <==> a > Retract
    ensures r.Some? ==> r.value.0 == Main
  {
    if a == Ready then Some((Main, "Snap"))
    else if a == Snap then Some((Main, "Retract"))
    else if a == Retract then Some((Main, "Cooldown"))
    else None
  }

  /** Client side: what receiving animation `a` replays, after the base call. */
  function Replay(a: byte): (r: seq<Effect>)
    ensures r == [] <==> a > Retract
    ensures a <= Retract ==> |r| == 1 && r[0].ExecuteActions? && r[0].fsm == Main
  {
    if a == Ready then [Exec("Ready", [1, 2])]
    else if a == Snap then [Exec("Snap", [1, 2])]
    else if a == Retract then [Exec("Retract", [1])]
    else []
  }

  /** Client initialisation: freeze the FSM, and hide the object when the state index is 1
      (the source compares with the literal 1, which is Dead). */
  function ClientInit(state: Option<byte>): (r: seq<Effect>)
    ensures Deactivate in r <==> state == Some(1)
    ensures |r| >= 1 && r[..1] == [RemoveAllTransitions(Main)]
  {
    [RemoveAllTransitions(Main)] + DeactivateIf(state == Some(1))
  }

  /** Hook and Replay are inverse: the node an animation is replayed on is a node
      whose hook sends that same animation. */
  lemma ReplayedNodeSendsIt(a: byte)
    requires a <= Retract
    ensures Hook(Replay(a)[0].node) == Some(a)
  {
  }

  /** A Fool Eater that never received an update resumes with "Snap". */
  lemma NeverUpdatedResumesSnap()
    ensures Resume(0) == Some((Main, "Snap"))
  {}

  class FoolEater {
    var lastAnimation: byte
    var effects: seq<Effect>

    constructor ()
      ensures lastAnimation == Ready && effects == []
    {
      lastAnimation := 0;
      effects := [];
    }

    method InternalInitializeAsSceneHost()
      modifies this
      ensures lastAnimation == old(lastAnimation)
      ensures effects == old(effects) + [SendStateUpdate(Active)]
    {
      effects := effects + [SendStateUpdate(Active)];
    }

    method InternalInitializeAsSceneClient(stateIndex: Option<byte>)
      modifies this
      ensures lastAnimation == old(lastAnimation)
      ensures effects == old(effects) + ClientInit(stateIndex)
    {
      effects := effects + [RemoveAllTransitions(Main)];
      if stateIndex == Some(1) {
        effects := effects + [Deactivate];
      }
    }

    method HealthManagerOnDieHook()
      modifies this
      ensures lastAnimation == old(lastAnimation)
      ensures effects == old(effects) + [BaseDieHook, SendStateUpdate(Dead)]
    {
      effects := effects + [BaseDieHook, SendStateUpdate(Dead)];
    }

    method InternalSwitchToSceneHost()
      modifies this
      ensures lastAnimation == old(lastAnimation)
      ensures effects == old(effects) + [RestoreAllTransitions(Main)] + Forced(Resume(lastAnimation))
    {
      effects := effects + [RestoreAllTransitions(Main)] + Forced(Resume(lastAnimation));
    }

    method UpdateAnimation(animationIndex: byte, animationInfo: seq<byte>)
      modifies this
      ensures lastAnimation == animationIndex
      ensures effects == old(effects) + [BaseUpdateAnimation(animationIndex, animationInfo)] + Replay(animationIndex)
    {
      effects := effects + [BaseUpdateAnimation(animationIndex, animationInfo)];
      lastAnimation := animationIndex;
      effects := effects + Replay(animationIndex);
    }

    /** State updates are ignored by this enemy. */
    method UpdateState(stateIndex: byte)
    {
    }
  }
}
