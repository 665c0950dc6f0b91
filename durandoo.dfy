/** Durandoo: an "Acid Walker" state machine with a total resume table. */
module Durandoo {
  import opened Common

  // State enum
  const Active: byte := 0
  const Dead: byte := 1

  // Animation enum
  const StartWalk: byte := 0
  const Blocked: byte := 1
  const Walk: byte := 2
  const Turn: byte := 3

  /** Host side: the animation index sent when the state machine enters `node`. Apart from
      "Blocked Down", whose index is replayed on node "Blocked", the client replays the
      index on that same node. */
  function Hook(node: string): (r: Option<byte>)
    ensures r.Some? ==> r.value <= Turn
    ensures r.Some? ==> Resume(r.value).Some?
    ensures r.Some? && node !in {"Blocked Down"} ==> |Replay(r.value)| == 1 && StartsOnNode(Replay(r.value), node)
  {
    if node == "Start Walk" then Some(StartWalk)
    else if node == "Blocked Down" then Some(Blocked)
    else if node == "Walk" then Some(Walk)
    else if node == "Turn" then Some(Turn)
    else None
  }

  /** The state the reconciliation switch forces when this client becomes scene host,
      given the last animation it received. */
  function Resume(a: byte): (r: Option<(Fsm, string)>)
    ensures r.None? <==> a > Turn
    ensures r.Some? ==> r.value.0 == Main
  {
    if a == StartWalk then Some((Main, "Walk"))
    else if a == Blocked then Some((Main, "Walk"))
    else if a == Walk then Some((Main, "Walk"))
    else if a == Turn then Some((Main, "Flip"))
    else None
  }

  /** Client side: what receiving animation `a` replays, after the base call. */
  function Replay(a: byte): (r: seq<Effect>)
    ensures r == [] <==> a > Turn
    ensures a <= Turn ==> |r| == 1 && r[0].ExecuteActions? && r[0].fsm == Main
  {
    if a == StartWalk then [Exec("Start Walk", [2])]
    else if a == Blocked then [Exec("Blocked", [1, 2, 3])]
    else if a == Walk then [Exec("Walk", [1])]
    else if a == Turn then [Exec("Turn", [1])]
    else []
  }

  /** Client initialisation: freeze the FSM and hide the object exactly when the scene
      reports it dead. */
  function ClientInit(state: Option<byte>): (r: seq<Effect>)
    ensures Deactivate in r <==> state == Some(Dead)
    ensures |r| >= 1 && r[..1] == [RemoveAllTransitions(Main)]
  {
    [RemoveAllTransitions(Main)] + DeactivateIf(state == Some(Dead))
  }

  /** Hook and Replay are inverse: the node an animation is replayed on is a node
      whose hook sends that same animation. */
  lemma ReplayedNodeSendsIt(a: byte)
    requires a in {StartWalk, Walk, Turn}
    ensures Hook(Replay(a)[0].node) == Some(a)
  {
  }

  /** A Durandoo that never received an update resumes with "Walk". */
  lemma NeverUpdatedResumesWalk()
    ensures Resume(0) == Some((Main, "Walk"))
  {}

  /** Blocked is sent from node "Blocked Down" but replayed on node "Blocked". */
  lemma BlockedReplayedElsewhere()
    ensures Hook("Blocked Down") == Some(Blocked)
    ensures Replay(Blocked) == [Exec("Blocked", [1, 2, 3])] && Hook("Blocked").None?
  {
  }

  class Durandoo {
    var lastAnimation: byte
    var effects: seq<Effect>

    constructor ()
      ensures lastAnimation == StartWalk && effects == []
    {
      lastAnimation := 0;
      effects := [];
    }

    method InternalInitializeAsSceneHost()
      modifies this
      ensures lastAnimation == old(lastAnimation)
      ensures effects == old(effects) + [SendStateUpdate(Active)]
    {
      effects := effects + [SendStateUpdate(Active)];
    }

    method InternalInitializeAsSceneClient(stateIndex: Option<byte>)
      modifies this
      ensures lastAnimation == old(lastAnimation)
      ensures effects == old(effects) + ClientInit(stateIndex)
    {
      effects := effects + [RemoveAllTransitions(Main)];
      if stateIndex == Some(Dead) {
        effects := effects + [Deactivate];
      }
    }

    method HealthManagerOnDieHook()
      modifies this
      ensures lastAnimation == old(lastAnimation)
      ensures effects == old(effects) + [BaseDieHook, SendStateUpdate(Dead)]
    {
      effects := effects + [BaseDieHook, SendStateUpdate(Dead)];
    }

    method InternalSwitchToSceneHost()
      modifies this
      ensures lastAnimation == old(lastAnimation)
      ensures effects == old(effects) + [RestoreAllTransitions(Main)] + Forced(Resume(lastAnimation))
    {
      effects := effects + [RestoreAllTransitions(Main)] + Forced(Resume(lastAnimation));
    }

    method UpdateAnimation(animationIndex: byte, animationInfo: seq<byte>)
      modifies this
      ensures lastAnimation == animationIndex
      ensures effects == old(effects) + [BaseUpdateAnimation(animationIndex, animationInfo)] + Replay(animationIndex)
    {
      effects := effects + [BaseUpdateAnimation(animationIndex, animationInfo)];
      lastAnimation := animationIndex;
      effects := effects + Replay(animationIndex);
    }

    /** State updates are ignored by this enemy. */
    method UpdateState(stateIndex: byte)
    {
    }
  }
}
