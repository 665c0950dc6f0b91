/** Vengefly: a "chaser" state machine with a total resume table. */
module Vengefly {
  import opened Common

  // State enum
  const Active: byte := 0
  const Dead: byte := 1

  // Animation enum
  const Idle: byte := 0
  const Startle: byte := 1
  const Chase: byte := 2
  const Chase1: byte := 3
  const Chase2: byte := 4
  const Stop: byte := 5

  /** Host side: the animation index sent when the state machine enters `node`. The client
      replays the index on that same node. */
  function Hook(node: string): (r: Option<byte>)
    ensures r.Some? ==> r.value <= Stop
    ensures r.Some? ==> Resume(r.value).Some?
    ensures r.Some? ==> |Replay(r.value)| == 1 && StartsOnNode(Replay(r.value), node)
  {
    if node == "Idle" then Some(Idle)
    else if node == "Startle" then Some(Startle)
    else if node == "Chase Start" then Some(Chase)
    else if node == "Chase - In Sight" then Some(Chase1)
    else if node == "Chase - Out of Sight" then Some(Chase2)
    else if node == "Stop" then Some(Stop)
    else None
  }

  /** The state the reconciliation switch forces when this client becomes scene host,
      given the last animation it received. */
  function Resume(a: byte): (r: Option<(Fsm, string)>)
    ensures r.None? <==> a > Stop
    ensures r.Some? ==> r.value.0 == Main
  {
    if a == Startle then Some((Main, "Chase Start"))
    else if a == Idle then Some((Main, "Idle"))
    else if a == Chase then Some((Main, "Chase - In Sight"))
    else if a == Chase1 then Some((Main, "Chase - Out of Sight"))
    else if a == Chase2 then Some((Main, "Stop"))
    else if a == Stop then Some((Main, "Idle"))
    else None
  }

  /** Client side: what receiving animation `a` replays, after the base call. */
  function Replay(a: byte): (r: seq<Effect>)
    ensures r == [] <==> a > Stop
    ensures a <= Stop ==> |r| == 1 && r[0].ExecuteActions? && r[0].fsm == Main
  {
    if a == Idle then [Exec("Idle", [1, 3])]
    else if a == Startle then [Exec("Startle", [1, 3])]
    else if a == Chase then [Exec("Chase Start", [1, 2, 3])]
    else if a == Chase1 then [Exec("Chase - In Sight", [1])]
    else if a == Chase2 then [Exec("Chase - Out of Sight", [2])]
    else if a == Stop then [Exec("Stop", [1, 2, 3])]
    else []
  }

  /** Client initialisation: freeze the FSM and hide the object exactly when the scene
      reports it dead. */
  function ClientInit(state: Option<byte>): (r: seq<Effect>)
    ensures Deactivate in r <==> state == Some(Dead)
    ensures |r| >= 1 && r[..1] == [RemoveAllTransitions(Main)]
  {
    [RemoveAllTransitions(Main)] + DeactivateIf(state == Some(Dead))
  }

  /** Hook and Replay are inverse: the node an animation is replayed on is a node
      whose hook sends that same animation. */
  lemma ReplayedNodeSendsIt(a: byte)
    requires a <= Stop
    ensures Hook(Replay(a)[0].node) == Some(a)
  {
    if a in {Idle, Startle, Chase, Chase1} {
      ReplayedNodeSendsItIdleToChase1(a);
    } else {
      ReplayedNodeSendsItChase2ToStop(a);
    }
  }

  // The helpers below only split the case analysis of ReplayedNodeSendsIt into parts
  // small enough for the solver.

  lemma ReplayedNodeSendsItIdleToChase1(a: byte)
    requires a in {Idle, Startle, Chase, Chase1}
    ensures Hook(Replay(a)[0].node) == Some(a)
  {
  }

  lemma ReplayedNodeSendsItChase2ToStop(a: byte)
    requires a in {Chase2, Stop}
    ensures Hook(Replay(a)[0].node) == Some(a)
  {
  }

  /** A vengefly that never received an update resumes in "Idle". */
  lemma NeverUpdatedResumesIdle()
    ensures Resume(0) == Some((Main, "Idle"))
  {}

  class Vengefly {
    var lastAnimation: byte
    var effects: seq<Effect>

    constructor ()
      ensures lastAnimation == Idle && effects == []
    {
      lastAnimation := 0;
      effects := [];
    }

    method InternalInitializeAsSceneHost()
      modifies this
      ensures lastAnimation == old(lastAnimation)
      ensures effects == old(effects) + [SendStateUpdate(Active)]
    {
      effects := effects + [SendStateUpdate(Active)];
    }

    method InternalInitializeAsSceneClient(stateIndex: Option<byte>)
      modifies this
      ensures lastAnimation == old(lastAnimation)
      ensures effects == old(effects) + ClientInit(stateIndex)
    {
      effects := effects + [RemoveAllTransitions(Main)];
      if stateIndex == Some(Dead) {
        effects := effects + [Deactivate];
      }
    }

    method HealthManagerOnDieHook()
      modifies this
      ensures lastAnimation == old(lastAnimation)
      ensures effects == old(effects) + [BaseDieHook, SendStateUpdate(Dead)]
    {
      effects := effects + [BaseDieHook, SendStateUpdate(Dead)];
    }

    method InternalSwitchToSceneHost()
      modifies this
      ensures lastAnimation == old(lastAnimation)
      ensures effects == old(effects) + [RestoreAllTransitions(Main)] + Forced(Resume(lastAnimation))
    {
      effects := effects + [RestoreAllTransitions(Main)] + Forced(Resume(lastAnimation));
    }

    method UpdateAnimation(animationIndex: byte, animationInfo: seq<byte>)
      modifies this
      ensures lastAnimation == animationIndex
      ensures effects == old(effects) + [BaseUpdateAnimation(animationIndex, animationInfo)] + Replay(animationIndex)
    {
      effects := effects + [BaseUpdateAnimation(animationIndex, animationInfo)];
      lastAnimation := animationIndex;
      effects := effects + Replay(animationIndex);
    }

    /** State updates are ignored by this enemy. */
    method UpdateState(stateIndex: byte)
    {
    }
  }
}
