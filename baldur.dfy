/** Baldur: a "Roller" state machine with a total resume table; both roll nodes and both
    collide nodes share an index. */
module Baldur {
  import opened Common

  // State enum
  const Active: byte := 0
  const Dead: byte := 1

  // Animation enum
  const Idle: byte := 0
  const Stop: byte := 1
  const Start: byte := 2
  const Roll: byte := 3
  const Collide: byte := 4
  const LoR: byte := 5
  const Land: byte := 6

  /** Host side: the animation index sent when the state machine enters `node`. The
      right-hand roll and collide nodes, "Stop", "Start" and "Rest" are replayed on the node
      that sends them. */
  function Hook(node: string): (r: Option<byte>)
    ensures r.Some? ==> r.value <= Land
    ensures r.Some? ==> Resume(r.value).Some?
    ensures r.Some? && node !in {"Roll L", "Collide Left", "Land", "Left or right?"} ==> |Replay(r.value)| == 1 && StartsOnNode(Replay(r.value), node)
  {
    if node == "Stop" then Some(Stop)
    else if node == "Start" then Some(Start)
    else if node == "Roll R" then Some(Roll)
    else if node == "Roll L" then Some(Roll)
    else if node == "Collide Right" then Some(Collide)
    else if node == "Collide Left" then Some(Collide)
    else if node == "Land" then Some(Land)
    else if node == "Left or right?" then Some(LoR)
    else if node == "Rest" then Some(Idle)
    else None
  }

  /** The state the reconciliation switch forces when this client becomes scene host,
      given the last animation it received. */
  function Resume(a: byte): (r: Option<(Fsm, string)>)
    ensures r.None? <==> a > Land
    ensures r.Some? ==> r.value.0 == Main
  {
    if a == Start then Some((Main, "Left or right?"))
    else if a == LoR then Some((Main, "Left or right?"))
    else if a == Land then Some((Main, "Left or right?"))
    else if a == Roll then Some((Main, "Stop"))
    else if a == Stop then Some((Main, "Rest"))
    else if a == Idle then Some((Main, "Idle"))
    else if a == Collide then Some((Main, "In Air"))
    else None
  }

  /** Client side: what receiving animation `a` replays, after the base call. */
  function Replay(a: byte): (r: seq<Effect>)
    ensures r == [] <==> a > Land
    ensures a <= Land ==> |r| == 1 && r[0].ExecuteActions? && r[0].fsm == Main
  {
    if a == Start then [Exec("Start", [1, 3, 4])]
    else if a == LoR then [Exec("Left or Right?", [1, 2, 3])]
    else if a == Idle then [Exec("Rest", [1])]
    else if a == Land then [Exec("Start", [1, 2])]
    else if a == Collide then [Exec("Collide Right", [1, 2, 7])]
    else if a == Roll then [Exec("Roll R", [2])]
    else if a == Stop then [Exec("Stop", [1, 2, 4, 5])]
    else []
  }

  /** Client initialisation: freeze the FSM, and hide the object when the state index is 1
      (the source compares with the literal 1, which is Dead). */
  function ClientInit(state: Option<byte>): (r: seq<Effect>)
    ensures Deactivate in r <==> state == Some(1)
    ensures |r| >= 1 && r[..1] == [RemoveAllTransitions(Main)]
  {
    [RemoveAllTransitions(Main)] + DeactivateIf(state == Some(1))
  }

  /** Hook and Replay are inverse: the node an animation is replayed on is a node
      whose hook sends that same animation. */
  lemma ReplayedNodeSendsIt(a: byte)
    requires a in {Idle, Stop, Start, Roll, Collide}
    ensures Hook(Replay(a)[0].node) == Some(a)
  {
    if a in {Idle, Stop, Start, Roll} {
      ReplayedNodeSendsItIdleToRoll(a);
    } else {
      ReplayedNodeSendsItCollideToCollide(a);
    }
  }

  // The helpers below only split the case analysis of ReplayedNodeSendsIt into parts
  // small enough for the solver.

  lemma ReplayedNodeSendsItIdleToRoll(a: byte)
    requires a in {Idle, Stop, Start, Roll}
    ensures Hook(Replay(a)[0].node) == Some(a)
  {
  }

  lemma ReplayedNodeSendsItCollideToCollide(a: byte)
    requires a == Collide
    ensures Hook(Replay(a)[0].node) == Some(a)
  {
  }

  /** A Baldur that never received an update resumes in "Idle". */
  lemma NeverUpdatedResumesIdle()
    ensures Resume(0) == Some((Main, "Idle"))
  {}

  /** Both roll nodes send Roll, both collide nodes send Collide and "Rest" sends Idle. */
  lemma SharedHookIndices()
    ensures Hook("Roll R") == Hook("Roll L") == Some(Roll)
    ensures Hook("Collide Right") == Hook("Collide Left") == Some(Collide)
    ensures Hook("Rest") == Some(Idle)
  {
  }

  /** Land is replayed on node "Start", and LoR on "Left or Right?", a spelling no hook
      uses (the hooked node is "Left or right?"). */
  lemma LandAndLoRReplayedElsewhere()
    ensures Hook(Replay(Land)[0].node) == Some(Start)
    ensures Hook(Replay(LoR)[0].node).None? && Hook("Left or right?") == Some(LoR)
  {
  }

  class Baldur {
    var lastAnimation: byte
    var effects: seq<Effect>

    constructor ()
      ensures lastAnimation == Idle && effects == []
    {
      lastAnimation := 0;
      effects := [];
    }

    method InternalInitializeAsSceneHost()
      modifies this
      ensures lastAnimation == old(lastAnimation)
      ensures effects == old(effects) + [SendStateUpdate(Active)]
    {
      effects := effects + [SendStateUpdate(Active)];
    }

    method InternalInitializeAsSceneClient(stateIndex: Option<byte>)
      modifies this
      ensures lastAnimation == old(lastAnimation)
      ensures effects == old(effects) + ClientInit(stateIndex)
    {
      effects := effects + [RemoveAllTransitions(Main)];
      if stateIndex == Some(1) {
        effects := effects + [Deactivate];
      }
    }

    method HealthManagerOnDieHook()
      modifies this
      ensures lastAnimation == old(lastAnimation)
      ensures effects == old(effects) + [BaseDieHook, SendStateUpdate(Dead)]
    {
      effects := effects + [BaseDieHook, SendStateUpdate(Dead)];
    }

    method InternalSwitchToSceneHost()
      modifies this
      ensures lastAnimation == old(lastAnimation)
      ensures effects == old(effects) + [RestoreAllTransitions(Main)] + Forced(Resume(lastAnimation))
    {
      effects := effects + [RestoreAllTransitions(Main)] + Forced(Resume(lastAnimation));
    }

    method UpdateAnimation(animationIndex: byte, animationInfo: seq<byte>)
      modifies this
      ensures lastAnimation == animationIndex
      ensures effects == old(effects) + [BaseUpdateAnimation(animationIndex, animationInfo)] + Replay(animationIndex)
    {
      effects := effects + [BaseUpdateAnimation(animationIndex, animationInfo)];
      lastAnimation := animationIndex;
      effects := effects + Replay(animationIndex);
    }

    /** State updates are ignored by this enemy. */
    method UpdateState(stateIndex: byte)
    {
    }
  }
}
