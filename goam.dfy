/** Goam: a "Worm Control" state machine whose replays run whole nodes, without the base
    animation call. */
module Goam {
  import opened Common

  // State enum
  const Active: byte := 0

  // Animation enum
  const Idle: byte := 0
  const Retract: byte := 1
  const Down: byte := 2
  const Burst: byte := 3

  /** Host side: the animation index sent when the state machine enters `node`. The client
      replays the index on that same node. */
  function Hook(node: string): (r: Option<byte>)
    ensures r.Some? ==> r.value <= Burst
    ensures r.Some? ==> Resume(r.value).Some?
    ensures r.Some? ==> |Replay(r.value)| == 1 && StartsOnNode(Replay(r.value), node)
  {
    if node == "Retract" then Some(Retract)
    else if node == "Down" then Some(Down)
    else if node == "Burst" then Some(Burst)
    else if node == "Up" then Some(Idle)
    else None
  }

  /** The state the reconciliation switch forces when this client becomes scene host,
      given the last animation it received. */
  function Resume(a: byte): (r: Option<(Fsm, string)>)
    ensures r.None? <==> a > Burst
    ensures r.Some? ==> r.value.0 == Main
  {
    if a == Retract then Some((Main, "Down"))
    else if a == Idle then Some((Main, "Retract"))
    else if a == Down then Some((Main, "Burst Rocks?"))
    else if a == Burst then Some((Main, "Up"))
    else None
  }

  /** Client side: what receiving animation `a` replays. */
  function Replay(a: byte): (r: seq<Effect>)
    ensures r == [] <==> a > Burst
    ensures a <= Burst ==> |r| == 1 && r[0].ExecuteActions? && r[0].fsm == Main
  {
    if a == Idle then [Exec("Up", [])]
    else if a == Burst then [Exec("Burst", [])]
    else if a == Down then [Exec("Down", [])]
    else if a == Retract then [Exec("Retract", [])]
    else []
  }

  /** Client initialisation: switch the animator off, freeze the FSM, and hide the object
      when the state index is 1, a value the State enum (Active = 0 only) does not declare. */
  function ClientInit(state: Option<byte>): (r: seq<Effect>)
    ensures Deactivate in r <==> state == Some(1)
    ensures |r| >= 2 && r[..2] == [SetAnimatorEnabled(false), RemoveAllTransitions(Main)]
  {
    [SetAnimatorEnabled(false), RemoveAllTransitions(Main)] + DeactivateIf(state == Some(1))
  }

  /** Hook and Replay are inverse: the node an animation is replayed on is a node
      whose hook sends that same animation. */
  lemma ReplayedNodeSendsIt(a: byte)
    requires a <= Burst
    ensures Hook(Replay(a)[0].node) == Some(a)
  {
  }

  /** A Goam that never received an update resumes from "Retract". */
  lemma NeverUpdatedResumesRetract()
    ensures Resume(0) == Some((Main, "Retract"))
  {}

  class Goam {
    var lastAnimation: byte
    var effects: seq<Effect>

    constructor ()
      ensures lastAnimation == Idle && effects == []
    {
      lastAnimation := 0;
      effects := [];
    }

    method InternalInitializeAsSceneHost()
      modifies this
      ensures lastAnimation == old(lastAnimation)
      ensures effects == old(effects) + [SendStateUpdate(Active), SetAnimatorEnabled(true)]
    {
      effects := effects + [SendStateUpdate(Active), SetAnimatorEnabled(true)];
    }

    method InternalInitializeAsSceneClient(stateIndex: Option<byte>)
      modifies this
      ensures lastAnimation == old(lastAnimation)
      ensures effects == old(effects) + ClientInit(stateIndex)
    {
      effects := effects + [SetAnimatorEnabled(false), RemoveAllTransitions(Main)];
      if stateIndex == Some(1) {
        effects := effects + [Deactivate];
      }
    }

    method InternalSwitchToSceneHost()
      modifies this
      ensures lastAnimation == old(lastAnimation)
      ensures effects == old(effects) + [RestoreAllTransitions(Main), SetAnimatorEnabled(true)] + Forced(Resume(lastAnimation))
    {
      effects := effects + [RestoreAllTransitions(Main), SetAnimatorEnabled(true)] + Forced(Resume(lastAnimation));
    }

    method UpdateAnimation(animationIndex: byte, animationInfo: seq<byte>)
      modifies this
      ensures lastAnimation == animationIndex
      ensures effects == old(effects) + Replay(animationIndex)
    {
      lastAnimation := animationIndex;
      effects := effects + Replay(animationIndex);
    }

    /** State updates are ignored by this enemy. */
    method UpdateState(stateIndex: byte)
    {
    }
  }
}
