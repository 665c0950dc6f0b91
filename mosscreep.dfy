/** Mosscreep: a "Moss Walker" state machine; its walk and idle indices are declared but
    never sent. */
module Mosscreep {
  import opened Common

  // State enum
  const Active: byte := 0
  const Dead: byte := 1

  // Animation enum
  const Walk: byte := 0
  const Idle: byte := 1
  const Shake: byte := 2
  const Wake: byte := 3
  const WalkStart: byte := 4
  const Turn: byte := 5
  const Hide: byte := 6

  /** Host side: the animation index sent when the state machine enters `node`. Apart from
      "Walk Start", whose index is replayed on node "WalkStart", the client replays the
      index on that same node. */
  function Hook(node: string): (r: Option<byte>)
    ensures r.Some? ==> r.value <= Hide
    ensures r.Some? ==> Resume(r.value).Some?
    ensures r.Some? && node !in {"Walk Start"} ==> |Replay(r.value)| == 1 && StartsOnNode(Replay(r.value), node)
  {
    if node == "Shake" then Some(Shake)
    else if node == "Wake" then Some(Wake)
    else if node == "Walk Start" then Some(WalkStart)
    else if node == "Turn" then Some(Turn)
    else if node == "Hide" then Some(Hide)
    else None
  }

  /** The state the reconciliation switch forces when this client becomes scene host,
      given the last animation it received. */
  function Resume(a: byte): (r: Option<(Fsm, string)>)
    ensures r.None? <==> a in {Walk, Idle} || a > Hide
    ensures r.Some? ==> r.value.0 == Main
  {
    if a == Shake then Some((Main, "Wake"))
    else if a == Wake then Some((Main, "Activate"))
    else if a == WalkStart then Some((Main, "WalkStart"))
    else if a == Turn then Some((Main, "Flip"))
    else if a == Hide then Some((Main, "Rest"))
    else None
  }

  /** Client side: what receiving animation `a` replays, after the base call. */
  function Replay(a: byte): (r: seq<Effect>)
    ensures r == [] <==> a in {Walk, Idle} || a > Hide
    ensures a in {Shake, Wake, WalkStart, Turn, Hide} ==> |r| == 1 && r[0].ExecuteActions? && r[0].fsm == Main
  {
    if a == Shake then [Exec("Shake", [1, 2, 3])]
    else if a == Wake then [Exec("Wake", [2, 3])]
    else if a == WalkStart then [Exec("WalkStart", [1, 2, 4])]
    else if a == Turn then [Exec("Turn", [1])]
    else if a == Hide then [Exec("Hide", [1, 2, 3, 5, 6])]
    else []
  }

  /** Client initialisation: freeze the FSM and hide the object exactly when the scene
      reports it dead. */
  function ClientInit(state: Option<byte>): (r: seq<Effect>)
    ensures Deactivate in r <==> state == Some(Dead)
    ensures |r| >= 1 && r[..1] == [RemoveAllTransitions(Main)]
  {
    [RemoveAllTransitions(Main)] + DeactivateIf(state == Some(Dead))
  }

  /** Hook and Replay are inverse: the node an animation is replayed on is a node
      whose hook sends that same animation. */
  lemma ReplayedNodeSendsIt(a: byte)
    requires a in {Shake, Wake, Turn, Hide}
    ensures Hook(Replay(a)[0].node) == Some(a)
  {
  }

  /** Walk is 0, so a Mosscreep that never received an update is forced into no state. */
  lemma NeverUpdatedForcesNothing()
    ensures Resume(0) == None
  {}

  /** The index sent from "Walk Start" is replayed on a node spelt "WalkStart", which is
      not a hooked node. */
  lemma WalkStartReplayedElsewhere()
    ensures Hook("Walk Start") == Some(WalkStart)
    ensures Replay(WalkStart)[0].node == "WalkStart" && Hook("WalkStart").None?
  {
  }

  class Mosscreep {
    var lastAnimation: byte
    var effects: seq<Effect>

    constructor ()
      ensures lastAnimation == Walk && effects == []
    {
      lastAnimation := 0;
      effects := [];
    }

    method InternalInitializeAsSceneHost()
      modifies this
      ensures lastAnimation == old(lastAnimation)
      ensures effects == old(effects) + [SendStateUpdate(Active)]
    {
      effects := effects + [SendStateUpdate(Active)];
    }

    method InternalInitializeAsSceneClient(stateIndex: Option<byte>)
      modifies this
      ensures lastAnimation == old(lastAnimation)
      ensures effects == old(effects) + ClientInit(stateIndex)
    {
      effects := effects + [RemoveAllTransitions(Main)];
      if stateIndex == Some(Dead) {
        effects := effects + [Deactivate];
      }
    }

    method HealthManagerOnDieHook()
      modifies this
      ensures lastAnimation == old(lastAnimation)
      ensures effects == old(effects) + [BaseDieHook, SendStateUpdate(Dead)]
    {
      effects := effects + [BaseDieHook, SendStateUpdate(Dead)];
    }

    method InternalSwitchToSceneHost()
      modifies this
      ensures lastAnimation == old(lastAnimation)
      ensures effects == old(effects) + [RestoreAllTransitions(Main)] + Forced(Resume(lastAnimation))
    {
      effects := effects + [RestoreAllTransitions(Main)] + Forced(Resume(lastAnimation));
    }

    method UpdateAnimation(animationIndex: byte, animationInfo: seq<byte>)
      modifies this
      ensures lastAnimation == animationIndex
      ensures effects == old(effects) + [BaseUpdateAnimation(animationIndex, animationInfo)] + Replay(animationIndex)
    {
      effects := effects + [BaseUpdateAnimation(animationIndex, animationInfo)];
      lastAnimation := animationIndex;
      effects := effects + Replay(animationIndex);
    }

    /** State updates are ignored by this enemy. */
    method UpdateState(stateIndex: byte)
    {
    }
  }
}
