/** Aspid Hunter: a "spitter" state machine plus a sprite animator that the client switches
    off. */
module AspidHunter {
  import opened Common

  // State enum
  const Active: byte := 0
  const Dead: byte := 1

  // Animation enum
  const Fly: byte := 0
  const Fire: byte := 1
  const FireLong: byte := 2
  const Idle: byte := 3
  const TurnToFly: byte := 4
  const DFly: byte := 5
  const DFly2: byte := 6
  const FireAnticipate: byte := 7
  const Alert: byte := 8
  const FlyBack: byte := 9
  const FireDribble: byte := 10

  /** Host side: the animation index sent when the state machine enters `node`. The client
      replays the index on that same node. */
  function Hook(node: string): (r: Option<byte>)
    ensures r.Some? ==> r.value <= FireDribble
    ensures r.Some? ==> Resume(r.value).Some?
    ensures r.Some? ==> |Replay(r.value)| == 1 && StartsOnNode(Replay(r.value), node)
  {
    if node == "Distance Fly" then Some(DFly)
    else if node == "Distance Fly 2" then Some(DFly2)
    else if node == "Fire Anticipate" then Some(FireAnticipate)
    else if node == "Idle" then Some(Idle)
    else if node == "Alert" then Some(Alert)
    else if node == "Fly Back" then Some(FlyBack)
    else if node == "Fire" then Some(Fire)
    else if node == "Fire Dribble" then Some(FireDribble)
    else None
  }

  /** The state the reconciliation switch forces when this client becomes scene host,
      given the last animation it received. */
  function Resume(a: byte): (r: Option<(Fsm, string)>)
    ensures r.None? <==> a in {Fly, FireLong, TurnToFly} || a > FireDribble
    ensures r.Some? ==> r.value.0 == Main
  {
    if a == DFly then Some((Main, "Raycast"))
    else if a == DFly2 then Some((Main, "Distance Fly 2"))
    else if a == FireAnticipate then Some((Main, "Fire"))
    else if a == Fire then Some((Main, "FireDribble"))
    else if a == FireDribble then Some((Main, "Distance Fly"))
    else if a == FlyBack then Some((Main, "Fire Anticipate"))
    else if a == Idle then Some((Main, "Idle"))
    else if a == Alert then Some((Main, "Distance Fly"))
    else None
  }

  /** Client side: what receiving animation `a` replays, after the base call. */
  function Replay(a: byte): (r: seq<Effect>)
    ensures r == [] <==> a in {Fly, FireLong, TurnToFly} || a > FireDribble
    ensures a in {Fire, Idle, DFly, DFly2, FireAnticipate, Alert, FlyBack, FireDribble} ==> |r| == 1 && r[0].ExecuteActions? && r[0].fsm == Main
  {
    if a == DFly then [Exec("Distance Fly", [1, 2, 4])]
    else if a == DFly2 then [Exec("Distance Fly 2", [1, 2, 5])]
    else if a == FireAnticipate then [Exec("Fire Anticipate", [2])]
    else if a == Idle then [Exec("Idle", [1, 2, 3, 4])]
    else if a == Alert then [Exec("Alert", [1])]
    else if a == FlyBack then [Exec("Fly Back", [3])]
    else if a == Fire then [Exec("Fire", [1, 2, 3])]
    else if a == FireDribble then [Exec("Fire Dribble", [6])]
    else []
  }

  /** Client initialisation: switch the animator off, freeze the FSM and hide the object
      exactly when the scene reports it dead. */
  function ClientInit(state: Option<byte>): (r: seq<Effect>)
    ensures Deactivate in r <==> state == Some(Dead)
    ensures |r| >= 2 && r[..2] == [SetAnimatorEnabled(false), RemoveAllTransitions(Main)]
  {
    [SetAnimatorEnabled(false), RemoveAllTransitions(Main)] + DeactivateIf(state == Some(Dead))
  }

  /** Hook and Replay are inverse: the node an animation is replayed on is a node
      whose hook sends that same animation. */
  lemma ReplayedNodeSendsIt(a: byte)
    requires a in {Fire, Idle, DFly, DFly2, FireAnticipate, Alert, FlyBack, FireDribble}
    ensures Hook(Replay(a)[0].node) == Some(a)
  {
    if a in {Fire, Idle, DFly, DFly2} {
      ReplayedNodeSendsItFireToDFly2(a);
    } else {
      ReplayedNodeSendsItFireAnticipateToFireDribble(a);
    }
  }

  // The helpers below only split the case analysis of ReplayedNodeSendsIt into parts
  // small enough for the solver.

  lemma ReplayedNodeSendsItFireToDFly2(a: byte)
    requires a in {Fire, Idle, DFly, DFly2}
    ensures Hook(Replay(a)[0].node) == Some(a)
  {
  }

  lemma ReplayedNodeSendsItFireAnticipateToFireDribble(a: byte)
    requires a in {FireAnticipate, Alert, FlyBack, FireDribble}
    ensures Hook(Replay(a)[0].node) == Some(a)
  {
  }

  /** Fly is 0, so a hunter that never received an update is forced into no state. */
  lemma NeverUpdatedForcesNothing()
    ensures Resume(0) == None
  {}

  class AspidHunter {
    var lastAnimation: byte
    var effects: seq<Effect>

    constructor ()
      ensures lastAnimation == Fly && effects == []
    {
      lastAnimation := 0;
      effects := [];
    }

    method InternalInitializeAsSceneHost()
      modifies this
      ensures lastAnimation == old(lastAnimation)
      ensures effects == old(effects) + [SendStateUpdate(Active), SetAnimatorEnabled(true)]
    {
      effects := effects + [SendStateUpdate(Active), SetAnimatorEnabled(true)];
    }

    method InternalInitializeAsSceneClient(stateIndex: Option<byte>)
      modifies this
      ensures lastAnimation == old(lastAnimation)
      ensures effects == old(effects) + ClientInit(stateIndex)
    {
      effects := effects + [SetAnimatorEnabled(false), RemoveAllTransitions(Main)];
      if stateIndex == Some(Dead) {
        effects := effects + [Deactivate];
      }
    }

    method HealthManagerOnDieHook()
      modifies this
      ensures lastAnimation == old(lastAnimation)
      ensures effects == old(effects) + [BaseDieHook, SendStateUpdate(Dead)]
    {
      effects := effects + [BaseDieHook, SendStateUpdate(Dead)];
    }

    method InternalSwitchToSceneHost()
      modifies this
      ensures lastAnimation == old(lastAnimation)
      ensures effects == old(effects) + [RestoreAllTransitions(Main), SetAnimatorEnabled(true)] + Forced(Resume(lastAnimation))
    {
      effects := effects + [RestoreAllTransitions(Main), SetAnimatorEnabled(true)] + Forced(Resume(lastAnimation));
    }

    method UpdateAnimation(animationIndex: byte, animationInfo: seq<byte>)
      modifies this
      ensures lastAnimation == animationIndex
      ensures effects == old(effects) + [BaseUpdateAnimation(animationIndex, animationInfo)] + Replay(animationIndex)
    {
      effects := effects + [BaseUpdateAnimation(animationIndex, animationInfo)];
      lastAnimation := animationIndex;
      effects := effects + Replay(animationIndex);
    }

    /** State updates are ignored by this enemy. */
    method UpdateState(stateIndex: byte)
    {
    }
  }
}
