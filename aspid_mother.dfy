/** Aspid Mother: a "Hatcher" state machine plus a Burst clip sent and replayed through the
    sprite animator. */
module AspidMother {
  import opened Common

  // State enum
  const Active: byte := 0
  const Dead: byte := 1

  // Animation enum
  const DFly: byte := 0
  const Fire: byte := 1
  const FireLong: byte := 2
  const Idle: byte := 3
  const TurnToFly: byte := 4
  const Burst: byte := 5
  const Anticipate: byte := 6

  /** Host side: the animation index sent when the state machine enters `node`. The client
      replays the index on that same node. */
  function Hook(node: string): (r: Option<byte>)
    ensures r.Some? ==> r.value <= Anticipate
    ensures r.Some? ==> Resume(r.value).Some?
    ensures r.Some? ==> |Replay(r.value)| == 1 && StartsOnNode(Replay(r.value), node)
  {
    if node == "Distance Fly" then Some(DFly)
    else if node == "Fire Anticipate" then Some(Anticipate)
    else if node == "Idle" then Some(Idle)
    else if node == "Fire" then Some(Fire)
    else None
  }

  /** Host side: the index sent when the sprite animator starts the clip named `clip`. */
  function ClipHook(clip: string): (r: Option<byte>)
    ensures r.Some? <==> clip in {"Burst"}
    ensures r.Some? ==> PlayClip(clip) in Replay(r.value)
    ensures r.Some? ==> (Resume(r.value).None? <==> r.value == Burst)
  {
    if clip == "Burst" then Some(Burst)
    else None
  }

  /** The state the reconciliation switch forces when this client becomes scene host,
      given the last animation it received. */
  function Resume(a: byte): (r: Option<(Fsm, string)>)
    ensures r.None? <==> a in {FireLong, TurnToFly, Burst} || a > Anticipate
    ensures r.Some? ==> r.value.0 == Main
  {
    if a == DFly then Some((Main, "Hatched Max Check"))
    else if a == Fire then Some((Main, "Distance Fly"))
    else if a == Anticipate then Some((Main, "Fire"))
    else if a == Idle then Some((Main, "Distance Fly"))
    else None
  }

  /** Client side: what receiving animation `a` replays, after the base call. */
  function Replay(a: byte): (r: seq<Effect>)
    ensures r == [] <==> a in {FireLong, TurnToFly} || a > Anticipate
    ensures a in {DFly, Fire, Idle, Anticipate} ==> |r| == 1 && r[0].ExecuteActions? && r[0].fsm == Main
  {
    if a == DFly then [Exec("Distance Fly", [1, 2, 3])]
    else if a == Fire then [Exec("Fire", [1, 2, 3, 4, 5, 6, 7, 8, 9, 10, 11])]
    else if a == Idle then [Exec("Idle", [1, 2])]
    else if a == Anticipate then [Exec("Fire Anticipate", [2])]
    else if a == Burst then [PlayClip("Burst")]
    else []
  }

  /** Client initialisation: switch the animator off, freeze the FSM and hide the object
      exactly when the scene reports it dead. */
  function ClientInit(state: Option<byte>): (r: seq<Effect>)
    ensures Deactivate in r <==> state == Some(Dead)
    ensures |r| >= 2 && r[..2] == [SetAnimatorEnabled(false), RemoveAllTransitions(Main)]
  {
    [SetAnimatorEnabled(false), RemoveAllTransitions(Main)] + DeactivateIf(state == Some(Dead))
  }

  /** Hook and Replay are inverse: the node an animation is replayed on is a node
      whose hook sends that same animation. */
  lemma ReplayedNodeSendsIt(a: byte)
    requires a in {DFly, Fire, Idle, Anticipate}
    ensures Hook(Replay(a)[0].node) == Some(a)
  {
  }

  /** A mother that never received an update resumes from "Hatched Max Check". */
  lemma NeverUpdatedResumesHatchedMaxCheck()
    ensures Resume(0) == Some((Main, "Hatched Max Check"))
  {}

  class AspidMother {
    var lastAnimation: byte
    var effects: seq<Effect>

    constructor ()
      ensures lastAnimation == DFly && effects == []
    {
      lastAnimation := 0;
      effects := [];
    }

    method InternalInitializeAsSceneHost()
      modifies this
      ensures lastAnimation == old(lastAnimation)
      ensures effects == old(effects) + [SendStateUpdate(Active), SetAnimatorEnabled(true)]
    {
      effects := effects + [SendStateUpdate(Active), SetAnimatorEnabled(true)];
    }

    method InternalInitializeAsSceneClient(stateIndex: Option<byte>)
      modifies this
      ensures lastAnimation == old(lastAnimation)
      ensures effects == old(effects) + ClientInit(stateIndex)
    {
      effects := effects + [SetAnimatorEnabled(false), RemoveAllTransitions(Main)];
      if stateIndex == Some(Dead) {
        effects := effects + [Deactivate];
      }
    }

    method HealthManagerOnDieHook()
      modifies this
      ensures lastAnimation == old(lastAnimation)
      ensures effects == old(effects) + [BaseDieHook, SendStateUpdate(Dead)]
    {
      effects := effects + [BaseDieHook, SendStateUpdate(Dead)];
    }

    method InternalSwitchToSceneHost()
      modifies this
      ensures lastAnimation == old(lastAnimation)
      ensures effects == old(effects) + [RestoreAllTransitions(Main), SetAnimatorEnabled(true)] + Forced(Resume(lastAnimation))
    {
      effects := effects + [RestoreAllTransitions(Main), SetAnimatorEnabled(true)] + Forced(Resume(lastAnimation));
    }

    method UpdateAnimation(animationIndex: byte, animationInfo: seq<byte>)
      modifies this
      ensures lastAnimation == animationIndex
      ensures effects == old(effects) + [BaseUpdateAnimation(animationIndex, animationInfo)] + Replay(animationIndex)
    {
      effects := effects + [BaseUpdateAnimation(animationIndex, animationInfo)];
      lastAnimation := animationIndex;
      effects := effects + Replay(animationIndex);
    }

    /** State updates are ignored by this enemy. */
    method UpdateState(stateIndex: byte)
    {
    }
  }
}
