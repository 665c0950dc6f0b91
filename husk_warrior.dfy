/** Husk Warrior (the shielded husk): a single "ZombieShieldControl" state machine
    plus a walker whose clips Idle, Walk and Turn are synchronised separately. */
module HuskWarrior {
  import opened Common

  // State enum
  const Active: byte := 0
  const Dead: byte := 1

  // Animation enum
  const Start: byte := 0
  const LHigh: byte := 1
  const LLow: byte := 2
  const RLow: byte := 3
  const RHigh: byte := 4
  const A1Antic: byte := 5
  const A1Lunge: byte := 6
  const A1Slash: byte := 7
  const A1End: byte := 8
  const BHigh: byte := 9
  const BLow: byte := 10
  const A3Antic: byte := 11
  const A3Lunge1: byte := 12
  const A3Slash1: byte := 13
  const A3CD1: byte := 14
  const A3Lunge2: byte := 15
  const A3CD2: byte := 16
  const A3Lunge3: byte := 17
  const A3Slash3: byte := 18
  const A3Stop: byte := 19
  const UHigh: byte := 20
  const ULow: byte := 21
  const Idle: byte := 22
  const Walk: byte := 23
  const Turn: byte := 24

  /** Host side: the animation index sent when the state machine enters `node`.
      Every hooked node is replayed by the client on that same node. */
  function Hook(node: string): (r: Option<byte>)
    ensures r.Some? ==> r.value < Idle && |Replay(r.value)| == 1 && StartsOnNode(Replay(r.value), node)
  {
    if node == "Shield Start" then Some(Start)
    else if node == "Shield Left High" then Some(LHigh)
    else if node == "Shield Left Low" then Some(LLow)
    else if node == "Shield Right High" then Some(RHigh)
    else if node == "Shield Right Low" then Some(RLow)
    else if node == "Attack1 Antic" then Some(A1Antic)
    else if node == "Attack1 End" then Some(A1End)
    else if node == "Attack1 Lunge" then Some(A1Lunge)
    else if node == "Attack1 Slash" then Some(A1Slash)
    else if node == "Block Low" then Some(BLow)
    else if node == "Block High" then Some(BHigh)
    else if node == "Attack3 Antic" then Some(A3Antic)
    else if node == "A3 Lunge 1" then Some(A3Lunge1)
    else if node == "A3 Slash 1" then Some(A3Slash1)
    else if node == "A3 CD 1" then Some(A3CD1)
    else if node == "A3 Lunge 2" then Some(A3Lunge2)
    else if node == "A3 CD2" then Some(A3CD2)
    else if node == "A3 Lunge 3" then Some(A3Lunge3)
    else if node == "A3 Slash3" then Some(A3Slash3)
    else if node == "A3 Stop1 3" then Some(A3Stop)
    else if node == "Unshield Low" then Some(ULow)
    else if node == "Unshield High" then Some(UHigh)
    else None
  }

  /** Host side: the index sent when the walker's sprite animator starts `clip`.
      The client plays the same clip back. */
  function ClipHook(clip: string): (r: Option<byte>)
    ensures r.Some? <==> clip in {"Idle", "Walk", "Turn"}
    ensures r.Some? ==> PlayClip(clip) in Replay(r.value)
  {
    if clip == "Idle" then Some(Idle)
    else if clip == "Walk" then Some(Walk)
    else if clip == "Turn" then Some(Turn)
    else None
  }

  /** The state the reconciliation switch forces when this client becomes scene host,
      given the last animation it received. */
  function Resume(a: byte): (r: Option<(Fsm, string)>)
    ensures r.None? <==> a == Idle || a == Turn || a > Turn
    ensures r.Some? ==> r.value.0 == Main
  {
    if a == Walk then Some((Main, "Reset"))
    else if a == Start then Some((Main, "Start"))
    else if a == LHigh then Some((Main, "Shield Left High"))
    else if a == LLow then Some((Main, "Shield Left Low"))
    else if a == RHigh then Some((Main, "Shield Right High"))
    else if a == RLow then Some((Main, "Shield Right Low"))
    else if a == A1Antic then Some((Main, "Attack1 Lunge"))
    else if a == A1Lunge then Some((Main, "Attack1 Slash"))
    else if a == A1Slash then Some((Main, "Attack 1 End"))
    else if a == A1End then Some((Main, "Reset"))
    else if a == BLow then Some((Main, "Attack 3 Antic"))
    else if a == BHigh then Some((Main, "Attack 3 Antic"))
    else if a == A3Antic then Some((Main, "A3 Lunge 1"))
    else if a == A3Lunge1 then Some((Main, "A3 Slash 1"))
    else if a == A3Slash1 then Some((Main, "A3 CD 1"))
    else if a == A3CD1 then Some((Main, "A3 Lunge 2"))
    else if a == A3Lunge2 then Some((Main, "A3 CD2"))
    else if a == A3CD2 then Some((Main, "A3 Lunge 3"))
    else if a == A3Lunge3 then Some((Main, "A3 Slash3"))
    else if a == A3Slash3 then Some((Main, "A3 Stop"))
    else if a == A3Stop || a == ULow || a == UHigh then Some((Main, "Reset"))
    else None
  }

  /** Client side: what receiving animation `a` replays, after the base call. */
  function Replay(a: byte): (r: seq<Effect>)
    ensures a > Turn ==> r == []
    ensures a < Idle ==> |r| == 1 && r[0].ExecuteActions? && r[0].fsm == Main
    ensures AudioStop in r <==> a == Idle
    ensures AudioPlay in r <==> a == Walk
  {
    if a == Start then [Exec("Shield Start", [1])]
    else if a == LHigh then [Exec("Shield Left High", [2, 4, 6, 7])]
    else if a == LLow then [Exec("Shield Left Low", [2, 4, 7, 8])]
    else if a == RHigh then [Exec("Shield Right High", [2, 4, 6, 7])]
    else if a == RLow then [Exec("Shield Right Low", [2, 4, 6, 7])]
    else if a == A1Antic then [Exec("Attack1 Antic", [1, 2])]
    else if a == A1End then [Exec("Attack1 End", [1, 2])]
    else if a == A1Lunge then [Exec("Attack1 Lunge", [1, 2, 4, 5])]
    else if a == A1Slash then [Exec("Attack1 Slash", [1, 3])]
    else if a == BLow then [Exec("Block Low", [1])]
    else if a == BHigh then [Exec("Block High", [1])]
    else if a == A3Antic then [Exec("Attack3 Antic", [1, 2])]
    else if a == A3Lunge1 then [Exec("A3 Lunge 1", [1, 2, 4, 5])]
    else if a == A3Slash1 then [Exec("A3 Slash 1", [1, 2])]
    else if a == A3CD1 then [Exec("A3 CD 1", [1, 2])]
    else if a == A3Lunge2 then [Exec("A3 Lunge 2", [1, 3, 4, 5])]
    else if a == A3CD2 then [Exec("A3 CD2", [2, 3])]
    else if a == A3Lunge3 then [Exec("A3 Lunge 3", [1, 3, 4])]
    else if a == A3Slash3 then [Exec("A3 Slash3", [2, 3])]
    else if a == A3Stop then [Exec("A3 Stop1 3", [2, 3])]
    else if a == ULow then [Exec("Unshield Low", [1])]
    else if a == UHigh then [Exec("Unshield High", [1])]
    else if a == Idle then [PlayClip("Idle"), AudioStop]
    else if a == Walk then [AudioPlay, PlayClip("Walk")]
    else if a == Turn then [PlayClip("Turn")]
    else []
  }

  /** Client initialisation: freeze the state machine and the walker, and hide the
      object when the scene reports it dead. */
  function ClientInit(state: Option<byte>): (r: seq<Effect>)
    ensures Deactivate in r <==> state == Some(Dead)
    ensures |r| >= 3 && r[..3] == [RemoveAllTransitions(Main), WalkerStop, SetWalkerEnabled(false)]
  {
    [RemoveAllTransitions(Main), WalkerStop, SetWalkerEnabled(false)] + DeactivateIf(state == Some(Dead))
  }

  /** A husk that never received an update resumes as if it had received Start. */
  lemma NeverUpdatedResumesStart()
    ensures Resume(0) == Some((Main, "Start"))
  {}

  /** Hook and Replay are inverse: the node a state-machine animation is replayed on is
      the node whose hook sends that same animation. */
  lemma ReplayedNodeSendsIt(a: byte)
    requires a < Idle
    ensures Hook(Replay(a)[0].node) == Some(a)
  {
    if a <= RLow {
      ReplayedNodeSendsItStartToRLow(a);
    } else if a <= A1Slash {
      ReplayedNodeSendsItRHighToA1Slash(a);
    } else if a <= A3Antic {
      ReplayedNodeSendsItA1EndToA3Antic(a);
    } else if a <= A3CD1 {
      ReplayedNodeSendsItA3Lunge1ToA3CD1(a);
    } else if a <= A3Lunge3 {
      ReplayedNodeSendsItA3Lunge2ToA3Lunge3(a);
    } else if a <= A3Stop {
      ReplayedNodeSendsItA3Slash3ToA3Stop(a);
    } else {
      ReplayedNodeSendsItUHighToULow(a);
    }
  }

  // The helpers below only split the case analysis of ReplayedNodeSendsIt into parts
  // small enough for the solver.

  lemma ReplayedNodeSendsItStartToRLow(a: byte)
    requires a <= RLow
    ensures Hook(Replay(a)[0].node) == Some(a)
  {
  }

  lemma ReplayedNodeSendsItRHighToA1Slash(a: byte)
    requires RHigh <= a <= A1Slash
    ensures Hook(Replay(a)[0].node) == Some(a)
  {
  }

  lemma ReplayedNodeSendsItA1EndToA3Antic(a: byte)
    requires A1End <= a <= A3Antic
    ensures Hook(Replay(a)[0].node) == Some(a)
  {
  }

  lemma ReplayedNodeSendsItA3Lunge1ToA3CD1(a: byte)
    requires A3Lunge1 <= a <= A3CD1
    ensures Hook(Replay(a)[0].node) == Some(a)
  {
  }

  lemma ReplayedNodeSendsItA3Lunge2ToA3Lunge3(a: byte)
    requires A3Lunge2 <= a <= A3Lunge3
    ensures Hook(Replay(a)[0].node) == Some(a)
  {
  }

  lemma ReplayedNodeSendsItA3Slash3ToA3Stop(a: byte)
    requires A3Slash3 <= a <= A3Stop
    ensures Hook(Replay(a)[0].node) == Some(a)
  {
  }

  lemma ReplayedNodeSendsItUHighToULow(a: byte)
    requires UHigh <= a <= ULow
    ensures Hook(Replay(a)[0].node) == Some(a)
  {
  }

  class HuskWarrior {
    var lastAnimation: byte
    var effects: seq<Effect>

    constructor ()
      ensures lastAnimation == Start && effects == []
    {
      lastAnimation := 0;
      effects := [];
    }

    method InternalInitializeAsSceneHost()
      modifies this
      ensures lastAnimation == old(lastAnimation)
      ensures effects == old(effects) + [SendStateUpdate(Active), SetWalkerEnabled(true)]
    {
      effects := effects + [SendStateUpdate(Active), SetWalkerEnabled(true)];
    }

    method InternalInitializeAsSceneClient(stateIndex: Option<byte>)
      modifies this
      ensures lastAnimation == old(lastAnimation)
      ensures effects == old(effects) + ClientInit(stateIndex)
    {
      effects := effects + [RemoveAllTransitions(Main), WalkerStop, SetWalkerEnabled(false)];
      if stateIndex == Some(Dead) {
        effects := effects + [Deactivate];
      }
    }

    method HealthManagerOnDieHook()
      modifies this
      ensures lastAnimation == old(lastAnimation)
      ensures effects == old(effects) + [BaseDieHook, SendStateUpdate(Dead)]
    {
      effects := effects + [BaseDieHook, SendStateUpdate(Dead)];
    }

    method InternalSwitchToSceneHost()
      modifies this
      ensures lastAnimation == old(lastAnimation)
      ensures effects == old(effects) + [RestoreAllTransitions(Main), SetWalkerEnabled(true)] + Forced(Resume(lastAnimation))
    {
      effects := effects + [RestoreAllTransitions(Main), SetWalkerEnabled(true)] + Forced(Resume(lastAnimation));
    }

    method UpdateAnimation(animationIndex: byte, animationInfo: seq<byte>)
      modifies this
      ensures lastAnimation == animationIndex
      ensures effects == old(effects) + [BaseUpdateAnimation(animationIndex, animationInfo)] + Replay(animationIndex)
    {
      effects := effects + [BaseUpdateAnimation(animationIndex, animationInfo)];
      lastAnimation := animationIndex;
      effects := effects + Replay(animationIndex);
    }

    /** State updates are ignored by this enemy. */
    method UpdateState(stateIndex: byte)
    {
    }
  }
}
