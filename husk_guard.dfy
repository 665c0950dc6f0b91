/** Husk Guard: a "Zombie Guard" state machine whose hooks share indices between several
    nodes. */
module HuskGuard {
  import opened Common

  // State enum
  const Active: byte := 0
  const Dead: byte := 1

  // Animation enum
  const Dormant: byte := 0
  const Wake: byte := 1
  const Idle: byte := 2
  const Walk: byte := 3
  const Run: byte := 4
  const StopWalk: byte := 5
  const StopRun: byte := 6
  const Turn: byte := 7
  const Attack2: byte := 8
  const StompAntic: byte := 9
  const StompJump: byte := 10
  const StompLand: byte := 11
  const Startle: byte := 12
  const Anticipate: byte := 13
  const Impact: byte := 14
  const ImpactLeft: byte := 15
  const ImpactRight: byte := 16
  const AttackRecoil: byte := 17

  /** Host side: the animation index sent when the state machine enters `node`. Apart from
      the nodes that share an index with another node, the client replays the index on that
      same node. */
  function Hook(node: string): (r: Option<byte>)
    ensures r.Some? ==> r.value <= AttackRecoil
    ensures r.Some? ==> (Resume(r.value).None? <==> r.value == Turn)
    ensures r.Some? && node !in {"Cooldown", "Stomp Cooldown", "Turn Right", "Turn Right 2", "Return Right", "Turn Left", "Turn Left 2", "Return Left"} ==> |Replay(r.value)| == 1 && StartsOnNode(Replay(r.value), node)
  {
    if node == "Initiate" then Some(Dormant)
    else if node == "Wake" then Some(Wake)
    else if node == "Cooldown" then Some(Idle)
    else if node == "Idle" then Some(Idle)
    else if node == "Anticipate" then Some(Anticipate)
    else if node == "Attack" then Some(Attack2)
    else if node == "Impact" then Some(Impact)
    else if node == "Impact Left" then Some(ImpactLeft)
    else if node == "Impact Right" then Some(ImpactRight)
    else if node == "Attack Recoil" then Some(AttackRecoil)
    else if node == "Stomp Antic" then Some(StompAntic)
    else if node == "Stomp Jump" then Some(StompJump)
    else if node == "Land" then Some(StompLand)
    else if node == "Stomp Cooldown" then Some(Idle)
    else if node == "Startle" then Some(Startle)
    else if node == "Run" then Some(Run)
    else if node == "Stop Run" then Some(StopRun)
    else if node == "Walk" then Some(Walk)
    else if node == "Stop Walk" then Some(StopWalk)
    else if node == "Turn Right" then Some(Turn)
    else if node == "Turn Right 2" then Some(Turn)
    else if node == "Return Right" then Some(Walk)
    else if node == "Turn Left" then Some(Turn)
    else if node == "Turn Left 2" then Some(Turn)
    else if node == "Return Left" then Some(Walk)
    else None
  }

  /** The state the reconciliation switch forces when this client becomes scene host,
      given the last animation it received. */
  function Resume(a: byte): (r: Option<(Fsm, string)>)
    ensures r.None? <==> a == Turn || a > AttackRecoil
    ensures r.Some? ==> r.value.0 == Main
  {
    if a == Dormant then Some((Main, "Initiate"))
    else if a == Idle then Some((Main, "Idle"))
    else if a == Wake then Some((Main, "Cooldown"))
    else if a == Anticipate then Some((Main, "Attack"))
    else if a == Attack2 then Some((Main, "Impact"))
    else if a == StompAntic then Some((Main, "Stomp Jump"))
    else if a == StompJump then Some((Main, "In Air"))
    else if a == StompLand then Some((Main, "Stomp Cooldown"))
    else if a == Startle then Some((Main, "Alert"))
    else if a == Run then Some((Main, "Face Hero"))
    else if a == StopRun then Some((Main, "Idle"))
    else if a == Walk then Some((Main, "Face Hero"))
    else if a == StopWalk then Some((Main, "Idle"))
    else if a == Impact then Some((Main, "Attack Recoil"))
    else if a == ImpactLeft then Some((Main, "Attack Recoil"))
    else if a == ImpactRight then Some((Main, "Attack Recoil"))
    else if a == AttackRecoil then Some((Main, "Attack End"))
    else None
  }

  /** Client side: what receiving animation `a` replays, after the base call. */
  function Replay(a: byte): (r: seq<Effect>)
    ensures r == [] <==> a == Turn || a > AttackRecoil
    ensures a in {Dormant, Wake, Idle, Walk, Run, StopWalk, StopRun, Attack2, StompAntic, StompJump, StompLand, Startle, Anticipate, Impact, ImpactLeft, ImpactRight, AttackRecoil} ==> |r| == 1 && r[0].ExecuteActions? && r[0].fsm == Main
  {
    if a == Dormant then [Exec("Initiate", [7])]
    else if a == Idle then [Exec("Idle", [5])]
    else if a == Wake then [Exec("Wake", [1, 2, 3, 5])]
    else if a == Anticipate then [Exec("Anticipate", [1, 3, 5, 6])]
    else if a == Attack2 then [Exec("Attack", [1, 2])]
    else if a == Impact then [Exec("Impact", [1, 2])]
    else if a == ImpactLeft then [Exec("Impact Left", [1])]
    else if a == ImpactRight then [Exec("Impact Right", [1])]
    else if a == AttackRecoil then [Exec("Attack Recoil", [1, 2, 3])]
    else if a == StompAntic then [Exec("Stomp Antic", [1, 2])]
    else if a == StompJump then [Exec("Stomp Jump", [1, 2])]
    else if a == StompLand then [Exec("Land", [1, 2, 3, 5, 6, 7, 8, 9, 10, 11, 12, 13, 14, 15])]
    else if a == Startle then [Exec("Startle", [1, 3])]
    else if a == Run then [Exec("Run", [1, 2, 3, 4, 7, 9, 10, 11, 12, 13, 14, 15, 16, 17])]
    else if a == StopRun then [Exec("Stop Run", [1, 2, 3, 4, 5, 9, 10])]
    else if a == Walk then [Exec("Walk", [1, 2, 4, 5, 7])]
    else if a == StopWalk then [Exec("Stop Walk", [1, 4, 5])]
    else []
  }

  /** Client initialisation: freeze the FSM and hide the object exactly when the scene
      reports it dead. */
  function ClientInit(state: Option<byte>): (r: seq<Effect>)
    ensures Deactivate in r <==> state == Some(Dead)
    ensures |r| >= 1 && r[..1] == [RemoveAllTransitions(Main)]
  {
    [RemoveAllTransitions(Main)] + DeactivateIf(state == Some(Dead))
  }

  /** Hook and Replay are inverse: the node an animation is replayed on is a node
      whose hook sends that same animation. */
  lemma ReplayedNodeSendsIt(a: byte)
    requires a in {Dormant, Wake, Idle, Walk, Run, StopWalk, StopRun, Attack2, StompAntic, StompJump, StompLand, Startle, Anticipate, Impact, ImpactLeft, ImpactRight, AttackRecoil}
    ensures Hook(Replay(a)[0].node) == Some(a)
  {
    if a in {Dormant, Wake, Idle, Walk} {
      ReplayedNodeSendsItDormantToWalk(a);
    } else if a in {Run, StopWalk, StopRun, Attack2} {
      ReplayedNodeSendsItRunToAttack2(a);
    } else if a in {StompAntic, StompJump, StompLand, Startle} {
      ReplayedNodeSendsItStompAnticToStartle(a);
    } else if a in {Anticipate, Impact, ImpactLeft, ImpactRight} {
      ReplayedNodeSendsItAnticipateToImpactRight(a);
    } else {
      ReplayedNodeSendsItAttackRecoilToAttackRecoil(a);
    }
  }

  // The helpers below only split the case analysis of ReplayedNodeSendsIt into parts
  // small enough for the solver.

  lemma ReplayedNodeSendsItDormantToWalk(a: byte)
    requires a in {Dormant, Wake, Idle, Walk}
    ensures Hook(Replay(a)[0].node) == Some(a)
  {
  }

  lemma ReplayedNodeSendsItRunToAttack2(a: byte)
    requires a in {Run, StopWalk, StopRun, Attack2}
    ensures Hook(Replay(a)[0].node) == Some(a)
  {
  }

  lemma ReplayedNodeSendsItStompAnticToStartle(a: byte)
    requires a in {StompAntic, StompJump, StompLand, Startle}
    ensures Hook(Replay(a)[0].node) == Some(a)
  {
  }

  lemma ReplayedNodeSendsItAnticipateToImpactRight(a: byte)
    requires a in {Anticipate, Impact, ImpactLeft, ImpactRight}
    ensures Hook(Replay(a)[0].node) == Some(a)
  {
  }

  lemma ReplayedNodeSendsItAttackRecoilToAttackRecoil(a: byte)
    requires a == AttackRecoil
    ensures Hook(Replay(a)[0].node) == Some(a)
  {
  }

  /** A guard that never received an update resumes from "Initiate". */
  lemma NeverUpdatedResumesInitiate()
    ensures Resume(0) == Some((Main, "Initiate"))
  {}

  /** The node-to-index map is not injective: three nodes send Idle, ... */
  lemma IdleSharedByThreeNodes()
    ensures Hook("Cooldown") == Hook("Idle") == Hook("Stomp Cooldown") == Some(Idle)
  {
  }

  /** ... four send Turn, ... */
  lemma TurnSharedByFourNodes()
    ensures Hook("Turn Right") == Hook("Turn Right 2") == Hook("Turn Left") == Hook("Turn Left 2") == Some(Turn)
  {
    TurnRightNodes();
    TurnLeftNodes();
  }

  // TurnRightNodes, TurnLeftNodes and ReturnNodes only split the two lemmas around
  // them into parts small enough for the solver.

  lemma TurnRightNodes()
    ensures Hook("Turn Right") == Hook("Turn Right 2") == Some(Turn)
  {
  }

  lemma TurnLeftNodes()
    ensures Hook("Turn Left") == Hook("Turn Left 2") == Some(Turn)
  {
  }

  /** ... and three send Walk. */
  lemma WalkSharedByThreeNodes()
    ensures Hook("Walk") == Hook("Return Right") == Hook("Return Left") == Some(Walk)
  {
    ReturnNodes();
  }

  lemma ReturnNodes()
    ensures Hook("Return Right") == Hook("Return Left") == Some(Walk)
  {
  }

  /** Turn is sent by the host but neither replayed nor resumed. */
  lemma TurnIsOnlyStored()
    ensures Replay(Turn) == [] && Resume(Turn).None?
  {
  }

  class HuskGuard {
    var lastAnimation: byte
    var effects: seq<Effect>

    constructor ()
      ensures lastAnimation == Dormant && effects == []
    {
      lastAnimation := 0;
      effects := [];
    }

    method InternalInitializeAsSceneHost()
      modifies this
      ensures lastAnimation == old(lastAnimation)
      ensures effects == old(effects) + [SendStateUpdate(Active)]
    {
      effects := effects + [SendStateUpdate(Active)];
    }

    method InternalInitializeAsSceneClient(stateIndex: Option<byte>)
      modifies this
      ensures lastAnimation == old(lastAnimation)
      ensures effects == old(effects) + ClientInit(stateIndex)
    {
      effects := effects + [RemoveAllTransitions(Main)];
      if stateIndex == Some(Dead) {
        effects := effects + [Deactivate];
      }
    }

    method HealthManagerOnDieHook()
      modifies this
      ensures lastAnimation == old(lastAnimation)
      ensures effects == old(effects) + [BaseDieHook, SendStateUpdate(Dead)]
    {
      effects := effects + [BaseDieHook, SendStateUpdate(Dead)];
    }

    method InternalSwitchToSceneHost()
      modifies this
      ensures lastAnimation == old(lastAnimation)
      ensures effects == old(effects) + [RestoreAllTransitions(Main)] + Forced(Resume(lastAnimation))
    {
      effects := effects + [RestoreAllTransitions(Main)] + Forced(Resume(lastAnimation));
    }

    method UpdateAnimation(animationIndex: byte, animationInfo: seq<byte>)
      modifies this
      ensures lastAnimation == animationIndex
      ensures effects == old(effects) + [BaseUpdateAnimation(animationIndex, animationInfo)] + Replay(animationIndex)
    {
      effects := effects + [BaseUpdateAnimation(animationIndex, animationInfo)];
      lastAnimation := animationIndex;
      effects := effects + Replay(animationIndex);
    }

    /** State updates are ignored by this enemy. */
    method UpdateState(stateIndex: byte)
    {
    }
  }
}
