/** Moss Knight: one "Moss Knight Control" state machine whose every animation is
    replayed on the node that sent it, and whose resume table covers every animation. */
module MossKnight {
  import opened Common

  // State enum
  const Active: byte := 0
  const Dead: byte := 1

  // Animation enum
  const Sleep: byte := 0
  const Shake: byte := 1
  const Wake: byte := 2
  const Lake: byte := 3
  const ShieldLH: byte := 4
  const ShieldRH: byte := 5
  const ShieldLL: byte := 6
  const ShieldRL: byte := 7
  const BlockH: byte := 8
  const BlockL: byte := 9
  const Antic: byte := 10
  const Lunge: byte := 11
  const HitOn: byte := 12
  const HitOff: byte := 13
  const End: byte := 14
  const SlashEnd: byte := 15
  const Antic2: byte := 16
  const Slash2: byte := 17
  const End2: byte := 18
  const EvadeAntic: byte := 19
  const Evade: byte := 20
  const EvadeEnd: byte := 21
  const ShootCheck: byte := 22
  const ShootAntic: byte := 23
  const Shoot: byte := 24
  const ShotEnd: byte := 25
  const UnshieldH: byte := 26
  const UnshieldL: byte := 27

  /** Host side: the animation index sent when the state machine enters `node`.
      Every hooked node is replayed by the client on that same node. */
  function Hook(node: string): (r: Option<byte>)
    ensures r.Some? ==> r.value <= UnshieldL && |Replay(r.value)| == 1 && StartsOnNode(Replay(r.value), node)
  {
    if node == "Sleep" then Some(Sleep)
    else if node == "Shake" then Some(Shake)
    else if node == "Wake" then Some(Wake)
    else if node == "Lake" then Some(Lake)
    else if node == "Shield Left High" then Some(ShieldLH)
    else if node == "Shield Right High" then Some(ShieldRH)
    else if node == "Shield Left Low" then Some(ShieldLL)
    else if node == "Shield Right Low" then Some(ShieldRL)
    else if node == "Block High" then Some(BlockH)
    else if node == "Block Low" then Some(BlockL)
    else if node == "Attack 1 Antic" then Some(Antic)
    else if node == "Attack1 Lunge" then Some(Lunge)
    else if node == "Attack1 Hitbox On" then Some(HitOn)
    else if node == "Attack1 Hitbox Off" then Some(HitOff)
    else if node == "Attack 1 End" then Some(End)
    else if node == "Slash End" then Some(SlashEnd)
    else if node == "Attack 2 Antic" then Some(Antic2)
    else if node == "Attack 2 Slash" then Some(Slash2)
    else if node == "Attack 2 End" then Some(End2)
    else if node == "Evade Antic" then Some(EvadeAntic)
    else if node == "Evade" then Some(Evade)
    else if node == "Evade End" then Some(EvadeEnd)
    else if node == "Shoot Check" then Some(ShootCheck)
    else if node == "Shoot Antic" then Some(ShootAntic)
    else if node == "Shoot" then Some(Shoot)
    else if node == "Shot End" then Some(ShotEnd)
    else if node == "Unshield High" then Some(UnshieldH)
    else if node == "Unshield Low" then Some(UnshieldL)
    else None
  }

  /** The state the reconciliation switch forces when this client becomes scene host,
      given the last animation it received. */
  function Resume(a: byte): (r: Option<(Fsm, string)>)
    ensures r.None? <==> a > UnshieldL
    ensures r.Some? ==> r.value.0 == Main
  {
    if a == Sleep then Some((Main, "Sleep"))
    else if a == Shake then Some((Main, "Wake"))
    else if a == Wake then Some((Main, "Reset"))
    else if a == Lake then Some((Main, "Lake"))
    else if a == ShieldLH then Some((Main, "Shield Left High"))
    else if a == ShieldRH then Some((Main, "Shield Right High"))
    else if a == ShieldLL then Some((Main, "Shield Left Low"))
    else if a == ShieldRL then Some((Main, "Shield Right Low"))
    else if a == BlockH || a == BlockL then Some((Main, "Attack Choice"))
    else if a == Antic then Some((Main, "Attack1 Lunge"))
    else if a == Lunge then Some((Main, "Attack1 Hitbox On"))
    else if a == HitOn then Some((Main, "Attack1 Hitbox Off"))
    else if a == HitOff then Some((Main, "Attack1 End"))
    else if a == End then Some((Main, "Slash 2?"))
    else if a == SlashEnd then Some((Main, "Reset"))
    else if a == Antic2 then Some((Main, "Attack 2 Slash"))
    else if a == Slash2 then Some((Main, "Attack 2 End"))
    else if a == End2 then Some((Main, "Reset"))
    else if a == EvadeAntic || a == Evade then Some((Main, "Evade"))
    else if a == EvadeEnd then Some((Main, "Evade Move Check"))
    else if a == ShootCheck then Some((Main, "Shoot Check"))
    else if a == ShootAntic then Some((Main, "Shoot"))
    else if a == Shoot then Some((Main, "Repeat Check"))
    else if a == ShotEnd || a == UnshieldH || a == UnshieldL then Some((Main, "Reset"))
    else None
  }

  /** Client side: what receiving animation `a` replays, after the base call. */
  function Replay(a: byte): (r: seq<Effect>)
    ensures a > UnshieldL ==> r == []
    ensures a <= UnshieldL ==> |r| == 1 && r[0].ExecuteActions? && r[0].fsm == Main
  {
    if a == Sleep then [Exec("Sleep", [6, 7, 8, 9, 10, 11, 12, 13])]
    else if a == Shake then [Exec("Shake", [1, 2, 4, 5])]
    else if a == Wake then [Exec("Wake", [1, 2, 3, 5, 7, 8])]
    else if a == Lake then [Exec("Lake", [2])]
    else if a == ShieldLH then [Exec("Shield Left High", [2, 5, 6])]
    else if a == ShieldRH then [Exec("Shield Right High", [2, 5, 6])]
    else if a == ShieldLL then [Exec("Shield Left Low", [2, 5, 6])]
    else if a == ShieldRL then [Exec("Shield Right Low", [2, 5, 6])]
    else if a == BlockH then [Exec("Block High", [1])]
    else if a == BlockL then [Exec("Block Low", [1])]
    else if a == Antic then [Exec("Attack 1 Antic", [1, 2, 3, 4, 5, 6, 7])]
    else if a == Lunge then [Exec("Attack1 Lunge", [1, 2, 3, 4, 7, 8])]
    else if a == HitOn then [Exec("Attack1 Hitbox On", [1])]
    else if a == HitOff then [Exec("Attack1 Hitbox Off", [1])]
    else if a == End then [Exec("Attack 1 End", [1, 2])]
    else if a == SlashEnd then [Exec("Slash End", [1])]
    else if a == Antic2 then [Exec("Attack 2 Antic", [1, 2, 3, 4, 5, 6])]
    else if a == Slash2 then [Exec("Attack 2 Slash", [1, 2, 5])]
    else if a == End2 then [Exec("Attack 2 End", [2])]
    else if a == EvadeAntic then [Exec("Evade Antic", [2, 3])]
    else if a == Evade then [Exec("Evade", [1, 2])]
    else if a == EvadeEnd then [Exec("Evade End", [1, 2, 5])]
    else if a == ShootCheck then [Exec("Shoot Check", [1, 3])]
    else if a == ShootAntic then [Exec("Shoot Antic", [2])]
    else if a == Shoot then [Exec("Shoot", [1, 2, 3])]
    else if a == ShotEnd then [Exec("Shot End", [1])]
    else if a == UnshieldH then [Exec("Unshield High", [1])]
    else if a == UnshieldL then [Exec("Unshield Low", [1])]
    else []
  }

  /** Client initialisation: freeze the state machine, and hide the object when the
      scene reports it dead. Nothing else is touched. */
  function ClientInit(state: Option<byte>): (r: seq<Effect>)
    ensures Deactivate in r <==> state == Some(Dead)
    ensures |r| >= 1 && r[0] == RemoveAllTransitions(Main) && forall k :: 1 <= k < |r| ==> r[k] == Deactivate
  {
    [RemoveAllTransitions(Main)] + DeactivateIf(state == Some(Dead))
  }

  /** Hook and Replay are inverse: the node a replayed animation runs on is the node
      whose hook sends that animation, for all 28 animations. */
  lemma ReplayedNodeSendsIt(a: byte)
    requires a <= UnshieldL
    ensures Hook(Replay(a)[0].node) == Some(a)
  {
    if a <= Lake {
      ReplayedNodeSendsItSleepToLake(a);
    } else if a <= ShieldRL {
      ReplayedNodeSendsItShieldLHToShieldRL(a);
    } else if a <= Lunge {
      ReplayedNodeSendsItBlockHToLunge(a);
    } else if a <= SlashEnd {
      ReplayedNodeSendsItHitOnToSlashEnd(a);
    } else if a <= End2 {
      ReplayedNodeSendsItAntic2ToEnd2(a);
    } else if a <= EvadeEnd {
      ReplayedNodeSendsItEvadeAnticToEvadeEnd(a);
    } else if a <= ShootAntic {
      ReplayedNodeSendsItShootCheckToShootAntic(a);
    } else if a <= ShotEnd {
      ReplayedNodeSendsItShootToShotEnd(a);
    } else if a <= UnshieldH {
      ReplayedNodeSendsItUnshieldH(a);
    } else {
      ReplayedNodeSendsItUnshieldL(a);
    }
  }

  // The helpers below only split the case analysis of ReplayedNodeSendsIt into parts
  // small enough for the solver.

  lemma ReplayedNodeSendsItSleepToLake(a: byte)
    requires a <= Lake
    ensures Hook(Replay(a)[0].node) == Some(a)
  {
  }

  lemma ReplayedNodeSendsItShieldLHToShieldRL(a: byte)
    requires ShieldLH <= a <= ShieldRL
    ensures Hook(Replay(a)[0].node) == Some(a)
  {
  }

  lemma ReplayedNodeSendsItBlockHToLunge(a: byte)
    requires BlockH <= a <= Lunge
    ensures Hook(Replay(a)[0].node) == Some(a)
  {
  }

  lemma ReplayedNodeSendsItHitOnToSlashEnd(a: byte)
    requires HitOn <= a <= SlashEnd
    ensures Hook(Replay(a)[0].node) == Some(a)
  {
  }

  lemma ReplayedNodeSendsItAntic2ToEnd2(a: byte)
    requires Antic2 <= a <= End2
    ensures Hook(Replay(a)[0].node) == Some(a)
  {
  }

  lemma ReplayedNodeSendsItEvadeAnticToEvadeEnd(a: byte)
    requires EvadeAntic <= a <= EvadeEnd
    ensures Hook(Replay(a)[0].node) == Some(a)
  {
  }

  lemma ReplayedNodeSendsItShootCheckToShootAntic(a: byte)
    requires ShootCheck <= a <= ShootAntic
    ensures Hook(Replay(a)[0].node) == Some(a)
  {
  }

  lemma ReplayedNodeSendsItShootToShotEnd(a: byte)
    requires Shoot <= a <= ShotEnd
    ensures Hook(Replay(a)[0].node) == Some(a)
  {
  }

  lemma ReplayedNodeSendsItUnshieldH(a: byte)
    requires a == UnshieldH
    ensures Hook(Replay(a)[0].node) == Some(a)
  {
  }

  lemma ReplayedNodeSendsItUnshieldL(a: byte)
    requires a == UnshieldL
    ensures Hook(Replay(a)[0].node) == Some(a)
  {
  }

  /** A knight that never received an update resumes asleep. */
  lemma NeverUpdatedResumesSleep()
    ensures Resume(0) == Some((Main, "Sleep"))
  {}

  class MossKnight {
    var lastAnimation: byte
    var effects: seq<Effect>

    constructor ()
      ensures lastAnimation == Sleep && effects == []
    {
      lastAnimation := 0;
      effects := [];
    }

    method InternalInitializeAsSceneHost()
      modifies this
      ensures lastAnimation == old(lastAnimation)
      ensures effects == old(effects) + [SendStateUpdate(Active)]
    {
      effects := effects + [SendStateUpdate(Active)];
    }

    method InternalInitializeAsSceneClient(stateIndex: Option<byte>)
      modifies this
      ensures lastAnimation == old(lastAnimation)
      ensures effects == old(effects) + ClientInit(stateIndex)
    {
      effects := effects + [RemoveAllTransitions(Main)];
      if stateIndex == Some(Dead) {
        effects := effects + [Deactivate];
      }
    }

    method HealthManagerOnDieHook()
      modifies this
      ensures lastAnimation == old(lastAnimation)
      ensures effects == old(effects) + [BaseDieHook, SendStateUpdate(Dead)]
    {
      effects := effects + [BaseDieHook, SendStateUpdate(Dead)];
    }

    method InternalSwitchToSceneHost()
      modifies this
      ensures lastAnimation == old(lastAnimation)
      ensures effects == old(effects) + [RestoreAllTransitions(Main)] + Forced(Resume(lastAnimation))
    {
      effects := effects + [RestoreAllTransitions(Main)] + Forced(Resume(lastAnimation));
    }

    method UpdateAnimation(animationIndex: byte, animationInfo: seq<byte>)
      modifies this
      ensures lastAnimation == animationIndex
      ensures effects == old(effects) + [BaseUpdateAnimation(animationIndex, animationInfo)] + Replay(animationIndex)
    {
      effects := effects + [BaseUpdateAnimation(animationIndex, animationInfo)];
      lastAnimation := animationIndex;
      effects := effects + Replay(animationIndex);
    }

    /** State updates are ignored by this enemy. */
    method UpdateState(stateIndex: byte)
    {
    }
  }
}
