/** Elder Baldur: a "Blocker Control" state machine with a total resume table; the two sleep
    nodes reuse the close indices. */
module ElderBaldur {
  import opened Common

  // State enum
  const Active: byte := 0
  const Dead: byte := 1

  // Animation enum
  const Idle: byte := 0
  const Init: byte := 1
  const Open: byte := 2
  const Close: byte := 3
  const Close2: byte := 4
  const Goop: byte := 5
  const Roller: byte := 6
  const ShotAntic: byte := 7
  const Fire: byte := 8

  /** Host side: the animation index sent when the state machine enters `node`. Apart from
      the two sleep nodes, the client replays the index on that same node. */
  function Hook(node: string): (r: Option<byte>)
    ensures r.Some? ==> r.value <= Fire
    ensures r.Some? ==> Resume(r.value).Some?
    ensures r.Some? && node !in {"Sleep 1", "Sleep 2"} ==> |Replay(r.value)| == 1 && StartsOnNode(Replay(r.value), node)
  {
    if node == "Init" then Some(Init)
    else if node == "Open" then Some(Open)
    else if node == "Idle" then Some(Idle)
    else if node == "Close" then Some(Close)
    else if node == "Close2" then Some(Close2)
    else if node == "Goop" then Some(Goop)
    else if node == "Roller" then Some(Roller)
    else if node == "Shot Antic" then Some(ShotAntic)
    else if node == "Fire" then Some(Fire)
    else if node == "Sleep 1" then Some(Close)
    else if node == "Sleep 2" then Some(Close2)
    else None
  }

  /** The state the reconciliation switch forces when this client becomes scene host,
      given the last animation it received. */
  function Resume(a: byte): (r: Option<(Fsm, string)>)
    ensures r.None? <==> a > Fire
    ensures r.Some? ==> r.value.0 == Main
  {
    if a == Init then Some((Main, "Direction"))
    else if a == Open then Some((Main, "Idle"))
    else if a == Idle then Some((Main, "Idle"))
    else if a == Close then Some((Main, "Close2"))
    else if a == Close2 then Some((Main, "Closed"))
    else if a == Goop then Some((Main, "Shot Antic"))
    else if a == Roller then Some((Main, "Shot Antic"))
    else if a == ShotAntic then Some((Main, "Fire"))
    else if a == Fire then Some((Main, "Roller Assign"))
    else None
  }

  /** Client side: what receiving animation `a` replays, after the base call. */
  function Replay(a: byte): (r: seq<Effect>)
    ensures r == [] <==> a > Fire
    ensures a <= Fire ==> |r| == 1 && r[0].ExecuteActions? && r[0].fsm == Main
  {
    if a == Init then [Exec("Init", [7, 8])]
    else if a == Open then [Exec("Open", [1, 2, 3])]
    else if a == Idle then [Exec("Idle", [5])]
    else if a == Close then [Exec("Close", [1, 3, 4])]
    else if a == Close2 then [Exec("Close2", [1, 3])]
    else if a == Goop then [Exec("Goop", [1, 2])]
    else if a == Roller then [Exec("Roller", [1, 2, 3])]
    else if a == ShotAntic then [Exec("Shot Antic", [1])]
    else if a == Fire then [Exec("Fire", [1, 3, 4, 5, 6, 7, 8, 9, 10, 11])]
    else []
  }

  /** Client initialisation: freeze the FSM, and hide the object when the state index is 1
      (the source compares with the literal 1, which is Dead). */
  function ClientInit(state: Option<byte>): (r: seq<Effect>)
    ensures Deactivate in r <==> state == Some(1)
    ensures |r| >= 1 && r[..1] == [RemoveAllTransitions(Main)]
  {
    [RemoveAllTransitions(Main)] + DeactivateIf(state == Some(1))
  }

  /** Hook and Replay are inverse: the node an animation is replayed on is a node
      whose hook sends that same animation. */
  lemma ReplayedNodeSendsIt(a: byte)
    requires a <= Fire
    ensures Hook(Replay(a)[0].node) == Some(a)
  {
    if a in {Idle, Init, Open, Close} {
      ReplayedNodeSendsItIdleToClose(a);
    } else if a in {Close2, Goop, Roller, ShotAntic} {
      ReplayedNodeSendsItClose2ToShotAntic(a);
    } else {
      ReplayedNodeSendsItFireToFire(a);
    }
  }

  // The helpers below only split the case analysis of ReplayedNodeSendsIt into parts
  // small enough for the solver.

  lemma ReplayedNodeSendsItIdleToClose(a: byte)
    requires a in {Idle, Init, Open, Close}
    ensures Hook(Replay(a)[0].node) == Some(a)
  {
  }

  lemma ReplayedNodeSendsItClose2ToShotAntic(a: byte)
    requires a in {Close2, Goop, Roller, ShotAntic}
    ensures Hook(Replay(a)[0].node) == Some(a)
  {
  }

  lemma ReplayedNodeSendsItFireToFire(a: byte)
    requires a == Fire
    ensures Hook(Replay(a)[0].node) == Some(a)
  {
  }

  /** An Elder Baldur that never received an update resumes in "Idle". */
  lemma NeverUpdatedResumesIdle()
    ensures Resume(0) == Some((Main, "Idle"))
  {}

  /** "Sleep 1" and "Sleep 2" send the same indices as "Close" and "Close2". */
  lemma SleepNodesSendCloseIndices()
    ensures Hook("Sleep 1") == Hook("Close") == Some(Close)
    ensures Hook("Sleep 2") == Hook("Close2") == Some(Close2)
  {
  }

  class ElderBaldur {
    var lastAnimation: byte
    var effects: seq<Effect>

    constructor ()
      ensures lastAnimation == Idle && effects == []
    {
      lastAnimation := 0;
      effects := [];
    }

    method InternalInitializeAsSceneHost()
      modifies this
      ensures lastAnimation == old(lastAnimation)
      ensures effects == old(effects) + [SendStateUpdate(Active)]
    {
      effects := effects + [SendStateUpdate(Active)];
    }

    method InternalInitializeAsSceneClient(stateIndex: Option<byte>)
      modifies this
      ensures lastAnimation == old(lastAnimation)
      ensures effects == old(effects) + ClientInit(stateIndex)
    {
      effects := effects + [RemoveAllTransitions(Main)];
      if stateIndex == Some(1) {
        effects := effects + [Deactivate];
      }
    }

    method HealthManagerOnDieHook()
      modifies this
      ensures lastAnimation == old(lastAnimation)
      ensures effects == old(effects) + [BaseDieHook, SendStateUpdate(Dead)]
    {
      effects := effects + [BaseDieHook, SendStateUpdate(Dead)];
    }

    method InternalSwitchToSceneHost()
      modifies this
      ensures lastAnimation == old(lastAnimation)
      ensures effects == old(effects) + [RestoreAllTransitions(Main)] + Forced(Resume(lastAnimation))
    {
      effects := effects + [RestoreAllTransitions(Main)] + Forced(Resume(lastAnimation));
    }

    method UpdateAnimation(animationIndex: byte, animationInfo: seq<byte>)
      modifies this
      ensures lastAnimation == animationIndex
      ensures effects == old(effects) + [BaseUpdateAnimation(animationIndex, animationInfo)] + Replay(animationIndex)
    {
      effects := effects + [BaseUpdateAnimation(animationIndex, animationInfo)];
      lastAnimation := animationIndex;
      effects := effects + Replay(animationIndex);
    }

    /** State updates are ignored by this enemy. */
    method UpdateState(stateIndex: byte)
    {
    }
  }
}
