/** Brooding Mawlek: four state machines (body "Mawlek Control", the head and the two
    arms) and a walker. Each animation index belongs to exactly one of them. */
module BroodingMawlek {
  import opened Common

  // State enum
  const Asleep: byte := 0
  const Active: byte := 1

  // Animation enum: the body's indices
  const Init: byte := 0
  const Dormant: byte := 1
  const Wake: byte := 2
  const WakeJump: byte := 3
  const WakeInAir: byte := 4
  const WakeLand: byte := 5
  const Title: byte := 6
  const WakeRoar: byte := 7
  const RoarEnd: byte := 8
  const Music: byte := 9
  const Start: byte := 10
  const SuperReady: byte := 11
  const SuperJump: byte := 12
  const Jump: byte := 13
  const Land: byte := 14
  const SuperSpit: byte := 15
  const Shoot: byte := 16
  const Jump2: byte := 17
  const Land2: byte := 18
  const Cooldown: byte := 19
  // the walker's clips
  const Idle: byte := 20
  const Walk: byte := 21
  const Turn: byte := 22
  // the head's indices
  const HDormant: byte := 23
  const HIdle: byte := 24
  const HAntic: byte := 25
  const L: byte := 26
  const R: byte := 27
  const HShoot: byte := 28
  // the left arm's indices
  const LDormant: byte := 29
  const LIdle: byte := 30
  const LAntic: byte := 31
  const LSwipe: byte := 32
  const LCooldown: byte := 33
  // the right arm's indices
  const RDormant: byte := 34
  const RIdle: byte := 35
  const RAntic: byte := 36
  const RSwipe: byte := 37
  const RCooldown: byte := 38
  // the body's spit directions, declared last
  const SuperSpitL: byte := 39
  const SuperSpitR: byte := 40

  /** The state machine an animation index belongs to. */
  function FsmOf(a: byte): Fsm
  {
    if HDormant <= a <= HShoot then Head
    else if LDormant <= a <= LCooldown then ArmL
    else if RDormant <= a <= RCooldown then ArmR
    else Main
  }

  /** One animation update sent by the host: the index and its extra info bytes. */
  type Send = (byte, seq<byte>)

  /** The client replays send `s` on node `node` of state machine `fsm`: the index
      belongs to `fsm`, and unless it is Title (which is not replayed) its replay
      succeeds and runs that node. */
  predicate ReplayedOn(s: Send, fsm: Fsm, node: string)
  {
    FsmOf(s.0) == fsm
    && (s.0 != Title ==> Replay(s.0, s.1).Some? && RunsNode(Replay(s.0, s.1).value, fsm, node))
  }

  /** Host side: the sends made on entering `node` of state machine `fsm`, in the
      order the inserted methods run; none when the node is not hooked. Both wake
      nodes send Wake; the info byte tells the ordinary wake (0) from the Godhome one
      (1). "Super Spit" is hooked twice and so sends SuperSpit twice; every other
      hooked node sends once. */
  function Hook(fsm: Fsm, node: string): (r: seq<Send>)
    ensures forall i :: 0 <= i < |r| ==> ReplayedOn(r[i], fsm, node)
    ensures |r| <= 1 || (fsm == Main && node == "Super Spit")
  {
    match fsm
    case Main => BodyHook(node)
    case Head => HeadHook(node)
    case ArmL => ArmLHook(node)
    case ArmR => ArmRHook(node)
  }

  function BodyHook(node: string): (r: seq<Send>)
    ensures forall i :: 0 <= i < |r| ==> ReplayedOn(r[i], Main, node)
    ensures |r| <= 1 || node == "Super Spit"
  {
    if node == "Init" then [(Init, [])]
    else if node == "Dormant" then [(Dormant, [])]
    else if node == "Wake" then [(Wake, [0])]
    else if node == "GG Wake" then [(Wake, [1])]
    else if node == "Wake Jump" then [(WakeJump, [])]
    else if node == "Wake In Air" then [(WakeInAir, [])]
    else if node == "Wake Land" then [(WakeLand, [])]
    else if node == "Title" then [(Title, [])]
    else if node == "Wake Roar" then [(WakeRoar, [])]
    else if node == "Roar End" then [(RoarEnd, [])]
    else if node == "Music" then [(Music, [])]
    else BodyHookFight(node)
  }

  /** The rest of the body's chain, from the fight's first node on. */
  function BodyHookFight(node: string): (r: seq<Send>)
    ensures forall i :: 0 <= i < |r| ==> ReplayedOn(r[i], Main, node)
    ensures forall i :: 0 <= i < |r| ==> r[i].0 != Title
    ensures |r| <= 1 || node == "Super Spit"
  {
    if node == "Start" then [(Start, [])]
    else if node == "Super Ready" then [(SuperReady, [])]
    else if node == "Super Jump" then [(SuperJump, [])]
    else if node == "Super Spit" then [(SuperSpit, []), (SuperSpit, [])]
    else if node == "L" then [(SuperSpitL, [])]
    else if node == "R" then [(SuperSpitR, [])]
    else if node == "Shoot" then [(Shoot, [])]
    else if node == "Jump" then [(Jump, [])]
    else if node == "Land" then [(Land, [])]
    else if node == "Jump 2" then [(Jump2, [])]
    else if node == "Land 2" then [(Land2, [])]
    else if node == "Super Cooldown" then [(Cooldown, [])]
    else []
  }

  function HeadHook(node: string): (r: seq<Send>)
    ensures forall i :: 0 <= i < |r| ==> ReplayedOn(r[i], Head, node)
    ensures |r| <= 1
  {
    if node == "Dormant" then [(HDormant, [])]
    else if node == "Idle" then [(HIdle, [])]
    else if node == "Shoot Antic" then [(HAntic, [])]
    else if node == "Shoot" then [(HShoot, [])]
    else if node == "L" then [(L, [])]
    else if node == "R" then [(R, [])]
    else []
  }

  function ArmLHook(node: string): (r: seq<Send>)
    ensures forall i :: 0 <= i < |r| ==> ReplayedOn(r[i], ArmL, node)
    ensures |r| <= 1
  {
    if node == "Dormant" then [(LDormant, [])]
    else if node == "Idle" then [(LIdle, [])]
    else if node == "Swipe Antic" then [(LAntic, [])]
    else if node == "Swipe" then [(LSwipe, [])]
    else if node == "Swipe Cooldown" then [(LCooldown, [])]
    else []
  }

  function ArmRHook(node: string): (r: seq<Send>)
    ensures forall i :: 0 <= i < |r| ==> ReplayedOn(r[i], ArmR, node)
    ensures |r| <= 1
  {
    if node == "Dormant" then [(RDormant, [])]
    else if node == "Idle" then [(RIdle, [])]
    else if node == "Swipe Antic" then [(RAntic, [])]
    else if node == "Swipe" then [(RSwipe, [])]
    else if node == "Swipe Cooldown" then [(RCooldown, [])]
    else []
  }

  /** "Super Spit" is the one node hooked twice: entering it sends SuperSpit twice. */
  lemma SuperSpitSendsTwice()
    ensures Hook(Main, "Super Spit") == [(SuperSpit, []), (SuperSpit, [])]
  {
  }

  /** Hook and Replay are inverse: the first node a replay runs is hooked to send that
      same index and info, for every index the client replays and for both wake
      variants. */
  lemma ReplayedNodeSendsIt(a: byte, info: seq<byte>)
    requires a !in {Title, Idle, Walk, Turn} && a <= SuperSpitR
    requires if a == Wake then info == [0] || info == [1] else info == []
    ensures Replay(a, info).Some? && Replay(a, info).value != []
    ensures (a, info) in Hook(FsmOf(a), Replay(a, info).value[0].node)
  {
    if a <= Music {
      ReplayedNodeSendsItInitToMusic(a, info);
    } else if a <= SuperJump {
      ReplayedNodeSendsItStartToSuperJump(a);
    } else if a <= SuperSpit {
      ReplayedNodeSendsItJumpToSuperSpit(a);
    } else if a <= Cooldown {
      ReplayedNodeSendsItShootToCooldown(a);
    } else if a <= HShoot {
      ReplayedNodeSendsItHDormantToHShoot(a);
    } else if a <= LCooldown {
      ReplayedNodeSendsItLDormantToLCooldown(a);
    } else if a <= RCooldown {
      ReplayedNodeSendsItRDormantToRCooldown(a);
    } else {
      ReplayedNodeSendsItSuperSpitLToSuperSpitR(a);
    }
  }

  // The helpers below only split the case analysis of ReplayedNodeSendsIt into parts
  // small enough for the solver.

  lemma ReplayedNodeSendsItInitToMusic(a: byte, info: seq<byte>)
    requires a <= Music && a != Title
    requires if a == Wake then info == [0] || info == [1] else info == []
    ensures Replay(a, info).Some? && Replay(a, info).value != []
    ensures (a, info) in Hook(Main, Replay(a, info).value[0].node)
  {
  }

  lemma ReplayedNodeSendsItStartToSuperJump(a: byte)
    requires Start <= a <= SuperJump
    ensures Replay(a, []).Some? && Replay(a, []).value != []
    ensures (a, []) in Hook(Main, Replay(a, []).value[0].node)
  {
  }

  lemma ReplayedNodeSendsItJumpToSuperSpit(a: byte)
    requires Jump <= a <= SuperSpit
    ensures Replay(a, []).Some? && Replay(a, []).value != []
    ensures (a, []) in Hook(Main, Replay(a, []).value[0].node)
  {
  }

  lemma ReplayedNodeSendsItShootToCooldown(a: byte)
    requires Shoot <= a <= Cooldown
    ensures Replay(a, []).Some? && Replay(a, []).value != []
    ensures (a, []) in Hook(Main, Replay(a, []).value[0].node)
  {
  }

  lemma ReplayedNodeSendsItHDormantToHShoot(a: byte)
    requires HDormant <= a <= HShoot
    ensures Replay(a, []).Some? && Replay(a, []).value != []
    ensures (a, []) in Hook(Head, Replay(a, []).value[0].node)
  {
  }

  lemma ReplayedNodeSendsItLDormantToLCooldown(a: byte)
    requires LDormant <= a <= LCooldown
    ensures Replay(a, []).Some? && Replay(a, []).value != []
    ensures (a, []) in Hook(ArmL, Replay(a, []).value[0].node)
  {
  }

  lemma ReplayedNodeSendsItRDormantToRCooldown(a: byte)
    requires RDormant <= a <= RCooldown
    ensures Replay(a, []).Some? && Replay(a, []).value != []
    ensures (a, []) in Hook(ArmR, Replay(a, []).value[0].node)
  {
  }

  lemma ReplayedNodeSendsItSuperSpitLToSuperSpitR(a: byte)
    requires SuperSpitL <= a <= SuperSpitR
    ensures Replay(a, []).Some? && Replay(a, []).value != []
    ensures (a, []) in Hook(Main, Replay(a, []).value[0].node)
  {
  }

  /** Host side: the index sent when the walker's sprite animator starts `clip`. The
      client replays none of them. */
  function ClipHook(clip: string): (r: Option<byte>)
    ensures r.Some? <==> clip in {"Idle", "Walk", "Turn"}
    ensures r.Some? ==> Replay(r.value, []) == Some([])
  {
    if clip == "Idle" then Some(Idle)
    else if clip == "Walk" then Some(Walk)
    else if clip == "Turn" then Some(Turn)
    else None
  }

  /** The state the reconciliation switch forces when this client becomes scene host:
      always on the state machine the last index belongs to, so at most one. */
  function Resume(a: byte): (r: Option<(Fsm, string)>)
    ensures r.None? <==> a in {WakeInAir, Start, Cooldown, Idle, Turn} || a > SuperSpitR
    ensures r.Some? ==> r.value.0 == FsmOf(a)
  {
    if a == Init then Some((Main, "Dormant"))
    else if a == Dormant then Some((Main, "Dormant"))
    else if a == Wake then Some((Main, "Wake Jump"))
    else if a == WakeJump then Some((Main, "Wake In Air"))
    else if a == WakeLand then Some((Main, "Title"))
    else if a == Title then Some((Main, "Wake Roar"))
    else if a == WakeRoar then Some((Main, "RoarEnd"))
    else if a == RoarEnd then Some((Main, "Music"))
    else if a == Music then Some((Main, "Start"))
    else if a == SuperReady then Some((Main, "Super Select"))
    else if a == SuperJump then Some((Main, "Super Jump"))
    else if a == SuperSpit then Some((Main, "Detect Hero Pos"))
    else if a == Shoot then Some((Main, "Super Cooldown"))
    else if a == Jump then Some((Main, "In Air"))
    else if a == Land then Some((Main, "Aim Return"))
    else if a == Jump2 then Some((Main, "In Air 2"))
    else if a == Land2 then Some((Main, "Super Cooldown"))
    else if a == Walk then Some((Main, "Start"))
    else if a == SuperSpitL then Some((Main, "Shoot"))
    else if a == SuperSpitR then Some((Main, "Shoot"))
    else if a == HDormant then Some((Head, "Dormant"))
    else if a == HIdle then Some((Head, "Idle"))
    else if a == HAntic then Some((Head, "Detect Hero Pos"))
    else if a == L then Some((Head, "Shoot"))
    else if a == R then Some((Head, "Shoot"))
    else if a == HShoot then Some((Head, "Idle"))
    else if a == LDormant then Some((ArmL, "Dormant"))
    else if a == LIdle then Some((ArmL, "Idle"))
    else if a == LAntic then Some((ArmL, "Swipe"))
    else if a == LSwipe then Some((ArmL, "Swipe Cooldown"))
    else if a == LCooldown then Some((ArmL, "Re attack Pause"))
    else if a == RDormant then Some((ArmR, "Dormant"))
    else if a == RIdle then Some((ArmR, "Idle"))
    else if a == RAntic then Some((ArmR, "Swipe"))
    else if a == RSwipe then Some((ArmR, "Swipe Cooldown"))
    else if a == RCooldown then Some((ArmR, "Re attack Pause"))
    else None
  }

  /** The Wake replay: the ordinary wake's actions only when the info byte is 0, then
      the Godhome wake's action in every case. */
  function WakeReplay(wakeType: byte): (r: seq<Effect>)
    ensures RunsNode(r, Main, "Wake") <==> wakeType == 0
    ensures |r| > 0 && r[|r| - 1] == Exec("GG Wake", [1])
  {
    assert "GG Wake" != "Wake" by {
      assert |"GG Wake"| != |"Wake"|;
    }
    (if wakeType == 0 then [Exec("Wake", [1, 3])] else []) + [Exec("GG Wake", [1])]
  }

  /** Client side: what receiving animation `a` with info `info` replays, after the
      base call and after storing the index. Reading the Wake info byte of an empty
      info array throws, so that replay fails (None). Every replayed action runs on
      the state machine the index belongs to. */
  function Replay(a: byte, info: seq<byte>): (r: Option<seq<Effect>>)
    ensures r.None? <==> a == Wake && |info| == 0
    ensures r.Some? ==> forall e :: e in r.value ==> e.ExecuteActions? && e.fsm == FsmOf(a)
    ensures r.Some? ==> (r.value == [] <==> a in {Title, Idle, Walk, Turn} || a > SuperSpitR)
  {
    if a == Init then Some([Exec("Init", [12])])
    else if a == Dormant then Some([Exec("Dormant", [1])])
    else if a == Wake then (if |info| == 0 then None else Some(WakeReplay(info[0])))
    else if a == WakeJump then Some([Exec("Wake Jump", [1, 2, 3, 6])])
    else if a == WakeInAir then Some([Exec("Wake In Air", [1])])
    else if a == WakeLand then Some([Exec("Wake Land", [2, 3, 5, 6, 8, 9])])
    else if a == WakeRoar then Some([Exec("Wake Roar", [1, 2, 3, 4, 5, 6, 7, 8])])
    else if a == RoarEnd then Some([Exec("Roar End", [1, 2, 3, 4])])
    else if a == Music then Some([Exec("Music", [2, 3])])
    else if a == Start then Some([Exec("Start", [1, 4, 5, 6])])
    else if a == SuperReady then Some([Exec("Super Ready", [2, 3, 4, 6, 7])])
    else if a == SuperJump then Some([Exec("Super Jump", [5, 6, 7])])
    else if a == SuperSpit then Some([Exec("Super Spit", [1, 2, 3, 4, 5])])
    else if a == SuperSpitL then Some([Exec("L", [1, 2])])
    else if a == SuperSpitR then Some([Exec("R", [1, 2])])
    else if a == Shoot then Some([Exec("Shoot", [1, 2, 3, 4, 5, 6])])
    else if a == Jump then Some([Exec("Jump", [1, 2, 4, 5, 6])])
    else if a == Land then Some([Exec("Land", [2, 3, 4, 5])])
    else if a == Jump2 then Some([Exec("Jump 2", [1, 2, 4, 5, 6])])
    else if a == Land2 then Some([Exec("Land 2", [2, 3, 4, 5])])
    else if a == Cooldown then Some([Exec("Super Cooldown", [1, 2, 3, 4, 5, 6])])
    else if a == HDormant then Some([ExecuteActions(Head, "Dormant", [1])])
    else if a == HIdle then Some([ExecuteActions(Head, "Idle", [1])])
    else if a == HAntic then Some([ExecuteActions(Head, "Shoot Antic", [1])])
    else if a == L then Some([ExecuteActions(Head, "L", [1, 2])])
    else if a == R then Some([ExecuteActions(Head, "R", [1, 2])])
    else if a == HShoot then Some([ExecuteActions(Head, "Shoot", [1, 2, 3, 6])])
    else if a == LDormant then Some([ExecuteActions(ArmL, "Dormant", [1])])
    else if a == LIdle then Some([ExecuteActions(ArmL, "Idle", [1])])
    else if a == LAntic then Some([ExecuteActions(ArmL, "Swipe Antic", [1, 2])])
    else if a == LSwipe then Some([ExecuteActions(ArmL, "Swipe", [1, 2])])
    else if a == LCooldown then Some([ExecuteActions(ArmL, "Swipe Cooldown", [1])])
    else if a == RDormant then Some([ExecuteActions(ArmR, "Dormant", [1])])
    else if a == RIdle then Some([ExecuteActions(ArmR, "Idle", [1])])
    else if a == RAntic then Some([ExecuteActions(ArmR, "Swipe Antic", [1, 2])])
    else if a == RSwipe then Some([ExecuteActions(ArmR, "Swipe", [1, 2])])
    else if a == RCooldown then Some([ExecuteActions(ArmR, "Swipe Cooldown", [1])])
    else Some([])
  }

  /** Client initialisation: freeze all four state machines and the walker. The state
      argument is ignored, so the object is never hidden. */
  function ClientInit(state: Option<byte>): (r: seq<Effect>)
    ensures SetWalkerEnabled(false) in r && Deactivate !in r
  {
    [RemoveAllTransitions(Main), RemoveAllTransitions(Head), RemoveAllTransitions(ArmL),
     RemoveAllTransitions(ArmR), SetWalkerEnabled(false)]
  }

  /** Client initialisation freezes every one of the four state machines. */
  lemma ClientInitFreezesEveryFsm(state: Option<byte>, f: Fsm)
    ensures RemoveAllTransitions(f) in ClientInit(state)
  {
    var r := ClientInit(state);
    match f
    case Main => assert r[0] == RemoveAllTransitions(f);
    case Head => assert r[1] == RemoveAllTransitions(f);
    case ArmL => assert r[2] == RemoveAllTransitions(f);
    case ArmR => assert r[3] == RemoveAllTransitions(f);
  }

  /** The client's state argument makes no difference. */
  lemma ClientInitIgnoresState(s: Option<byte>, t: Option<byte>)
    ensures ClientInit(s) == ClientInit(t)
  {}

  /** A Mawlek that never received an update resumes as if it had received Init. */
  lemma NeverUpdatedResumesDormant()
    ensures Resume(0) == Some((Main, "Dormant"))
  {}

  class BroodingMawlek {
    var lastAnimation: byte
    var effects: seq<Effect>

    constructor ()
      ensures lastAnimation == Init && effects == []
    {
      lastAnimation := 0;
      effects := [];
    }

    method InternalInitializeAsSceneHost()
      modifies this
      ensures lastAnimation == old(lastAnimation)
      ensures effects == old(effects) + [SetWalkerEnabled(true), SendStateUpdate(Active)]
    {
      effects := effects + [SetWalkerEnabled(true), SendStateUpdate(Active)];
    }

    method InternalInitializeAsSceneClient(stateIndex: Option<byte>)
      modifies this
      ensures lastAnimation == old(lastAnimation)
      ensures effects == old(effects) + ClientInit(stateIndex)
    {
      effects := effects + [RemoveAllTransitions(Main), RemoveAllTransitions(Head)];
      effects := effects + [RemoveAllTransitions(ArmL), RemoveAllTransitions(ArmR)];
      effects := effects + [SetWalkerEnabled(false)];
    }

    method InternalSwitchToSceneHost()
      modifies this
      ensures lastAnimation == old(lastAnimation)
      ensures effects == old(effects)
        + [RestoreAllTransitions(Main), RestoreAllTransitions(Head), RestoreAllTransitions(ArmL),
           RestoreAllTransitions(ArmR), SetWalkerEnabled(true)]
        + Forced(Resume(lastAnimation))
    {
      effects := effects + [RestoreAllTransitions(Main), RestoreAllTransitions(Head)];
      effects := effects + [RestoreAllTransitions(ArmL), RestoreAllTransitions(ArmR)];
      effects := effects + [SetWalkerEnabled(true)] + Forced(Resume(lastAnimation));
    }

    /** Stores the index before any replay. `thrown` reports the Wake replay reading
        the info byte of an empty info array; the replay then does not happen. */
    method UpdateAnimation(animationIndex: byte, animationInfo: seq<byte>) returns (thrown: bool)
      modifies this
      ensures lastAnimation == animationIndex
      ensures thrown <==> animationIndex == Wake && |animationInfo| == 0
      ensures effects == old(effects) + [BaseUpdateAnimation(animationIndex, animationInfo)]
        + if thrown then [] else Replay(animationIndex, animationInfo).value
    {
      effects := effects + [BaseUpdateAnimation(animationIndex, animationInfo)];
      lastAnimation := animationIndex;
      var replay := Replay(animationIndex, animationInfo);
      if replay.None? {
        return true;
      }
      effects := effects + replay.value;
      return false;
    }

    /** State updates are ignored by this enemy. */
    method UpdateState(stateIndex: byte)
    {
    }
  }
}
