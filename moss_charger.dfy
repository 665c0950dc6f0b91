/** Moss Charger: a "Mossy Control" state machine, hooked and replayed node by node. The
    entity manager never constructs this class: its "Mega Moss Charger" rule builds
    MassiveMossCharger, which is not part of this model. */
module MossCharger {
  import opened Common

  // State enum
  const Active: byte := 0
  const Dead: byte := 1

  // Animation enum
  const Detach: byte := 0
  const Emerge: byte := 1
  const Charge: byte := 2
  const Submerge: byte := 3
  const SubmergeGrass: byte := 4
  const SubmergeCD: byte := 5
  const PlayRange: byte := 6
  const LineLoop: byte := 7
  const Burst: byte := 8
  const FlyLeft: byte := 9
  const FlyRight: byte := 10
  const FlyUp: byte := 11
  const FlyDown: byte := 12
  const InAir: byte := 13
  const GetUp: byte := 14
  const Direction: byte := 15
  const RunL: byte := 16
  const RunR: byte := 17
  const OnGround: byte := 18
  const DigStart: byte := 19
  const Dig: byte := 20

  /** Host side: the animation index sent when the state machine enters `node`. The client
      replays the index on that same node. */
  function Hook(node: string): (r: Option<byte>)
    ensures r.Some? ==> r.value <= Dig
    ensures r.Some? ==> (Resume(r.value).None? <==> r.value == Detach)
    ensures r.Some? ==> |Replay(r.value)| == 1 && StartsOnNode(Replay(r.value), node)
  {
    if node == "Detach" then Some(Detach)
    else if node == "Emerge" then Some(Emerge)
    else if node == "Charge" then Some(Charge)
    else if node == "Submerge" then Some(Submerge)
    else if node == "Submerge Grass effect" then Some(SubmergeGrass)
    else if node == "Submerge CD" then Some(SubmergeCD)
    else if node == "Play Range" then Some(PlayRange)
    else if node == "Line Loop" then Some(LineLoop)
    else if node == "Burst" then Some(Burst)
    else if node == "Fly Left" then Some(FlyLeft)
    else if node == "Fly Right" then Some(FlyRight)
    else if node == "FlyUp" then Some(FlyUp)
    else if node == "Fly Down" then Some(FlyDown)
    else if node == "In Air" then Some(InAir)
    else if node == "Get Up" then Some(GetUp)
    else if node == "Direction" then Some(Direction)
    else if node == "Run L" then Some(RunL)
    else if node == "Run R" then Some(RunR)
    else if node == "On Ground?" then Some(OnGround)
    else if node == "Dig Start" then Some(DigStart)
    else if node == "Dig" then Some(Dig)
    else None
  }

  /** The state the reconciliation switch forces when this client becomes scene host,
      given the last animation it received. */
  function Resume(a: byte): (r: Option<(Fsm, string)>)
    ensures r.None? <==> a == Detach || a > Dig
    ensures r.Some? ==> r.value.0 == Main
  {
    if a == Emerge then Some((Main, "Charge"))
    else if a == Charge then Some((Main, "Charge"))
    else if a == Submerge then Some((Main, "Submerge Grass effect"))
    else if a == SubmergeGrass then Some((Main, "Submerge CD"))
    else if a == SubmergeCD then Some((Main, "Play Range"))
    else if a == PlayRange then Some((Main, "Hidden"))
    else if a == LineLoop then Some((Main, "Line Loop"))
    else if a == Burst then Some((Main, "Burst"))
    else if a == FlyLeft then Some((Main, "In Air"))
    else if a == FlyRight then Some((Main, "In Air"))
    else if a == FlyUp then Some((Main, "In Air"))
    else if a == FlyDown then Some((Main, "In Air"))
    else if a == InAir then Some((Main, "Land"))
    else if a == GetUp then Some((Main, "Direction"))
    else if a == Direction then Some((Main, "Direction"))
    else if a == RunL then Some((Main, "Run L"))
    else if a == RunR then Some((Main, "Run R"))
    else if a == OnGround then Some((Main, "On Ground?"))
    else if a == DigStart then Some((Main, "Dig Start"))
    else if a == Dig then Some((Main, "Dig"))
    else None
  }

  /** Client side: what receiving animation `a` replays, after the base call. */
  function Replay(a: byte): (r: seq<Effect>)
    ensures r == [] <==> a > Dig
    ensures a <= Dig ==> |r| == 1 && r[0].ExecuteActions? && r[0].fsm == Main
  {
    if a == Detach then [Exec("Detach", [1, 2, 3])]
    else if a == Emerge then [Exec("Emerge", [1, 2, 7, 8, 11, 12])]
    else if a == Charge then [Exec("Charge", [1, 2, 3, 4])]
    else if a == Submerge then [Exec("Submerge", [1, 2, 3, 5])]
    else if a == SubmergeGrass then [Exec("Submerge Grass effect", [1, 2])]
    else if a == SubmergeCD then [Exec("Submerge CD", [1, 2, 3, 5, 6])]
    else if a == PlayRange then [Exec("Play Range", [1])]
    else if a == LineLoop then [Exec("Line Loop", [3, 4])]
    else if a == Burst then [Exec("Burst", [1, 2, 3, 4, 5, 7, 8])]
    else if a == FlyLeft then [Exec("Fly Left", [2])]
    else if a == FlyRight then [Exec("Fly Right", [2])]
    else if a == FlyUp then [Exec("FlyUp", [2])]
    else if a == FlyDown then [Exec("Fly Down", [3])]
    else if a == InAir then [Exec("In Air", [1, 7, 8])]
    else if a == GetUp then [Exec("Get Up", [1])]
    else if a == Direction then [Exec("Direction", [1, 2, 3, 4])]
    else if a == RunL then [Exec("Run L", [1])]
    else if a == RunR then [Exec("Run R", [1])]
    else if a == OnGround then [Exec("On Ground?", [1])]
    else if a == DigStart then [Exec("Dig Start", [3, 4, 7])]
    else if a == Dig then [Exec("Dig", [3, 5])]
    else []
  }

  /** Client initialisation: freeze the FSM and hide the object exactly when the scene
      reports it dead. */
  function ClientInit(state: Option<byte>): (r: seq<Effect>)
    ensures Deactivate in r <==> state == Some(Dead)
    ensures |r| >= 1 && r[..1] == [RemoveAllTransitions(Main)]
  {
    [RemoveAllTransitions(Main)] + DeactivateIf(state == Some(Dead))
  }

  /** Hook and Replay are inverse: the node an animation is replayed on is a node
      whose hook sends that same animation. */
  lemma ReplayedNodeSendsIt(a: byte)
    requires a <= Dig
    ensures Hook(Replay(a)[0].node) == Some(a)
  {
    if a in {Detach, Emerge, Charge, Submerge} {
      ReplayedNodeSendsItDetachToSubmerge(a);
    } else if a in {SubmergeGrass, SubmergeCD, PlayRange, LineLoop} {
      ReplayedNodeSendsItSubmergeGrassToLineLoop(a);
    } else if a in {Burst, FlyLeft, FlyRight, FlyUp} {
      ReplayedNodeSendsItBurstToFlyUp(a);
    } else if a in {FlyDown, InAir, GetUp, Direction} {
      ReplayedNodeSendsItFlyDownToDirection(a);
    } else if a in {RunL, RunR, OnGround, DigStart} {
      ReplayedNodeSendsItRunLToDigStart(a);
    } else {
      ReplayedNodeSendsItDigToDig(a);
    }
  }

  // The helpers below only split the case analysis of ReplayedNodeSendsIt into parts
  // small enough for the solver.

  lemma ReplayedNodeSendsItDetachToSubmerge(a: byte)
    requires a in {Detach, Emerge, Charge, Submerge}
    ensures Hook(Replay(a)[0].node) == Some(a)
  {
  }

  lemma ReplayedNodeSendsItSubmergeGrassToLineLoop(a: byte)
    requires a in {SubmergeGrass, SubmergeCD, PlayRange, LineLoop}
    ensures Hook(Replay(a)[0].node) == Some(a)
  {
  }

  lemma ReplayedNodeSendsItBurstToFlyUp(a: byte)
    requires a in {Burst, FlyLeft, FlyRight, FlyUp}
    ensures Hook(Replay(a)[0].node) == Some(a)
  {
  }

  lemma ReplayedNodeSendsItFlyDownToDirection(a: byte)
    requires a in {FlyDown, InAir, GetUp, Direction}
    ensures Hook(Replay(a)[0].node) == Some(a)
  {
  }

  lemma ReplayedNodeSendsItRunLToDigStart(a: byte)
    requires a in {RunL, RunR, OnGround, DigStart}
    ensures Hook(Replay(a)[0].node) == Some(a)
  {
  }

  lemma ReplayedNodeSendsItDigToDig(a: byte)
    requires a == Dig
    ensures Hook(Replay(a)[0].node) == Some(a)
  {
  }

  /** Detach is 0, so a charger that never received an update is forced into no state. */
  lemma NeverUpdatedForcesNothing()
    ensures Resume(0) == None
  {}

  class MossCharger {
    var lastAnimation: byte
    var effects: seq<Effect>

    constructor ()
      ensures lastAnimation == Detach && effects == []
    {
      lastAnimation := 0;
      effects := [];
    }

    method InternalInitializeAsSceneHost()
      modifies this
      ensures lastAnimation == old(lastAnimation)
      ensures effects == old(effects) + [SendStateUpdate(Active)]
    {
      effects := effects + [SendStateUpdate(Active)];
    }

    method InternalInitializeAsSceneClient(stateIndex: Option<byte>)
      modifies this
      ensures lastAnimation == old(lastAnimation)
      ensures effects == old(effects) + ClientInit(stateIndex)
    {
      effects := effects + [RemoveAllTransitions(Main)];
      if stateIndex == Some(Dead) {
        effects := effects + [Deactivate];
      }
    }

    method HealthManagerOnDieHook()
      modifies this
      ensures lastAnimation == old(lastAnimation)
      ensures effects == old(effects) + [BaseDieHook, SendStateUpdate(Dead)]
    {
      effects := effects + [BaseDieHook, SendStateUpdate(Dead)];
    }

    method InternalSwitchToSceneHost()
      modifies this
      ensures lastAnimation == old(lastAnimation)
      ensures effects == old(effects) + [RestoreAllTransitions(Main)] + Forced(Resume(lastAnimation))
    {
      effects := effects + [RestoreAllTransitions(Main)] + Forced(Resume(lastAnimation));
    }

    method UpdateAnimation(animationIndex: byte, animationInfo: seq<byte>)
      modifies this
      ensures lastAnimation == animationIndex
      ensures effects == old(effects) + [BaseUpdateAnimation(animationIndex, animationInfo)] + Replay(animationIndex)
    {
      effects := effects + [BaseUpdateAnimation(animationIndex, animationInfo)];
      lastAnimation := animationIndex;
      effects := effects + Replay(animationIndex);
    }

    /** State updates are ignored by this enemy. */
    method UpdateState(stateIndex: byte)
    {
    }
  }
}
