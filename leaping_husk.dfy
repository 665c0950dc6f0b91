/** Leaping Husk: a state machine for the leap plus a walker whose clips are synchronised
    separately. */
module LeapingHusk {
  import opened Common

  // State enum
  const Active: byte := 0
  const Dead: byte := 1

  // Animation enum
  const Attack: byte := 0
  const Land: byte := 1
  const Idle: byte := 2
  const Walk: byte := 3
  const Turn: byte := 4

  /** Host side: the animation index sent when the state machine enters `node`. "Anticipate"
      sends Attack and "Cooldown" sends Land, each replayed on that same node; "Idle" shares
      the walker's Idle index. */
  function Hook(node: string): (r: Option<byte>)
    ensures r.Some? ==> r.value <= Turn
    ensures r.Some? ==> (Resume(r.value).None? <==> r.value == Idle)
    ensures r.Some? && node !in {"Idle"} ==> |Replay(r.value)| == 1 && StartsOnNode(Replay(r.value), node)
  {
    if node == "Anticipate" then Some(Attack)
    else if node == "Cooldown" then Some(Land)
    else if node == "Idle" then Some(Idle)
    else None
  }

  /** Host side: the index sent when the walker's sprite animator starts the clip named
      `clip`. */
  function ClipHook(clip: string): (r: Option<byte>)
    ensures r.Some? <==> clip in {"Idle", "Walk", "Turn"}
    ensures r.Some? ==> PlayClip(clip) in Replay(r.value)
    ensures r.Some? ==> (Resume(r.value).None? <==> r.value in {Idle, Turn})
  {
    if clip == "Idle" then Some(Idle)
    else if clip == "Walk" then Some(Walk)
    else if clip == "Turn" then Some(Turn)
    else None
  }

  /** The state the reconciliation switch forces when this client becomes scene host,
      given the last animation it received. */
  function Resume(a: byte): (r: Option<(Fsm, string)>)
    ensures r.None? <==> a in {Idle, Turn} || a > Turn
    ensures r.Some? ==> r.value.0 == Main
  {
    if a == Walk then Some((Main, "Idle"))
    else if a == Attack then Some((Main, "Launch"))
    else if a == Land then Some((Main, "Idle"))
    else None
  }

  /** Client side: what receiving animation `a` replays, after the base call. */
  function Replay(a: byte): (r: seq<Effect>)
    ensures r == [] <==> a > Turn
    ensures a in {Attack, Land} ==> |r| == 1 && r[0].ExecuteActions? && r[0].fsm == Main
    ensures AudioStop in r <==> a == Idle
    ensures AudioPlay in r <==> a == Walk
  {
    if a == Attack then [Exec("Anticipate", [2, 3, 5])]
    else if a == Land then [Exec("Cooldown", [1, 2])]
    else if a == Idle then [PlayClip("Idle"), AudioStop]
    else if a == Walk then [AudioPlay, PlayClip("Walk")]
    else if a == Turn then [PlayClip("Turn")]
    else []
  }

  /** Client initialisation: freeze the FSM, stop and disable the walker, and hide the
      object exactly when the scene reports it dead. */
  function ClientInit(state: Option<byte>): (r: seq<Effect>)
    ensures Deactivate in r <==> state == Some(Dead)
    ensures |r| >= 3 && r[..3] == [RemoveAllTransitions(Main), WalkerStop, SetWalkerEnabled(false)]
  {
    [RemoveAllTransitions(Main), WalkerStop, SetWalkerEnabled(false)] + DeactivateIf(state == Some(Dead))
  }

  /** Hook and Replay are inverse: the node an animation is replayed on is a node
      whose hook sends that same animation. */
  lemma ReplayedNodeSendsIt(a: byte)
    requires a in {Attack, Land}
    ensures Hook(Replay(a)[0].node) == Some(a)
  {
  }

  /** A leaping husk that never received an update resumes with "Launch". */
  lemma NeverUpdatedResumesLaunch()
    ensures Resume(0) == Some((Main, "Launch"))
  {}

  class LeapingHusk {
    var lastAnimation: byte
    var effects: seq<Effect>

    constructor ()
      ensures lastAnimation == Attack && effects == []
    {
      lastAnimation := 0;
      effects := [];
    }

    method InternalInitializeAsSceneHost()
      modifies this
      ensures lastAnimation == old(lastAnimation)
      ensures effects == old(effects) + [SendStateUpdate(Active), SetWalkerEnabled(true)]
    {
      effects := effects + [SendStateUpdate(Active), SetWalkerEnabled(true)];
    }

    method InternalInitializeAsSceneClient(stateIndex: Option<byte>)
      modifies this
      ensures lastAnimation == old(lastAnimation)
      ensures effects == old(effects) + ClientInit(stateIndex)
    {
      effects := effects + [RemoveAllTransitions(Main), WalkerStop, SetWalkerEnabled(false)];
      if stateIndex == Some(Dead) {
        effects := effects + [Deactivate];
      }
    }

    method HealthManagerOnDieHook()
      modifies this
      ensures lastAnimation == old(lastAnimation)
      ensures effects == old(effects) + [BaseDieHook, SendStateUpdate(Dead)]
    {
      effects := effects + [BaseDieHook, SendStateUpdate(Dead)];
    }

    method InternalSwitchToSceneHost()
      modifies this
      ensures lastAnimation == old(lastAnimation)
      ensures effects == old(effects) + [RestoreAllTransitions(Main), SetWalkerEnabled(true)] + Forced(Resume(lastAnimation))
    {
      effects := effects + [RestoreAllTransitions(Main), SetWalkerEnabled(true)] + Forced(Resume(lastAnimation));
    }

    method UpdateAnimation(animationIndex: byte, animationInfo: seq<byte>)
      modifies this
      ensures lastAnimation == animationIndex
      ensures effects == old(effects) + [BaseUpdateAnimation(animationIndex, animationInfo)] + Replay(animationIndex)
    {
      effects := effects + [BaseUpdateAnimation(animationIndex, animationInfo)];
      lastAnimation := animationIndex;
      effects := effects + Replay(animationIndex);
    }

    /** State updates are ignored by this enemy. */
    method UpdateState(stateIndex: byte)
    {
    }
  }
}
