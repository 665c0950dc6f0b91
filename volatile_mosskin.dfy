/** Volatile Mosskin: an attack state machine plus a walker whose clips are synchronised
    separately. */
module VolatileMosskin {
  import opened Common

  // State enum
  const Active: byte := 0
  const Dead: byte := 1

  // Animation enum
  const AttackAntic: byte := 0
  const Attack: byte := 1
  const CD: byte := 2
  const IdlePause: byte := 3
  const Idle: byte := 4
  const Walk: byte := 5
  const Turn: byte := 6
  const Death: byte := 7

  /** Host side: the animation index sent when the state machine enters `node`. Apart from
      "Dead", whose index is replayed on node "Death", the client replays the index on that
      same node. */
  function Hook(node: string): (r: Option<byte>)
    ensures r.Some? ==> r.value <= Death
    ensures r.Some? ==> (Resume(r.value).None? <==> r.value == Death)
    ensures r.Some? && node !in {"Dead"} ==> |Replay(r.value)| == 1 && StartsOnNode(Replay(r.value), node)
  {
    if node == "Attack Antic" then Some(AttackAntic)
    else if node == "Attack" then Some(Attack)
    else if node == "CD" then Some(CD)
    else if node == "Idle Pause" then Some(IdlePause)
    else if node == "Dead" then Some(Death)
    else None
  }

  /** Host side: the index sent when the walker's sprite animator starts the clip named
      `clip`. */
  function ClipHook(clip: string): (r: Option<byte>)
    ensures r.Some? <==> clip in {"Idle", "Walk", "Turn"}
    ensures r.Some? ==> PlayClip(clip) in Replay(r.value)
    ensures r.Some? ==> (Resume(r.value).None? <==> r.value in {Idle, Turn})
  {
    if clip == "Idle" then Some(Idle)
    else if clip == "Walk" then Some(Walk)
    else if clip == "Turn" then Some(Turn)
    else None
  }

  /** The state the reconciliation switch forces when this client becomes scene host,
      given the last animation it received. */
  function Resume(a: byte): (r: Option<(Fsm, string)>)
    ensures r.None? <==> a in {Idle, Turn, Death} || a > Death
    ensures r.Some? ==> r.value.0 == Main
  {
    if a == Walk then Some((Main, "Reset"))
    else if a == AttackAntic then Some((Main, "Attack"))
    else if a == Attack then Some((Main, "CD"))
    else if a == CD then Some((Main, "IdlePause"))
    else if a == IdlePause then Some((Main, "Reset"))
    else None
  }

  /** Client side: what receiving animation `a` replays, after the base call. */
  function Replay(a: byte): (r: seq<Effect>)
    ensures r == [] <==> a > Death
    ensures a in {AttackAntic, Attack, CD, IdlePause, Death} ==> |r| == 1 && r[0].ExecuteActions? && r[0].fsm == Main
    ensures AudioStop in r <==> a == Idle
    ensures AudioPlay in r <==> a == Walk
  {
    if a == AttackAntic then [Exec("Attack Antic", [1, 2, 5, 6])]
    else if a == Attack then [Exec("Attack", [2, 3, 4, 5, 6, 8])]
    else if a == CD then [Exec("CD", [1])]
    else if a == IdlePause then [Exec("Idle Pause", [2])]
    else if a == Death then [Exec("Death", [1, 2, 3, 4, 5])]
    else if a == Idle then [PlayClip("Idle"), AudioStop]
    else if a == Walk then [AudioPlay, PlayClip("Walk")]
    else if a == Turn then [PlayClip("Turn")]
    else []
  }

  /** Client initialisation: freeze the FSM, stop and disable the walker, and hide the
      object exactly when the scene reports it dead. */
  function ClientInit(state: Option<byte>): (r: seq<Effect>)
    ensures Deactivate in r <==> state == Some(Dead)
    ensures |r| >= 3 && r[..3] == [RemoveAllTransitions(Main), WalkerStop, SetWalkerEnabled(false)]
  {
    [RemoveAllTransitions(Main), WalkerStop, SetWalkerEnabled(false)] + DeactivateIf(state == Some(Dead))
  }

  /** Hook and Replay are inverse: the node an animation is replayed on is a node
      whose hook sends that same animation. */
  lemma ReplayedNodeSendsIt(a: byte)
    requires a in {AttackAntic, Attack, CD, IdlePause}
    ensures Hook(Replay(a)[0].node) == Some(a)
  {
  }

  /** A mosskin that never received an update resumes with "Attack". */
  lemma NeverUpdatedResumesAttack()
    ensures Resume(0) == Some((Main, "Attack"))
  {}

  /** The host's "Dead" node sends Death (7), which the client replays on node "Death". */
  lemma DeathReplay()
    ensures Hook("Dead") == Some(Death) && Death == 7
    ensures Replay(Death) == [Exec("Death", [1, 2, 3, 4, 5])]
  {
  }

  /** The state forced after CD is spelt "IdlePause", while the node that sends
      IdlePause and the node it is replayed on are both spelt "Idle Pause". */
  lemma IdlePauseResumeNameDiffers()
    ensures Resume(CD) == Some((Main, "IdlePause")) && "IdlePause" != "Idle Pause"
    ensures Hook("Idle Pause") == Some(IdlePause) && Replay(IdlePause)[0].node == "Idle Pause"
  {
    assert |"IdlePause"| != |"Idle Pause"|;
  }

  class VolatileMosskin {
    var lastAnimation: byte
    var effects: seq<Effect>

    constructor ()
      ensures lastAnimation == AttackAntic && effects == []
    {
      lastAnimation := 0;
      effects := [];
    }

    method InternalInitializeAsSceneHost()
      modifies this
      ensures lastAnimation == old(lastAnimation)
      ensures effects == old(effects) + [SendStateUpdate(Active), SetWalkerEnabled(true)]
    {
      effects := effects + [SendStateUpdate(Active), SetWalkerEnabled(true)];
    }

    method InternalInitializeAsSceneClient(stateIndex: Option<byte>)
      modifies this
      ensures lastAnimation == old(lastAnimation)
      ensures effects == old(effects) + ClientInit(stateIndex)
    {
      effects := effects + [RemoveAllTransitions(Main), WalkerStop, SetWalkerEnabled(false)];
      if stateIndex == Some(Dead) {
        effects := effects + [Deactivate];
      }
    }

    method HealthManagerOnDieHook()
      modifies this
      ensures lastAnimation == old(lastAnimation)
      ensures effects == old(effects) + [BaseDieHook, SendStateUpdate(Dead)]
    {
      effects := effects + [BaseDieHook, SendStateUpdate(Dead)];
    }

    method InternalSwitchToSceneHost()
      modifies this
      ensures lastAnimation == old(lastAnimation)
      ensures effects == old(effects) + [RestoreAllTransitions(Main), SetWalkerEnabled(true)] + Forced(Resume(lastAnimation))
    {
      effects := effects + [RestoreAllTransitions(Main), SetWalkerEnabled(true)] + Forced(Resume(lastAnimation));
    }

    method UpdateAnimation(animationIndex: byte, animationInfo: seq<byte>)
      modifies this
      ensures lastAnimation == animationIndex
      ensures effects == old(effects) + [BaseUpdateAnimation(animationIndex, animationInfo)] + Replay(animationIndex)
    {
      effects := effects + [BaseUpdateAnimation(animationIndex, animationInfo)];
      lastAnimation := animationIndex;
      effects := effects + Replay(animationIndex);
    }

    /** State updates are ignored by this enemy. */
    method UpdateState(stateIndex: byte)
    {
    }
  }
}
