/** Values shared by the entity model: C#'s `byte`, an option type, and the engine
    effects an entity can cause, recorded as an append-only trace. */
module Common {

  /** C#'s `byte`: an unsigned 8-bit value. */
  type byte = x: int | 0 <= x < 256

  datatype Option<T> = None | Some(value: T)

  /** The PlayMaker state machine an effect addresses. Brooding Mawlek drives four of
      them (body, head and both arms); every other enemy drives only `Main`. */
  datatype Fsm = Main | Head | ArmL | ArmR

  /** One call an entity makes into the engine or the networking layer. The engine
      itself is not modelled: each call is recorded, in order, as one trace entry. */
  datatype Effect =
    | BaseUpdateAnimation(index: byte, info: seq<byte>)   // base.UpdateAnimation(index, info)
    | BaseDieHook                                         // base.HealthManagerOnDieHook(...)
    | SendStateUpdate(state: byte)
    | SetState(fsm: Fsm, node: string)                    // fsm.SetState(node)
    | ExecuteActions(fsm: Fsm, node: string, actions: seq<nat>)
    | RemoveAllTransitions(fsm: Fsm)
    | RestoreAllTransitions(fsm: Fsm)
    | Deactivate                                          // gameObject.SetActive(false)
    | WalkerStop                                          // walker.Stop(StopReasons.Bored)
    | SetWalkerEnabled(on: bool)
    | SetAnimatorEnabled(on: bool)
    | PlayClip(clip: string)                              // sprite animator Play(clip)
    | AudioPlay
    | AudioStop

  /** The `SetState` call a reconciliation switch makes for a resume target, if any. */
  function Forced(target: Option<(Fsm, string)>): (r: seq<Effect>)
    ensures |r| <= 1
    ensures r == [] <==> target.None?
    ensures target.Some? ==> r[0] == SetState(target.value.0, target.value.1)
  {
    match target
    case None => []
    case Some(t) => [SetState(t.0, t.1)]
  }

  /** `ExecuteActions(fsm, node, ...)` on the main state machine. */
  function Exec(node: string, actions: seq<nat>): Effect
  {
    ExecuteActions(Main, node, actions)
  }

  /** True when the first effect runs actions of `node` on the main state machine. */
  predicate StartsOnNode(effects: seq<Effect>, node: string)
  {
    |effects| >= 1 && effects[0].ExecuteActions? && effects[0].fsm == Main && effects[0].node == node
  }

  /** True when the trace runs actions of `node` on state machine `fsm`. */
  predicate RunsNode(effects: seq<Effect>, fsm: Fsm, node: string)
  {
    |effects| > 0
    && ((effects[0].ExecuteActions? && effects[0].fsm == fsm && effects[0].node == node)
        || RunsNode(effects[1..], fsm, node))
  }

  /** The effect `gameObject.SetActive(false)` when `dead` holds, nothing otherwise. */
  function DeactivateIf(dead: bool): seq<Effect>
  {
    if dead then [Deactivate] else []
  }
}
