/**
 * The admission rules of the dispatcher: which connection stage each packet's
 * handler accepts, and when a timed action may run, must wait, or is ignored.
 */
module Gating {

  import C = ClientPackets
  import opened World

  datatype GameStage = None | Login | Select | Game | Observer | Disconnected

  /** The stages a handler accepts before it does anything. */
  datatype Gate = Anytime | OnlyIn(stage: GameStage) | GameOrObserver

  /** The stage check each handler performs on entry. */
  function GateOf(p: C.Packet): (g: Gate)
    ensures g == Anytime <==> p.Disconnect? || p.KeepAlive? || p.MailLockedItem? || p.Invalid?
    ensures g == GameOrObserver <==> p.Observe? || p.GetRanking?
    ensures g == OnlyIn(Login) <==> p.NewAccount? || p.ChangePassword? || p.Login?
    ensures g == OnlyIn(Select) <==> p.NewCharacter? || p.DeleteCharacter? || p.StartGame?
    ensures g == OnlyIn(None) <==> p.ClientVersion?
    ensures g.OnlyIn? ==> g.stage in {None, Login, Select, Game}
  {
    match p
    case ClientVersion(_) => OnlyIn(None)
    case Disconnect | KeepAlive(_) | MailLockedItem(_, _) | Invalid(_) => Anytime
    case NewAccount | ChangePassword | Login => OnlyIn(Login)
    case NewCharacter | DeleteCharacter(_) | StartGame(_) => OnlyIn(Select)
    case Observe | GetRanking => GameOrObserver
    case _ => OnlyIn(Game)
  }

  /** Whether the handler for `p` passes its stage check in `stage`. */
  predicate Admits(stage: GameStage, p: C.Packet) {
    match GateOf(p)
    case Anytime => true
    case OnlyIn(s) => stage == s
    case GameOrObserver => stage == Game || stage == Observer
  }

  /** The Chat packet whose message exceeds the limit: it disconnects in every stage. */
  predicate OversizeChat(p: C.Packet, maxChatLength: nat) {
    p.Chat? && p.messageLength > maxChatLength
  }

  /** The outcome of a timed action's cooldown check. */
  datatype Admission = Execute | Defer | Drop

  /** The cooldowns an action waits for have all elapsed at `time`. */
  predicate Ready(a: C.TimedAction, pl: PlayerState, time: int) {
    match a
    case Turn(_) | Walk(_) | Harvest(_) => pl.actionTime <= time
    case Attack(_) | RangeAttack(_) => pl.actionTime <= time && pl.attackTime <= time
    case Magic(_) => pl.actionTime <= time && pl.spellTime <= time
  }

  /** The first tick at which `a` is ready. */
  function ReadyAt(a: C.TimedAction, pl: PlayerState): (t: int)
    ensures forall time :: Ready(a, pl, time) <==> t <= time
  {
    match a
    case Turn(_) | Walk(_) | Harvest(_) => pl.actionTime
    case Attack(_) | RangeAttack(_) => Max(pl.actionTime, pl.attackTime)
    case Magic(_) => Max(pl.actionTime, pl.spellTime)
  }

  function Max(a: int, b: int): int { if a < b then b else a }

  /**
   * The handlers' cooldown checks. A living player's action runs exactly when
   * it is ready and otherwise waits in the retry list; a dead player's Magic is
   * dropped, and a dead player's Attack, RangeAttack and Harvest skip the wait.
   */
  function Admit(a: C.TimedAction, pl: PlayerState, time: int): (r: Admission)
    ensures r == Drop <==> a.Magic? && pl.dead
    ensures !pl.dead ==> (r == Execute <==> Ready(a, pl, time))
    ensures !pl.dead ==> (r == Defer <==> !Ready(a, pl, time))
    ensures pl.dead && !a.Magic? ==> (r == Defer <==> (a.Turn? || a.Walk?) && !Ready(a, pl, time))
  {
    match a
    case Turn(_) | Walk(_) =>
      if pl.actionTime > time then Defer else Execute
    case Attack(_) | RangeAttack(_) =>
      if !pl.dead && (pl.actionTime > time || pl.attackTime > time) then Defer else Execute
    case Harvest(_) =>
      if !pl.dead && pl.actionTime > time then Defer else Execute
    case Magic(_) =>
      if pl.dead then Drop
      else if pl.actionTime > time || pl.spellTime > time then Defer
      else Execute
  }

  /**
   * A waiting action is retried on every later tick; with the player's timers
   * unchanged it first runs on the tick ReadyAt names, never before.
   */
  lemma RetriedRunsOnReadyTick(a: C.TimedAction, pl: PlayerState, arrival: int, tick: int)
    requires !pl.dead && arrival <= tick
    requires Admit(a, pl, arrival) == Defer
    ensures Admit(a, pl, tick) == Execute <==> tick >= ReadyAt(a, pl)
    ensures arrival < ReadyAt(a, pl)
  {
  }
}
