/**
 * The collaborators the connection talks to, seen from the connection: the
 * game clock and environment (Envir), the bound player (PlayerObject), and the
 * log of calls made into them.
 */
module World {

  import opened Primitives
  import opened MirDatabase
  import C = ClientPackets
  import S = ServerPackets

  /** The part of a PlayerObject that the connection reads or writes. */
  datatype PlayerState = PlayerState(
    actionTime: int,
    attackTime: int,
    spellTime: int,
    logTime: int,
    dead: bool,
    aMode: int,
    pMode: int,
    allowTrade: bool,
    npcObjectID: int,
    magics: seq<UserMagic>)

  /**
   * What the environment supplies to one call: Envir.Time (milliseconds),
   * Envir.Now (milliseconds since DateTime.MinValue), the object id of the
   * default NPC, and the PlayerObject constructor applied to a character.
   */
  datatype Env = Env(
    time: int,
    now: nat,
    defaultNPC: int,
    spawn: CharacterInfo -> PlayerState)

  /** Calls made into the bound PlayerObject. */
  datatype PlayerOp =
    | Perform(action: C.TimedAction)
    | Run(request: C.PlayerRequest)
    | SayChat
    | UseInventoryItem
    | ToggleSpell
    | VisitNPC(objectID: int)
    | VisitDefaultNPC
    | VisitClientNPC
    | BeginGame
    | StopGame(reason: byte)
    | QuoteMailCost

  /** Calls made into the environment. */
  datatype EnvirOp =
    | CreateAccount
    | UpdatePassword
    | SignIn
    | CreateCharacter(admin: bool)
    | RemoveRank(characterIndex: int)
    | StartObserving
    | SendRanking

  /** One outbound effect of the connection, in the order it happens. */
  datatype Effect =
    | PlayerCall(op: PlayerOp)
    | EnvirCall(eop: EnvirOp)
    | BlockIP(seconds: int)
    | Send(packets: seq<S.Packet>)
    | Unregister

  /** Envir.UpdateIPBlock(..., TimeSpan.FromHours(24)), in seconds. */
  const DayBlock: int := 24 * 60 * 60
}
