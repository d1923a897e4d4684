/**
 * MirConnection: one client's protocol state machine. The socket, the codec,
 * Envir, the PlayerObject and the log are collaborators; the calls made into
 * them are recorded in the ghost `Trace`.
 */
module MirNetwork {

  import P = Primitives
  import opened MirDatabase
  import C = ClientPackets
  import S = ServerPackets
  import opened World
  import opened Gating
  import LP = LastPackets
  import FG = FloodGuard
  import MK = MagicKeys
  import IC = ItemInfoCache

  /** The server settings the connection reads (Settings and Globals.MaxChatLength). */
  datatype ServerSettings = ServerSettings(
    timeOut: int,
    maxPacket: int,
    checkVersion: bool,
    versionHashes: seq<seq<P.byte>>,
    allowDeleteCharacter: bool,
    allowStartGame: bool,
    ipBlockSeconds: int,
    maxChatLength: nat)

  /** The longest NPC key CallNPC accepts. */
  const MaxNPCKeyLength: nat := 30

  /** uint.MaxValue: the object id of the client-side default NPC. */
  const ClientNPC: int := 4294967295

  /** The grace period the Disconnecting setter grants, in milliseconds. */
  const DisconnectGrace: int := 500

  /** What one receive callback observed on the socket. */
  datatype Read =
    | Failed                                           // EndReceive threw
    | Closed                                           // zero bytes read
    | Bytes(decoded: seq<C.Packet>, malformed: bool)   // the packets decoded, and whether decoding then threw

  /** How a tick of Process ended. */
  datatype TickEnd =
    | SocketLost
    | DroppedWhileDraining
    | TimedOut
    | Flushed(packets: seq<S.Packet>)
    | Idle

  /** The player's StopGame call made by a teardown, if a player is bound. */
  function StopEffects(player: P.Option<PlayerState>, reason: P.byte): seq<Effect> {
    if player.Some? then [PlayerCall(StopGame(reason))] else []
  }

  /**
   * The position of the first character with the given index, or -1 when the
   * account has none.
   */
  function FirstIndex(cs: seq<CharacterInfo>, index: int): (i: int)
    ensures -1 <= i < |cs|
    ensures i == -1 <==> forall j :: 0 <= j < |cs| ==> cs[j].index != index
    ensures i >= 0 ==> cs[i].index == index && forall j :: 0 <= j < i ==> cs[j].index != index
  {
    if cs == [] then -1
    else if cs[0].index == index then 0
    else
      var k := FirstIndex(cs[1..], index);
      if k == -1 then -1 else k + 1
  }

  /** A character admitted to the game: any expired ban is lifted, its reason and expiry reset. */
  function Cleared(c: CharacterInfo): CharacterInfo {
    c.(banned := false, banReason := "", expiryDate := MinValue)
  }

  /** The character's ban still holds at `now`. */
  predicate BanActive(c: CharacterInfo, now: nat) {
    c.banned && c.expiryDate > now
  }

  /** The StartGame refusal for the given settings, account and character, if any. */
  function StartGameRefusal(allowStartGame: bool, account: P.Option<bool>, found: bool): (r: P.Option<P.byte>)
    ensures r == P.Some(0) <==> !allowStartGame && (account.None? || !account.value)
    ensures r == P.Some(1) <==> (allowStartGame || (account.Some? && account.value)) && account.None?
    ensures r == P.Some(2) <==> account.Some? && (allowStartGame || account.value) && !found
    ensures r.None? <==> account.Some? && (allowStartGame || account.value) && found
  {
    if !allowStartGame && (account.None? || !account.value) then P.Some(0)
    else if account.None? then P.Some(1)
    else if !found then P.Some(2)
    else P.None
  }

  /** The PlayerObject call CallNPC makes for a key of acceptable length. */
  function NPCVisit(objectID: int, playerNPC: int, defaultNPC: int): PlayerOp {
    if objectID == defaultNPC && playerNPC == defaultNPC then VisitDefaultNPC
    else if objectID == ClientNPC then VisitClientNPC
    else VisitNPC(objectID)
  }

  /** The groups of handlers the dispatcher is split into. */
  datatype Route =
    | SessionRoute | EchoRoute | AccountRoute | SelectRoute
    | PlayerRoute | GameRoute | SettingRoute

  /**
   * The group whose handler runs `p`. The player, game and setting groups
   * are exactly the handlers that accept only the Game stage.
   */
  function RouteOf(p: C.Packet): (r: Route)
    ensures r == PlayerRoute || r == GameRoute || r == SettingRoute <==> GateOf(p) == OnlyIn(Game)
  {
    match p
    case ClientVersion(_) | Disconnect | Invalid(_) => SessionRoute
    case KeepAlive(_) | MailLockedItem(_, _) => EchoRoute
    case NewAccount | ChangePassword | Login | NewCharacter | Observe | GetRanking => AccountRoute
    case DeleteCharacter(_) | StartGame(_) => SelectRoute
    case Timed(_) | Chat(_) | Request(_) | UseItem(_) | SpellToggle(_) | BuyItemBack | ReportIssue => PlayerRoute
    case LogOut | MagicKey(_, _) | CallNPC(_, _) => GameRoute
    case ChangeAMode(_) | ChangePMode(_) | ChangeTrade(_) | MailCost => SettingRoute
  }

  /** The fields of a connection the first loop of Process measures its progress against. */
  datatype Start = Start(
    receiveList: seq<C.Packet>, retryList: seq<C.Packet>, sendList: seq<S.Packet>, trace: seq<Effect>,
    handled: seq<C.Packet>, taken: seq<bool>, lastPackets: seq<C.Packet>, timeOutTime: int, disconnecting: bool,
    account: AccountInfo?, observers: seq<Connection>, observing: Connection?, observed: seq<Connection>)

  /** `n` dispatches, none of them taken while the connection was disconnecting. */
  function Calm(n: nat): (r: seq<bool>)
    ensures |r| == n && forall k :: 0 <= k < n ==> !r[k]
  {
    if n == 0 then [] else Calm(n - 1) + [false]
  }

  /** One more dispatch taken while not disconnecting. */
  lemma CalmStep(taken: seq<bool>, n: nat)
    ensures taken + Calm(n) + [false] == taken + Calm(n + 1)
  {
    assert Calm(n + 1) == Calm(n) + [false];
  }

  /** `t` extends `t0` and ends with `tail`, whatever came in between. */
  predicate EndsAfter(t0: seq<Effect>, t: seq<Effect>, tail: seq<Effect>) {
    |t0| + |tail| <= |t| && t[..|t0|] == t0 && t[|t| - |tail|..] == tail
  }

  /** Appending `tail` to an extension of `t0` ends after `t0`. */
  lemma EndsAfterAppend(t0: seq<Effect>, mid: seq<Effect>, tail: seq<Effect>)
    requires t0 <= mid
    ensures EndsAfter(t0, mid + tail, tail)
  {
    assert (mid + tail)[..|t0|] == mid[..|t0|];
    assert (mid + tail)[|mid|..] == tail;
  }

  /**
   * The one Envir or Player call of a handler that only forwards its packet:
   * none for the handlers that do nothing (an inventory-less UseItem, a
   * SpellToggle to None, BuyItemBack, ReportIssue, an unknown packet).
   */
  function Forwarded(p: C.Packet): seq<Effect> {
    match p
    case NewAccount => [EnvirCall(CreateAccount)]
    case ChangePassword => [EnvirCall(UpdatePassword)]
    case Login => [EnvirCall(SignIn)]
    case Observe => [EnvirCall(StartObserving)]
    case GetRanking => [EnvirCall(SendRanking)]
    case Chat(_) => [PlayerCall(SayChat)]
    case Request(request) => [PlayerCall(Run(request))]
    case UseItem(grid) => if grid == C.InventoryGrid then [PlayerCall(UseInventoryItem)] else []
    case SpellToggle(canUse) => if canUse != C.ToggleNone then [PlayerCall(ToggleSpell)] else []
    case _ => []
  }

  /** An outbox that received `a` and then `b` received their concatenation. */
  lemma Relay(start: seq<S.Packet>, mid: seq<S.Packet>, now: seq<S.Packet>, a: seq<S.Packet>, b: seq<S.Packet>,
               live: bool, keep: S.Packet -> bool)
    requires mid == start + (if live then S.Keep(a, keep) else [])
    requires now == mid + (if live then S.Keep(b, keep) else [])
    ensures now == start + (if live then S.Keep(a + b, keep) else [])
  {
    S.KeepAppend(a, b, keep);
  }

  /** Functions.CompareBytes over the configured hashes, stopping at the first match. */
  method MatchesAny(hashes: seq<seq<P.byte>>, hash: seq<P.byte>) returns (found: bool)
    ensures found <==> hash in hashes
  {
    var i := 0;
    while i < |hashes|
      invariant 0 <= i <= |hashes|
      invariant hash !in hashes[..i]
    {
      if hashes[i] == hash {
        return true;
      }
      assert hashes[..i + 1] == hashes[..i] + [hashes[i]];
      i := i + 1;
    }
    assert hashes[..i] == hashes;
    return false;
  }

  /** The handlers' search of Account.Characters for a character index. */
  method FindCharacter(cs: seq<CharacterInfo>, index: int) returns (i: int)
    ensures i == FirstIndex(cs, index)
  {
    i := 0;
    while i < |cs|
      invariant 0 <= i <= |cs|
      invariant forall j :: 0 <= j < i ==> cs[j].index != index
    {
      if cs[i].index == index {
        return;
      }
      i := i + 1;
    }
    i := -1;
  }

  /** The account a connection is logged into; the parts the connection touches. */
  class AccountInfo {
    var Connection: Connection?
    const AdminAccount: bool
    var Characters: seq<CharacterInfo>

    constructor (admin: bool, characters: seq<CharacterInfo>)
      ensures Connection == null && AdminAccount == admin && Characters == characters
    {
      Connection := null;
      AdminAccount := admin;
      Characters := characters;
    }
  }

  class Connection {
    const SessionID: int
    const IPAddress: string
    const Settings: ServerSettings
    /** Packet.Observable: whether a server packet is mirrored to observers. */
    const Observable: S.Packet -> bool
    const TimeConnected: int

    var Stage: GameStage
    var Connected: bool
    var disconnecting: bool
    var TimeOutTime: int
    var TimeDisconnected: int

    var receiveList: seq<C.Packet>
    var sendList: seq<S.Packet>
    var retryList: seq<C.Packet>
    var lastPackets: seq<C.Packet>

    var dataCounter: nat
    var dataCounterReset: int
    /** A BeginReceive is outstanding. */
    var receivePending: bool

    var Account: AccountInfo?
    var Player: P.Option<PlayerState>
    var Observers: seq<Connection>
    var Observing: Connection?
    var SentItemInfo: seq<ItemInfo>

    /** Calls into the collaborators, IP blocks and direct sends, in order. */
    ghost var Trace: seq<Effect>
    /** The packets dispatched so far, in order. */
    ghost var Handled: seq<C.Packet>
    /** For each packet dispatched, whether the connection was already disconnecting when it was dequeued. */
    ghost var DisconnectingWhenTaken: seq<bool>

    /**
     * The connection's invariant. A torn-down connection has no queues (the
     * source nulls them); the observer lists never hold the connection itself
     * nor an observer twice; every Game handler may use the player.
     */
    ghost predicate Valid()
      reads this
    {
      && this !in Observers
      && P.NoDuplicates(Observers)
      && Observing != this
      && (!Connected ==> receiveList == [] && sendList == [] && retryList == [])
      && (Stage == Game ==> Player.Some?)
      && |lastPackets| <= LP.Capacity
    }

    /** The flood counter and its reset deadline. */
    function Window(): FG.Window
      reads this
    {
      FG.Window(dataCounter, dataCounterReset)
    }

    /**
     * The packets `ps` were queued here (when connected) and the observable
     * ones among them on every connected observer.
     */
    twostate predicate Broadcast(ps: seq<S.Packet>)
      reads this, Observers
    {
      && sendList == old(sendList) + (if Connected then ps else [])
      && |Observers| == |old(Observers)|
      && forall i :: 0 <= i < |Observers| ==>
           Observers[i].sendList == old(Observers[i].sendList) + (if Observers[i].Connected then S.Keep(ps, Observable) else [])
    }

    /** The observers' send queues, in order. */
    ghost function Outboxes(): (r: seq<seq<S.Packet>>)
      reads this, Observers
      ensures |r| == |Observers| && forall j :: 0 <= j < |r| ==> r[j] == Observers[j].sendList
    {
      seq(|Observers|, j reads this, Observers requires 0 <= j < |Observers| => Observers[j].sendList)
    }

    /**
     * Since the send queues were `base` (this one) and `bases` (the
     * observers'), exactly `ps` has been broadcast.
     */
    ghost predicate Broadcasted(base: seq<S.Packet>, bases: seq<seq<S.Packet>>, ps: seq<S.Packet>)
      reads this, Observers
    {
      && sendList == base + (if Connected then ps else [])
      && |Observers| == |bases|
      && forall j :: 0 <= j < |Observers| ==>
           Observers[j].sendList == bases[j] + (if Observers[j].Connected then S.Keep(ps, Observable) else [])
    }

    /** A new connection: its IP's connect block is recorded, S.Connected is queued and a receive is armed. */
    constructor (sessionID: int, ipAddress: string, settings: ServerSettings, observable: S.Packet -> bool, env: Env)
      ensures Valid()
      ensures SessionID == sessionID && IPAddress == ipAddress && Settings == settings && Observable == observable
      ensures Stage == None && Connected && !disconnecting
      ensures TimeConnected == env.time && TimeOutTime == env.time + settings.timeOut
      ensures receiveList == [] && sendList == [S.Connected] && retryList == [] && lastPackets == []
      ensures dataCounter == 0 && dataCounterReset == MinValue && receivePending
      ensures Account == null && Player.None? && Observers == [] && Observing == null && SentItemInfo == []
      ensures Trace == [BlockIP(settings.ipBlockSeconds)] && Handled == [] && DisconnectingWhenTaken == []
    {
      SessionID := sessionID;
      IPAddress := ipAddress;
      Settings := settings;
      Observable := observable;
      Trace := [BlockIP(settings.ipBlockSeconds)];
      Handled := [];
      DisconnectingWhenTaken := [];
      TimeConnected := env.time;
      TimeOutTime := env.time + settings.timeOut;
      TimeDisconnected := 0;
      Stage := None;
      disconnecting := false;
      lastPackets := [];
      receiveList := [];
      sendList := [S.Connected];
      retryList := [];
      dataCounter := 0;
      dataCounterReset := MinValue;
      Account := null;
      Player := P.None;
      Observers := [];
      Observing := null;
      SentItemInfo := [];
      Connected := true;
      receivePending := true;
    }

    /** The Disconnecting setter: a real change also moves the timeout to `time` + 500. */
    method SetDisconnecting(value: bool, time: int)
      modifies this`disconnecting, this`TimeOutTime
      ensures disconnecting == value
      ensures TimeOutTime == if old(disconnecting) == value then old(TimeOutTime) else time + DisconnectGrace
    {
      if disconnecting == value {
        return;
      }
      disconnecting := value;
      TimeOutTime := time + DisconnectGrace;
    }

    /** Queue `p` on this connection only, as far as its queue still exists. */
    method Deliver(p: S.Packet)
      modifies this`sendList
      ensures sendList == old(sendList) + (if Connected then [p] else [])
    {
      if Connected {
        sendList := sendList + [p];
      }
    }

    /** Enqueue: queue `p` here and, when it is observable, on every observer. */
    method Enqueue(p: S.Packet)
      requires this !in Observers && P.NoDuplicates(Observers)
      modifies this`sendList, Observers`sendList
      ensures Broadcast([p])
    {
      Deliver(p);
      assert S.Keep([p], Observable) == if Observable(p) then [p] else [] by {
        assert [p][..0] == [];
      }
      if !Observable(p) {
        return;
      }
      var i := 0;
      while i < |Observers|
        invariant 0 <= i <= |Observers|
        invariant sendList == old(sendList) + (if Connected then [p] else [])
        invariant forall j :: 0 <= j < i ==>
                    Observers[j].sendList == old(Observers[j].sendList) + (if Observers[j].Connected then [p] else [])
        invariant forall j :: i <= j < |Observers| ==> Observers[j].sendList == old(Observers[j].sendList)
      {
        Observers[i].Deliver(p);
        i := i + 1;
      }
    }

    /** BeginSend: a direct socket send, issued only while connected and only for non-empty data. */
    method BeginSend(data: seq<S.Packet>)
      modifies this`Trace
      ensures Trace == old(Trace) + (if Connected && data != [] then [Send(data)] else [])
    {
      if !Connected || data == [] {
        return;
      }
      Trace := Trace + [Send(data)];
    }

    /**
     * The block both teardowns run under Envir.AccountLock: stop the bound
     * player's game and release the account if it is still bound here.
     */
    method ReleaseSession(reason: P.byte)
      modifies this`Trace, (if Account == null then {} else {Account})`Connection
      ensures Trace == old(Trace) + StopEffects(Player, reason)
      ensures Account != null ==>
                Account.Connection == if old(Account.Connection) == this then null else old(Account.Connection)
    {
      if Player.Some? {
        Trace := Trace + [PlayerCall(StopGame(reason))];
      }
      if Account != null && Account.Connection == this {
        Account.Connection := null;
      }
    }

    /**
     * SoftDisconnect: leave the game and the account without touching the
     * socket or the queues.
     */
    method SoftDisconnect(reason: P.byte, time: int)
      requires Valid()
      modifies this`Stage, this`TimeDisconnected, this`Trace, this`Account
      modifies (if Account == null then {} else {Account})`Connection
      ensures Valid()
      ensures Stage == Disconnected && TimeDisconnected == time && Account == null
      ensures Trace == old(Trace) + StopEffects(Player, reason)
      ensures old(Account) != null ==>
                old(Account).Connection == if old(Account.Connection) == this then null else old(Account.Connection)
    {
      Stage := Disconnected;
      TimeDisconnected := time;
      ReleaseSession(reason);
      Account := null;
    }

    /** Observers.Remove(c): `c` stops being listed among this connection's observers. */
    method Unlink(c: Connection)
      modifies this`Observers
      ensures Observers == P.RemoveFirst(old(Observers), c)
    {
      Observers := P.RemoveFirst(Observers, c);
    }

    /**
     * Disconnect: the hard teardown. It acts once: it unregisters the
     * connection, leaves the game and the account, leaves the connection it
     * observes, and drops the queues; when already torn down it does nothing.
     */
    method Disconnect(reason: P.byte, time: int)
      requires Valid()
      modifies this`Connected, this`Stage, this`TimeDisconnected, this`Trace, this`Account
      modifies this`receiveList, this`sendList, this`retryList
      modifies (if Account == null then {} else {Account})`Connection
      modifies (if Observing == null then {} else {Observing})`Observers
      ensures Valid()
      ensures !old(Connected) ==>
                && unchanged(this)
                && (old(Account) != null ==> unchanged(old(Account)))
                && (old(Observing) != null ==> unchanged(old(Observing)))
      ensures old(Connected) ==>
                && !Connected && Stage == Disconnected && TimeDisconnected == time
                && Trace == old(Trace) + [Unregister] + StopEffects(Player, reason)
                && Account == null
                && receiveList == [] && sendList == [] && retryList == []
                && (old(Account) != null ==>
                      old(Account).Connection == if old(Account.Connection) == this then null else old(Account.Connection))
                && (Observing != null ==> Observing.Observers == P.RemoveFirst(old(Observing.Observers), this))
    {
      if !Connected {
        return;
      }
      Teardown(reason, time);
    }

    /** Disconnect on a live connection: the teardown proper. */
    method Teardown(reason: P.byte, time: int)
      requires Valid() && Connected
      modifies this`Connected, this`Stage, this`TimeDisconnected, this`Trace, this`Account
      modifies this`receiveList, this`sendList, this`retryList
      modifies (if Account == null then {} else {Account})`Connection
      modifies (if Observing == null then {} else {Observing})`Observers
      ensures Valid()
      ensures && !Connected && Stage == Disconnected && TimeDisconnected == time
              && Trace == old(Trace) + [Unregister] + StopEffects(Player, reason)
              && Account == null
              && receiveList == [] && sendList == [] && retryList == []
              && (old(Account) != null ==>
                    old(Account).Connection == if old(Account.Connection) == this then null else old(Account.Connection))
              && (Observing != null ==> Observing.Observers == P.RemoveFirst(old(Observing.Observers), this))
    {
      Connected := false;
      Stage := Disconnected;
      TimeDisconnected := time;
      Trace := Trace + [Unregister];
      ReleaseSession(reason);
      Detach();
    }

    /** The end of Disconnect: leave the observed connection's list, drop the account, null the queues. */
    method Detach()
      requires this !in Observers && P.NoDuplicates(Observers) && Observing != this
      requires (Stage == Game ==> Player.Some?) && |lastPackets| <= LP.Capacity
      modifies this`Account, this`receiveList, this`sendList, this`retryList
      modifies (if Observing == null then {} else {Observing})`Observers
      ensures Valid()
      ensures Account == null && receiveList == [] && sendList == [] && retryList == []
      ensures Observing != null ==> Observing.Observers == P.RemoveFirst(old(Observing.Observers), this)
    {
      if Observing != null {
        Observing.Unlink(this);
      }
      Account := null;
      sendList := [];
      receiveList := [];
      retryList := [];
    }

    /**
     * SendDisconnect: mark the connection as disconnecting, tell the client
     * why (when the socket is still up), then leave the game and the account.
     */
    method SendDisconnect(reason: P.byte, time: int)
      requires Valid()
      modifies this`disconnecting, this`TimeOutTime, this`Stage, this`TimeDisconnected, this`Trace, this`Account
      modifies (if Account == null then {} else {Account})`Connection
      ensures Valid()
      ensures disconnecting
      ensures TimeOutTime == if old(disconnecting) then old(TimeOutTime) else time + DisconnectGrace
      ensures Stage == Disconnected && TimeDisconnected == time && Account == null
      ensures Trace == old(Trace) + (if Connected then [Send([S.Disconnect(reason)])] else []) + StopEffects(Player, reason)
      ensures old(Account) != null ==>
                old(Account).Connection == if old(Account.Connection) == this then null else old(Account.Connection)
    {
      if !Connected {
        SetDisconnecting(true, time);
        SoftDisconnect(reason, time);
        return;
      }
      SetDisconnecting(true, time);
      BeginSend([S.Disconnect(reason)]);
      SoftDisconnect(reason, time);
    }

    /** A timed action that must wait for its cooldown. */
    predicate Deferred(p: C.Packet, time: int)
      reads this
    {
      !disconnecting && Stage == Game && p.Timed? && Player.Some? && Admit(p.action, Player.value, time) == Defer
    }

    /** A timed action whose cooldown has elapsed. */
    predicate Executed(p: C.Packet, time: int)
      reads this
    {
      !disconnecting && Stage == Game && p.Timed? && Player.Some? && Admit(p.action, Player.value, time) == Execute
    }

    /** A packet the dispatcher and its handler's stage check turn away without any effect. */
    predicate Ignored(p: C.Packet)
      reads this
    {
      disconnecting || (!Admits(Stage, p) && !OversizeChat(p, Settings.maxChatLength))
    }

    /**
     * What dispatching `p` may change: the relation fields stay, the account
     * can only be released, the outbound effects only grow, the receive list
     * stays and the send list only grows unless the connection is torn down
     * (which only the Disconnect packet does), the retry list grows by `p`
     * exactly when `p` must wait, a ready timed action makes exactly its one
     * Player call, Disconnecting is only ever set and setting it grants the
     * grace period, and the stage moves only along the handshake, the logout,
     * or to Disconnected.
     */
    twostate predicate Dispatched(p: C.Packet, env: Env)
      reads this
    {
      && Observers == old(Observers) && Observing == old(Observing)
      && (Account == old(Account) || Account == null)
      && old(Trace) <= Trace
      && (Connected == old(Connected) || p.Disconnect?)
      && (old(Connected) && !Connected ==> Stage == Disconnected)
      && (Connected ==> receiveList == old(receiveList) && old(sendList) <= sendList)
      && retryList == (if !Connected then [] else old(retryList) + (if old(Deferred(p, env.time)) then [p] else []))
      && (old(Executed(p, env.time)) ==>
            Trace == old(Trace) + [PlayerCall(Perform(p.action))] && Stage == old(Stage) && sendList == old(sendList))
      && (old(disconnecting) ==> disconnecting)
      && (TimeOutTime != old(TimeOutTime) ==>
            !old(disconnecting) && disconnecting && TimeOutTime == env.time + DisconnectGrace)
      && (!old(disconnecting) && disconnecting ==> TimeOutTime == env.time + DisconnectGrace)
      && (|| Stage == old(Stage)
          || Stage == Disconnected
          || (p.ClientVersion? && old(Stage) == None && Stage == Login)
          || (p.LogOut? && old(Stage) == Game && Stage == Select))
    }

    /** A packet the dispatcher hands to its handler: not disconnecting, stage check passed, no oversize Chat. */
    predicate Admitted(p: C.Packet)
      reads this
    {
      !disconnecting && Admits(Stage, p) && !OversizeChat(p, Settings.maxChatLength)
    }

    /**
     * What the handler of an admitted packet does: the one operation the
     * packet names, with its outcome, grouped as the dispatcher is.
     */
    twostate predicate Performed(p: C.Packet, env: Env)
      reads this, Observers, Account
    {
      match RouteOf(p)
      case SessionRoute => PerformedSession(p, env)
      case EchoRoute => PerformedEcho(p)
      case AccountRoute => PerformedAccount(p)
      case SelectRoute => PerformedSelect(p, env)
      case PlayerRoute => PerformedPlayer(p, env)
      case GameRoute => PerformedGame(p, env)
      case SettingRoute => PerformedSetting(p)
    }

    /** The handshake's outcome, the teardown with reason 22, or nothing for an unknown packet. */
    twostate predicate PerformedSession(p: C.Packet, env: Env)
      reads this, Observers, Account
    {
      match p
      case ClientVersion(hash) => VersionChecked(hash, env)
      case Disconnect =>
        && !Connected && Stage == Disconnected && TimeDisconnected == env.time && Account == null
        && receiveList == [] && sendList == [] && retryList == []
        && Trace == old(Trace) + [Unregister] + StopEffects(old(Player), 22)
      case _ => Trace == old(Trace) && sendList == old(sendList) && Stage == old(Stage) && Player == old(Player)
    }

    /** KeepAlive and MailLockedItem queue their echo. */
    twostate predicate PerformedEcho(p: C.Packet)
      reads this, Observers
    {
      match p
      case KeepAlive(t) => Broadcast([S.KeepAlive(t)]) && Trace == old(Trace)
      case MailLockedItem(uniqueID, locked) => Broadcast([S.MailLockedItem(uniqueID, locked)]) && Trace == old(Trace)
      case _ => Broadcast([]) && Trace == old(Trace)
    }

    /** The account and observer handlers make their one Envir call; NewCharacter needs an account. */
    twostate predicate PerformedAccount(p: C.Packet)
      reads this, Account
    {
      && Trace == old(Trace) + (if !p.NewCharacter? then Forwarded(p)
                                else if Account == null then []
                                else [EnvirCall(CreateCharacter(Account.AdminAccount))])
      && sendList == old(sendList) && Stage == old(Stage) && Player == old(Player)
    }

    /** DeleteCharacter's and StartGame's outcomes. */
    twostate predicate PerformedSelect(p: C.Packet, env: Env)
      reads this, Observers, Account
    {
      match p
      case DeleteCharacter(index) => CharacterDeleted(index, env)
      case StartGame(index) => GameStarted(index, env)
      case _ => Broadcast([]) && Trace == old(Trace)
    }

    /**
     * A timed action waits or makes its one Player call as its cooldown
     * decides; the other player handlers make their one Player call, if any.
     */
    twostate predicate PerformedPlayer(p: C.Packet, env: Env)
      reads this
    {
      match p
      case Timed(a) =>
        && old(Player).Some?
        && var r := Admit(a, old(Player).value, env.time);
           && retryList == old(retryList) + (if r == Defer then [p] else [])
           && Trace == old(Trace) + (if r == Execute then [PlayerCall(Perform(a))] else [])
      case _ => Trace == old(Trace) + Forwarded(p) && retryList == old(retryList)
    }

    /** LogOut's, MagicKey's and CallNPC's outcomes. */
    twostate predicate PerformedGame(p: C.Packet, env: Env)
      reads this, Observers, Account
    {
      match p
      case LogOut => LoggedOut(env)
      case MagicKey(spell, key) =>
        && old(Player).Some?
        && Player == P.Some(old(Player).value.(magics := MK.Rebind(old(Player).value.magics, spell, key)))
        && Trace == old(Trace) && sendList == old(sendList)
      case CallNPC(objectID, keyLength) => NPCCalled(objectID, keyLength, env)
      case _ => Trace == old(Trace) && sendList == old(sendList) && Player == old(Player)
    }

    /** The setting handlers store the new value and echo it (ChangeTrade does not); MailCost makes its quote. */
    twostate predicate PerformedSetting(p: C.Packet)
      reads this, Observers
    {
      match p
      case ChangeAMode(mode) =>
        && old(Player).Some? && Player == P.Some(old(Player).value.(aMode := mode))
        && Broadcast([S.ChangeAMode(mode)]) && Trace == old(Trace)
      case ChangePMode(mode) =>
        && old(Player).Some? && Player == P.Some(old(Player).value.(pMode := mode))
        && Broadcast([S.ChangePMode(mode)]) && Trace == old(Trace)
      case ChangeTrade(allow) =>
        && old(Player).Some? && Player == P.Some(old(Player).value.(allowTrade := allow))
        && sendList == old(sendList) && Trace == old(Trace)
      case MailCost => Broadcast([S.MailCost]) && Trace == old(Trace) + [PlayerCall(QuoteMailCost)]
      case _ => Broadcast([]) && Trace == old(Trace) && Player == old(Player)
    }

    /**
     * ProcessPacket: dispatch one packet to its handler. Nothing happens while
     * disconnecting or when the handler's stage check fails; an oversize Chat
     * disconnects with reason 2 before any stage check; every other packet
     * runs the operation it names.
     */
    method ProcessPacket(p: C.Packet, env: Env)
      requires Valid() && Connected
      modifies this`Stage, this`Connected, this`disconnecting, this`TimeOutTime, this`TimeDisconnected
      modifies this`receiveList, this`sendList, this`retryList, this`Account, this`Player, this`Trace
      modifies (if Account == null then {} else {Account})`Connection
      modifies (if Account == null then {} else {Account})`Characters
      modifies (if Observing == null then {} else {Observing})`Observers, Observers`sendList
      ensures Valid()
      ensures Dispatched(p, env)
      ensures old(Ignored(p)) ==>
                && unchanged(this)
                && (old(Account) != null ==> unchanged(old(Account)))
                && (old(Observing) != null ==> unchanged(old(Observing)))
                && unchanged(old(Observers))
      ensures old(!disconnecting && OversizeChat(p, Settings.maxChatLength)) ==>
                && disconnecting && Stage == Disconnected && Account == null
                && Trace == old(Trace) + [Send([S.Disconnect(2)])] + StopEffects(Player, 2)
      ensures old(Admitted(p)) ==> Performed(p, env)
      ensures old(Admitted(p)) && p.Disconnect? && old(Account) != null ==>
                old(Account).Connection == if old(Account.Connection) == this then null else old(Account.Connection)
      ensures old(Admitted(p)) && p.Disconnect? && Observing != null ==>
                Observing.Observers == P.RemoveFirst(old(Observing.Observers), this)
      ensures Connected && Observing != null ==> Observing.Observers == old(Observing.Observers)
    {
      if Admitted(p) {
        Dispatch(p, env);
      } else {
        Refuse(p, env);
      }
    }

    /**
     * The dispatcher's refusals: a packet is dropped while disconnecting or
     * when its handler's stage check fails, and an oversize Chat disconnects
     * with reason 2.
     */
    method Refuse(p: C.Packet, env: Env)
      requires Valid() && Connected && !Admitted(p)
      modifies this`disconnecting, this`TimeOutTime, this`Stage, this`TimeDisconnected, this`Trace, this`Account
      modifies (if Account == null then {} else {Account})`Connection
      ensures Valid()
      ensures Dispatched(p, env)
      ensures old(Ignored(p)) ==> unchanged(this) && (old(Account) != null ==> unchanged(old(Account)))
      ensures old(!disconnecting && OversizeChat(p, Settings.maxChatLength)) ==>
                && disconnecting && Stage == Disconnected && Account == null
                && Trace == old(Trace) + [Send([S.Disconnect(2)])] + StopEffects(Player, 2)
    {
      if !disconnecting && OversizeChat(p, Settings.maxChatLength) {
        SendDisconnect(2, env.time);
      }
    }

    /** The dispatcher's switch over an admitted packet: the group that handles it. */
    method Dispatch(p: C.Packet, env: Env)
      requires Valid() && Connected && Admitted(p)
      modifies this`Stage, this`Connected, this`disconnecting, this`TimeOutTime, this`TimeDisconnected
      modifies this`receiveList, this`sendList, this`retryList, this`Account, this`Player, this`Trace
      modifies (if Account == null then {} else {Account})`Connection
      modifies (if Account == null then {} else {Account})`Characters
      modifies (if Observing == null then {} else {Observing})`Observers, Observers`sendList
      ensures Valid()
      ensures Dispatched(p, env) && Performed(p, env)
      ensures p.Disconnect? && old(Account) != null ==>
                old(Account).Connection == if old(Account.Connection) == this then null else old(Account.Connection)
      ensures p.Disconnect? && Observing != null ==> Observing.Observers == P.RemoveFirst(old(Observing.Observers), this)
      ensures Connected && Observing != null ==> Observing.Observers == old(Observing.Observers)
    {
      if RouteOf(p) == SessionRoute {
        SessionPacket(p, env);
      } else {
        OtherPacket(p, env);
      }
    }

    /** The groups other than the session one, none of which touches the observed connection. */
    method OtherPacket(p: C.Packet, env: Env)
      requires Valid() && Connected && Admitted(p) && RouteOf(p) != SessionRoute
      modifies this`Stage, this`disconnecting, this`TimeOutTime, this`TimeDisconnected
      modifies this`retryList, this`sendList, this`Account, this`Player, this`Trace
      modifies (if Account == null then {} else {Account})`Connection
      modifies (if Account == null then {} else {Account})`Characters, Observers`sendList
      ensures Valid()
      ensures Dispatched(p, env) && Performed(p, env)
    {
      match RouteOf(p)
      case EchoRoute => EchoPacket(p, env);
      case AccountRoute => AccountPacket(p, env);
      case SelectRoute => SelectPacket(p, env);
      case PlayerRoute => PlayerPacket(p, env);
      case GameRoute => GamePacket(p, env);
      case SettingRoute => SettingPacket(p, env);
    }

    /** The handshake and the teardown. */
    method SessionPacket(p: C.Packet, env: Env)
      requires Valid() && Connected && !disconnecting && Admits(Stage, p) && RouteOf(p) == SessionRoute
      modifies this`Stage, this`Connected, this`disconnecting, this`TimeOutTime, this`TimeDisconnected
      modifies this`receiveList, this`sendList, this`retryList, this`Account, this`Trace
      modifies (if Account == null then {} else {Account})`Connection
      modifies (if Observing == null then {} else {Observing})`Observers, Observers`sendList
      ensures Valid()
      ensures Dispatched(p, env) && PerformedSession(p, env)
      ensures p.Disconnect? && old(Account) != null ==>
                old(Account).Connection == if old(Account.Connection) == this then null else old(Account.Connection)
      ensures p.Disconnect? && Observing != null ==> Observing.Observers == P.RemoveFirst(old(Observing.Observers), this)
      ensures Connected && Observing != null ==> Observing.Observers == old(Observing.Observers)
    {
      match p
      case ClientVersion(hash) => ClientVersion(hash, env);
      case Disconnect => Disconnect(22, env.time);
      case Invalid(_) =>
    }

    /** KeepAlive and MailLockedItem, which answer with their own echo in every stage. */
    method EchoPacket(p: C.Packet, env: Env)
      requires Valid() && Connected && !disconnecting && RouteOf(p) == EchoRoute
      modifies this`sendList, Observers`sendList
      ensures Valid()
      ensures Dispatched(p, env) && PerformedEcho(p)
    {
      match p
      case KeepAlive(t) => Enqueue(S.KeepAlive(t));
      case MailLockedItem(uniqueID, locked) => Enqueue(S.MailLockedItem(uniqueID, locked));
    }

    /** The account and observer handlers, which make (at most) one Envir call. */
    method AccountPacket(p: C.Packet, env: Env)
      requires Valid() && Connected && !disconnecting && RouteOf(p) == AccountRoute
      modifies this`Trace
      ensures Valid()
      ensures Dispatched(p, env) && PerformedAccount(p)
    {
      match p
      case NewAccount => Trace := Trace + [EnvirCall(CreateAccount)];
      case ChangePassword => Trace := Trace + [EnvirCall(UpdatePassword)];
      case Login => Trace := Trace + [EnvirCall(SignIn)];
      case NewCharacter =>
        if Account != null {
          Trace := Trace + [EnvirCall(CreateCharacter(Account.AdminAccount))];
        }
      case Observe => Trace := Trace + [EnvirCall(StartObserving)];
      case GetRanking => Trace := Trace + [EnvirCall(SendRanking)];
    }

    /** The character-selection handlers. */
    method SelectPacket(p: C.Packet, env: Env)
      requires Valid() && Connected && !disconnecting && Stage == Select && RouteOf(p) == SelectRoute
      modifies this`sendList, this`Player, this`Trace
      modifies (if Account == null then {} else {Account})`Characters, Observers`sendList
      ensures Valid()
      ensures Dispatched(p, env) && PerformedSelect(p, env)
    {
      match p
      case DeleteCharacter(index) => DeleteCharacter(index, env);
      case StartGame(index) => StartGame(index, env);
    }

    /** The Game handlers that make (at most) one Player call and change nothing else here. */
    method PlayerPacket(p: C.Packet, env: Env)
      requires Valid() && Connected && !disconnecting && Stage == Game && RouteOf(p) == PlayerRoute
      modifies this`retryList, this`Trace
      ensures Valid()
      ensures Dispatched(p, env) && PerformedPlayer(p, env)
    {
      match p
      case Timed(a) => TimedAction(a, env);
      case Chat(_) => Trace := Trace + [PlayerCall(SayChat)];
      case Request(request) => Trace := Trace + [PlayerCall(Run(request))];
      case UseItem(grid) =>
        if grid == C.InventoryGrid {
          Trace := Trace + [PlayerCall(UseInventoryItem)];
        }
      case SpellToggle(canUse) =>
        if canUse != C.ToggleNone {
          Trace := Trace + [PlayerCall(ToggleSpell)];
        }
      case BuyItemBack =>
      case ReportIssue =>
    }

    /** The Game handlers that leave the game, rebind a key or talk to an NPC. */
    method GamePacket(p: C.Packet, env: Env)
      requires Valid() && Connected && !disconnecting && Stage == Game && RouteOf(p) == GameRoute
      modifies this`Stage, this`disconnecting, this`TimeOutTime, this`TimeDisconnected
      modifies this`sendList, this`Account, this`Player, this`Trace
      modifies (if Account == null then {} else {Account})`Connection, Observers`sendList
      ensures Valid()
      ensures Dispatched(p, env) && PerformedGame(p, env)
    {
      match p
      case LogOut => LogOut(env);
      case MagicKey(spell, key) => MagicKey(spell, key);
      case CallNPC(objectID, keyLength) => CallNPC(objectID, keyLength, env);
    }

    /** The Game handlers that change one of the player's settings, and the mail-cost quote. */
    method SettingPacket(p: C.Packet, env: Env)
      requires Valid() && Connected && !disconnecting && Stage == Game && RouteOf(p) == SettingRoute
      modifies this`sendList, this`Player, this`Trace, Observers`sendList
      ensures Valid()
      ensures Dispatched(p, env) && PerformedSetting(p)
    {
      match p
      case ChangeAMode(mode) =>
        Player := P.Some(Player.value.(aMode := mode));
        Enqueue(S.ChangeAMode(mode));
      case ChangePMode(mode) =>
        Player := P.Some(Player.value.(pMode := mode));
        Enqueue(S.ChangePMode(mode));
      case ChangeTrade(allow) => Player := P.Some(Player.value.(allowTrade := allow));
      case MailCost =>
        Trace := Trace + [PlayerCall(QuoteMailCost)];
        Enqueue(S.MailCost);
    }

    /**
     * The version handshake's outcome: accepted when checking is off or the
     * hash is a known one, which queues Result 1 and moves the connection to
     * Login; otherwise Result 0 is sent directly, the connection is marked as
     * disconnecting and soft-disconnected with reason 10.
     */
    twostate predicate VersionChecked(hash: seq<P.byte>, env: Env)
      reads this, Observers, Account
    {
      && (!Settings.checkVersion || hash in Settings.versionHashes ==>
            && Stage == Login && Broadcast([S.ClientVersion(1)])
            && Trace == old(Trace) && !disconnecting && TimeOutTime == old(TimeOutTime)
            && Account == old(Account) && (Account != null ==> Account.Connection == old(Account.Connection)))
      && (Settings.checkVersion && hash !in Settings.versionHashes ==>
            && Stage == Disconnected && disconnecting && TimeOutTime == env.time + DisconnectGrace
            && TimeDisconnected == env.time && Account == null && Broadcast([])
            && Trace == old(Trace) + [Send([S.ClientVersion(0)])] + StopEffects(old(Player), 10))
    }

    /** ClientVersion: the version handshake. */
    method ClientVersion(hash: seq<P.byte>, env: Env)
      requires Valid() && Connected && Stage == None && !disconnecting
      modifies this`Stage, this`disconnecting, this`TimeOutTime, this`TimeDisconnected, this`Trace, this`Account
      modifies this`sendList, (if Account == null then {} else {Account})`Connection, Observers`sendList
      ensures Valid()
      ensures VersionChecked(hash, env)
      ensures Settings.checkVersion && hash !in Settings.versionHashes && old(Account) != null ==>
                old(Account).Connection == if old(Account.Connection) == this then null else old(Account.Connection)
    {
      if Settings.checkVersion {
        var found := MatchesAny(Settings.versionHashes, hash);
        if !found {
          SetDisconnecting(true, env.time);
          BeginSend([S.ClientVersion(0)]);
          SoftDisconnect(10, env.time);
          return;
        }
      }
      Enqueue(S.ClientVersion(1));
      Stage := Login;
    }

    /**
     * DeleteCharacter's outcome: Result 0 when deleting is disabled, nothing
     * without an account, Result 1 when the account has no such character;
     * otherwise the first such character is marked deleted at Envir.Now and
     * its rank removed.
     */
    twostate predicate CharacterDeleted(index: int, env: Env)
      reads this, Observers, Account
    {
      && Account == old(Account)
      && (!Settings.allowDeleteCharacter ==>
            && Broadcast([S.DeleteCharacter(0)]) && Trace == old(Trace)
            && (Account != null ==> Account.Characters == old(Account.Characters)))
      && (Settings.allowDeleteCharacter && Account == null ==> Broadcast([]) && Trace == old(Trace))
      && (Settings.allowDeleteCharacter && Account != null && FirstIndex(old(Account.Characters), index) == -1 ==>
            Broadcast([S.DeleteCharacter(1)]) && Trace == old(Trace) && Account.Characters == old(Account.Characters))
      && (Settings.allowDeleteCharacter && Account != null && FirstIndex(old(Account.Characters), index) >= 0 ==>
            var cs, i := old(Account.Characters), FirstIndex(old(Account.Characters), index);
            && Account.Characters == cs[i := cs[i].(deleted := true, deleteDate := env.now)]
            && Trace == old(Trace) + [EnvirCall(RemoveRank(index))]
            && Broadcast([S.DeleteCharacterSuccess(index)]))
    }

    /** DeleteCharacter: mark one of the account's characters as deleted. */
    method DeleteCharacter(index: int, env: Env)
      requires Valid() && Connected && Stage == Select
      modifies this`sendList, this`Trace, Observers`sendList, (if Account == null then {} else {Account})`Characters
      ensures Valid()
      ensures CharacterDeleted(index, env)
    {
      if !Settings.allowDeleteCharacter {
        Enqueue(S.DeleteCharacter(0));
        return;
      }
      if Account == null {
        return;
      }
      var i := FindCharacter(Account.Characters, index);
      if i == -1 {
        Enqueue(S.DeleteCharacter(1));
        return;
      }
      var temp := Account.Characters[i];
      Account.Characters := Account.Characters[i := temp.(deleted := true, deleteDate := env.now)];
      Trace := Trace + [EnvirCall(RemoveRank(temp.index))];
      Enqueue(S.DeleteCharacterSuccess(temp.index));
    }

    /**
     * StartGame's outcome: refused with Result 0, 1 or 2 (see
     * StartGameRefusal) or with the active ban; otherwise the character's ban
     * is cleared and a player is spawned for it and started.
     */
    twostate predicate GameStarted(index: int, env: Env)
      reads this, Observers, Account
    {
      && Account == old(Account)
      && (var refusal := StartGameRefusal(Settings.allowStartGame,
                                          if Account == null then P.None else P.Some(Account.AdminAccount),
                                          Account != null && FirstIndex(old(Account.Characters), index) >= 0);
          refusal.Some? ==>
            && Broadcast([S.StartGame(refusal.value)]) && Trace == old(Trace) && Player == old(Player)
            && (Account != null ==> Account.Characters == old(Account.Characters)))
      && (Account != null && (Settings.allowStartGame || Account.AdminAccount) && FirstIndex(old(Account.Characters), index) >= 0 ==>
            var cs, i := old(Account.Characters), FirstIndex(old(Account.Characters), index);
            && (BanActive(cs[i], env.now) ==>
                  && Broadcast([S.StartGameBanned(cs[i].banReason, cs[i].expiryDate)])
                  && Trace == old(Trace) && Player == old(Player) && Account.Characters == cs)
            && (!BanActive(cs[i], env.now) ==>
                  && Account.Characters == cs[i := Cleared(cs[i])]
                  && Player == P.Some(env.spawn(Cleared(cs[i])))
                  && Trace == old(Trace) + [PlayerCall(BeginGame)]
                  && Broadcast([])))
    }

    /** StartGame: enter the game with one of the account's characters. */
    method StartGame(index: int, env: Env)
      requires Valid() && Connected && Stage == Select
      modifies this`sendList, this`Trace, this`Player, Observers`sendList
      modifies (if Account == null then {} else {Account})`Characters
      ensures Valid()
      ensures GameStarted(index, env)
    {
      if !Settings.allowStartGame && (Account == null || !Account.AdminAccount) {
        Enqueue(S.StartGame(0));
        return;
      }
      if Account == null {
        Enqueue(S.StartGame(1));
        return;
      }
      var i := FindCharacter(Account.Characters, index);
      if i == -1 {
        Enqueue(S.StartGame(2));
        return;
      }
      EnterGame(i, env);
    }

    /** StartGame once the character is found: refused with its active ban, or started. */
    method EnterGame(i: nat, env: Env)
      requires Valid() && Connected && Stage == Select && Account != null && i < |Account.Characters|
      modifies this`sendList, this`Trace, this`Player, Observers`sendList, Account`Characters
      ensures Valid()
      ensures var c := old(Account.Characters[i]);
              && (BanActive(c, env.now) ==>
                    && Broadcast([S.StartGameBanned(c.banReason, c.expiryDate)])
                    && Trace == old(Trace) && Player == old(Player) && Account.Characters == old(Account.Characters))
              && (!BanActive(c, env.now) ==>
                    && Account.Characters == old(Account.Characters)[i := Cleared(c)]
                    && Player == P.Some(env.spawn(Cleared(c)))
                    && Trace == old(Trace) + [PlayerCall(BeginGame)]
                    && Broadcast([]))
    {
      var info := Account.Characters[i];
      if BanActive(info, env.now) {
        Enqueue(S.StartGameBanned(info.banReason, info.expiryDate));
        return;
      }
      info := Cleared(info);
      Account.Characters := Account.Characters[i := info];
      Player := P.Some(env.spawn(info));
      Trace := Trace + [PlayerCall(BeginGame)];
    }

    /**
     * LogOut's outcome: refused while the player's LogTime has not come;
     * otherwise the game stops with reason 23 and the connection returns to
     * Select.
     */
    twostate predicate LoggedOut(env: Env)
      reads this, Observers
    {
      && old(Player).Some?
      && (env.time < old(Player).value.logTime ==>
            Broadcast([S.LogOutFailed]) && Stage == Game && Player == old(Player) && Trace == old(Trace))
      && (env.time >= old(Player).value.logTime ==>
            && Trace == old(Trace) + [PlayerCall(StopGame(23))]
            && Stage == Select && Player.None?
            && Broadcast(if Account != null then [S.LogOutSuccess] else []))
    }

    /** LogOut: leave the game for character selection. */
    method LogOut(env: Env)
      requires Valid() && Connected && Stage == Game
      modifies this`Stage, this`Player, this`Trace, this`sendList, Observers`sendList
      ensures Valid()
      ensures LoggedOut(env)
    {
      if env.time < Player.value.logTime {
        Enqueue(S.LogOutFailed);
        return;
      }
      Trace := Trace + [PlayerCall(StopGame(23))];
      Stage := Select;
      Player := P.None;
      if Account != null {
        Enqueue(S.LogOutSuccess);
      }
    }

    /** Turn, Walk, Attack, RangeAttack, Harvest and Magic: the cooldown-gated actions. */
    method TimedAction(a: C.TimedAction, env: Env)
      requires Valid() && Connected && Stage == Game
      modifies this`retryList, this`Trace
      ensures Valid()
      ensures var r := Admit(a, Player.value, env.time);
              && retryList == old(retryList) + (if r == Defer then [C.Timed(a)] else [])
              && Trace == old(Trace) + (if r == Execute then [PlayerCall(Perform(a))] else [])
    {
      var r := Admit(a, Player.value, env.time);
      if r == Defer {
        retryList := retryList + [C.Timed(a)];
      } else if r == Execute {
        Trace := Trace + [PlayerCall(Perform(a))];
      }
    }

    /** MagicKey: bind `key` to `spell`, taking it off every other spell. */
    method MagicKey(spell: int, key: int)
      requires Valid() && Stage == Game
      modifies this`Player
      ensures Valid()
      ensures Player == P.Some(old(Player).value.(magics := MK.Rebind(old(Player).value.magics, spell, key)))
    {
      var magics := Player.value.magics;
      ghost var original := magics;
      var i := 0;
      while i < |magics|
        invariant 0 <= i <= |magics| == |original|
        invariant forall j :: 0 <= j < i ==> magics[j] == MK.RebindOne(original[j], spell, key)
        invariant forall j :: i <= j < |magics| ==> magics[j] == original[j]
      {
        var magic := magics[i];
        if magic.spell != spell {
          if magic.key == key {
            magics := magics[i := magic.(key := 0)];
          }
        } else {
          magics := magics[i := magic.(key := key)];
        }
        i := i + 1;
      }
      assert magics == MK.Rebind(original, spell, key);
      Player := P.Some(Player.value.(magics := magics));
    }

    /**
     * CallNPC's outcome: an NPC key longer than 30 characters disconnects with
     * reason 2; otherwise the default NPC, the client NPC or the named NPC is
     * called.
     */
    twostate predicate NPCCalled(objectID: int, keyLength: nat, env: Env)
      reads this, Account
    {
      && (keyLength > MaxNPCKeyLength ==>
            && disconnecting && Stage == Disconnected && Account == null && TimeDisconnected == env.time
            && TimeOutTime == (if old(disconnecting) then old(TimeOutTime) else env.time + DisconnectGrace)
            && Trace == old(Trace) + [Send([S.Disconnect(2)])] + StopEffects(old(Player), 2))
      && (keyLength <= MaxNPCKeyLength ==>
            && old(Player).Some?
            && Trace == old(Trace) + [PlayerCall(NPCVisit(objectID, old(Player).value.npcObjectID, env.defaultNPC))]
            && Stage == old(Stage) && disconnecting == old(disconnecting) && TimeOutTime == old(TimeOutTime)
            && Account == old(Account) && (Account != null ==> Account.Connection == old(Account.Connection)))
    }

    /** CallNPC: talk to an NPC. */
    method CallNPC(objectID: int, keyLength: nat, env: Env)
      requires Valid() && Connected && Stage == Game
      modifies this`disconnecting, this`TimeOutTime, this`Stage, this`TimeDisconnected, this`Trace, this`Account
      modifies (if Account == null then {} else {Account})`Connection
      ensures Valid()
      ensures NPCCalled(objectID, keyLength, env)
      ensures keyLength > MaxNPCKeyLength && old(Account) != null ==>
                old(Account).Connection == if old(Account.Connection) == this then null else old(Account.Connection)
    {
      if keyLength > MaxNPCKeyLength {
        SendDisconnect(2, env.time);
        return;
      }
      if objectID == env.defaultNPC && Player.value.npcObjectID == env.defaultNPC {
        Trace := Trace + [PlayerCall(VisitDefaultNPC)];
        return;
      }
      if objectID == ClientNPC {
        Trace := Trace + [PlayerCall(VisitClientNPC)];
        return;
      }
      Trace := Trace + [PlayerCall(VisitNPC(objectID))];
    }

    /**
     * The receive callback. A failed or closed read marks the connection as
     * disconnecting. Otherwise the callback is counted in the flood window,
     * the decoded packets are queued, and a decoding error or a callback
     * count above MaxPacket blocks the IP for a day and marks the connection
     * as disconnecting; only a clean read re-arms the receive.
     */
    method ReceiveData(read: Read, env: Env)
      requires Valid()
      modifies this`receivePending, this`disconnecting, this`TimeOutTime, this`dataCounter, this`dataCounterReset
      modifies this`receiveList, this`lastPackets, this`Trace
      ensures Valid()
      ensures !receivePending <== !old(Connected) || !read.Bytes?
      ensures !old(Connected) ==>
                && disconnecting == old(disconnecting) && TimeOutTime == old(TimeOutTime) && Window() == old(Window())
                && receiveList == old(receiveList) && lastPackets == old(lastPackets) && Trace == old(Trace)
      ensures old(Connected) && !read.Bytes? ==>
                && disconnecting && TimeOutTime == (if old(disconnecting) then old(TimeOutTime) else env.time + DisconnectGrace)
                && Window() == old(Window()) && receiveList == old(receiveList) && lastPackets == old(lastPackets)
                && Trace == old(Trace)
      ensures old(Connected) && read.Bytes? ==> Received(read.decoded, read.malformed, env)
    {
      receivePending := false;
      if !Connected {
        return;
      }
      if !read.Bytes? {
        SetDisconnecting(true, env.time);
        return;
      }
      ReceiveBytes(read.decoded, read.malformed, env);
    }

    /**
     * What a read that delivered bytes does: the callback is counted in the
     * flood window and the decoded packets are queued; then a decoding error,
     * or else a count above MaxPacket (which also empties the last-packets
     * ring), blocks the IP for a day and marks the connection as
     * disconnecting, and otherwise the receive is re-armed.
     */
    twostate predicate Received(decoded: seq<C.Packet>, malformed: bool, env: Env)
      reads this
    {
      && Window() == FG.Tally(old(Window()), env.now)
      && receiveList == old(receiveList) + decoded
      && var flooded := malformed || dataCounter > Settings.maxPacket;
         && (flooded ==>
               && Trace == old(Trace) + [BlockIP(DayBlock)] && disconnecting && !receivePending
               && TimeOutTime == (if old(disconnecting) then old(TimeOutTime) else env.time + DisconnectGrace))
         && (!flooded ==>
               && Trace == old(Trace) && receivePending
               && disconnecting == old(disconnecting) && TimeOutTime == old(TimeOutTime))
         && lastPackets == (if !malformed && dataCounter > Settings.maxPacket then [] else old(lastPackets))
    }

    /** ReceiveData after a read that delivered bytes. */
    method ReceiveBytes(decoded: seq<C.Packet>, malformed: bool, env: Env)
      requires Valid() && Connected
      modifies this`receivePending, this`disconnecting, this`TimeOutTime, this`dataCounter, this`dataCounterReset
      modifies this`receiveList, this`lastPackets, this`Trace
      ensures Valid()
      ensures Received(decoded, malformed, env)
    {
      CountCallback(env.now);
      receiveList := receiveList + decoded;
      if malformed {
        Trace := Trace + [BlockIP(DayBlock)];
        SetDisconnecting(true, env.time);
        receivePending := false;
        return;
      }
      if dataCounter > Settings.maxPacket {
        Trace := Trace + [BlockIP(DayBlock)];
        lastPackets := [];
        SetDisconnecting(true, env.time);
        receivePending := false;
        return;
      }
      receivePending := true;
    }

    /** The flood window of ReceiveData: restart it once it has passed, then count this callback. */
    method CountCallback(now: nat)
      modifies this`dataCounter, this`dataCounterReset
      ensures Window() == FG.Tally(old(Window()), now)
    {
      if dataCounterReset < now {
        dataCounterReset := now + FG.WindowLength;
        dataCounter := 0;
      }
      dataCounter := dataCounter + 1;
    }

    /**
     * CheckItemInfo: make sure the client has the definition of `info` and,
     * for a class- or level-based item, of every variant sharing its name
     * prefix in `items` (Envir.ItemInfoList). Each definition is sent once per
     * connection: the ones not yet in SentItemInfo are announced, in order,
     * and recorded.
     */
    method CheckItemInfo(info: ItemInfo, dontLoop: bool, items: seq<ItemInfo>)
      requires this !in Observers && P.NoDuplicates(Observers)
      modifies this`SentItemInfo, this`sendList, Observers`sendList
      ensures SentItemInfo == IC.Remember(old(SentItemInfo), IC.Requested(info, dontLoop, items))
      ensures Broadcast(IC.Announce(SentItemInfo[|old(SentItemInfo)|..]))
    {
      ghost var bases := Outboxes();
      assert sendList + [] == sendList;
      ghost var variants: seq<ItemInfo> := [];
      if !dontLoop && (info.classBased || info.levelBased) {
        CheckVariants(info, items, old(SentItemInfo), old(sendList), bases);
        variants := IC.Variants(info, items);
      }
      SendOnce(info, old(SentItemInfo), old(sendList), bases);
      IC.RememberStep(old(SentItemInfo), variants, info);
      ghost var announced := IC.Announce(SentItemInfo[|old(SentItemInfo)|..]);
      forall j | 0 <= j < |Observers|
        ensures Observers[j].sendList
                == old(Observers[j].sendList) + (if Observers[j].Connected then S.Keep(announced, Observable) else [])
      {
        assert bases[j] == old(Observers[j].sendList);
      }
    }

    /**
     * The loop of CheckItemInfo: each variant of `info` goes through
     * CheckItemInfo(variant, true), which skips the loop and is SendOnce.
     * What has been broadcast is counted from the send queues `base` and
     * `bases`, when the record was `start`.
     */
    method CheckVariants(info: ItemInfo, items: seq<ItemInfo>,
                         ghost start: seq<ItemInfo>, ghost base: seq<S.Packet>, ghost bases: seq<seq<S.Packet>>)
      requires this !in Observers && P.NoDuplicates(Observers)
      requires start <= SentItemInfo && Broadcasted(base, bases, IC.Announce(SentItemInfo[|start|..]))
      modifies this`SentItemInfo, this`sendList, Observers`sendList
      ensures SentItemInfo == IC.Remember(old(SentItemInfo), IC.Variants(info, items))
      ensures start <= SentItemInfo && Broadcasted(base, bases, IC.Announce(SentItemInfo[|start|..]))
    {
      var i := 0;
      while i < |items|
        invariant 0 <= i <= |items|
        invariant SentItemInfo == IC.Remember(old(SentItemInfo), IC.Variants(info, items[..i]))
        invariant start <= SentItemInfo && Broadcasted(base, bases, IC.Announce(SentItemInfo[|start|..]))
      {
        CheckVariant(info, items, i, old(SentItemInfo), start, base, bases);
        i := i + 1;
      }
      assert items[..i] == items;
    }

    /** One turn of CheckVariants: the `i`-th definition is sent if it is a variant. */
    method CheckVariant(info: ItemInfo, items: seq<ItemInfo>, i: nat, ghost sent: seq<ItemInfo>,
                        ghost start: seq<ItemInfo>, ghost base: seq<S.Packet>, ghost bases: seq<seq<S.Packet>>)
      requires this !in Observers && P.NoDuplicates(Observers) && i < |items|
      requires SentItemInfo == IC.Remember(sent, IC.Variants(info, items[..i]))
      requires start <= SentItemInfo && Broadcasted(base, bases, IC.Announce(SentItemInfo[|start|..]))
      modifies this`SentItemInfo, this`sendList, Observers`sendList
      ensures SentItemInfo == IC.Remember(sent, IC.Variants(info, items[..i + 1]))
      ensures start <= SentItemInfo && Broadcasted(base, bases, IC.Announce(SentItemInfo[|start|..]))
    {
      ghost var done := IC.Variants(info, items[..i]);
      IC.VariantsStep(info, items, i);
      if items[i] != info && info.name <= items[i].name {
        SendOnce(items[i], start, base, bases);
        IC.RememberStep(sent, done, items[i]);
      } else {
        assert done + [] == done;
      }
    }

    /**
     * The tail of CheckItemInfo: announce and record `x` unless it was sent
     * before (counted as in CheckVariants).
     */
    method SendOnce(x: ItemInfo, ghost start: seq<ItemInfo>, ghost base: seq<S.Packet>, ghost bases: seq<seq<S.Packet>>)
      requires this !in Observers && P.NoDuplicates(Observers)
      requires start <= SentItemInfo && Broadcasted(base, bases, IC.Announce(SentItemInfo[|start|..]))
      modifies this`SentItemInfo, this`sendList, Observers`sendList
      ensures SentItemInfo == IC.Note(old(SentItemInfo), x)
      ensures x in old(SentItemInfo) ==> sendList == old(sendList)
      ensures start <= SentItemInfo && Broadcasted(base, bases, IC.Announce(SentItemInfo[|start|..]))
    {
      if x in SentItemInfo {
        return;
      }
      ghost var announced := IC.Announce(SentItemInfo[|start|..]);
      Enqueue(S.NewItemInfo(x));
      SentItemInfo := SentItemInfo + [x];
      forall j | 0 <= j < |Observers|
        ensures Observers[j].sendList
                == bases[j] + (if Observers[j].Connected then S.Keep(announced + [S.NewItemInfo(x)], Observable) else [])
      {
        Relay(bases[j], old(Observers[j].sendList), Observers[j].sendList,
              announced, [S.NewItemInfo(x)], Observers[j].Connected, Observable);
      }
      assert SentItemInfo[|start|..] == old(SentItemInfo)[|start|..] + [x];
      IC.AnnounceAppend(old(SentItemInfo)[|start|..], [x]);
    }

    /**
     * Process: one tick. A dead socket ends it with Disconnect(20). Otherwise
     * the receive queue is handled in FIFO order until it is empty or the
     * connection is disconnecting (each packet refreshes the timeout and
     * enters the last-packets ring); the actions that must wait go to the
     * back of the receive queue for the next tick; a passed timeout ends it
     * with Disconnect(21); and the send queue is flushed in one direct send
     * when it is not empty.
     */
    method Process(env: Env, socketUp: bool)
      returns (ghost drained: seq<C.Packet>, ghost requeued: seq<C.Packet>,
               ghost deadline: int, ghost end: TickEnd)
      requires Valid()
      modifies this`Stage, this`Connected, this`disconnecting, this`TimeOutTime, this`TimeDisconnected
      modifies this`receiveList, this`sendList, this`retryList, this`Account, this`Player, this`Trace
      modifies this`lastPackets, this`Handled, this`DisconnectingWhenTaken
      modifies (if Account == null then {} else {Account})`Connection
      modifies (if Account == null then {} else {Account})`Characters
      modifies (if Observing == null then {} else {Observing})`Observers, Observers`sendList
      ensures Valid()
      ensures end == SocketLost <==> !old(Connected) || !socketUp
      ensures end == SocketLost && !old(Connected) ==> unchanged(this)
      ensures end == SocketLost && old(Connected) ==>
                && !Connected && Stage == Disconnected && Account == null
                && Trace == old(Trace) + [Unregister] + StopEffects(Player, 20)
                && Handled == old(Handled) && receiveList == [] && sendList == [] && retryList == []
                && (old(Account) != null ==>
                      old(Account).Connection == if old(Account.Connection) == this then null else old(Account.Connection))
                && (Observing != null ==> Observing.Observers == P.RemoveFirst(old(Observing.Observers), this))
      ensures end != SocketLost ==>
                && drained <= old(receiveList) && Handled == old(Handled) + drained
                && DisconnectingWhenTaken == old(DisconnectingWhenTaken) + Calm(|drained|)
                && lastPackets == LP.Recent(old(lastPackets) + drained, LP.Capacity)
                && (old(disconnecting) ==> drained == [])
                && old(Trace) <= Trace
      ensures end == DroppedWhileDraining ==>
                |drained| > 0 && drained[|drained| - 1] == C.Disconnect && !Connected && Stage == Disconnected
      ensures end.TimedOut? || end.Flushed? || end.Idle? ==>
                && (drained == old(receiveList) || disconnecting)
                && old(retryList) <= requeued
                && (forall q :: q in requeued ==> q in old(retryList) || q in drained)
                && (|drained| == 0 ==> deadline == old(TimeOutTime))
                && (|drained| > 0 && !disconnecting ==> deadline == env.time + Settings.timeOut)
                && (disconnecting && !old(disconnecting) ==> deadline == env.time + DisconnectGrace)
      ensures end == TimedOut ==>
                && env.time > deadline && !Connected && Stage == Disconnected && Account == null
                && receiveList == [] && sendList == [] && retryList == []
                && EndsAfter(old(Trace), Trace, [Unregister] + StopEffects(Player, 21))
                && (Observing != null ==> Observing.Observers == P.RemoveFirst(old(Observing.Observers), this))
      ensures end.Flushed? || end.Idle? ==>
                && env.time <= deadline && Connected && TimeOutTime == deadline
                && receiveList == old(receiveList)[|drained|..] + requeued && retryList == [] && sendList == []
      ensures end.Flushed? ==>
                && end.packets != [] && old(sendList) <= end.packets
                && |Trace| > 0 && Trace[|Trace| - 1] == Send(end.packets)
      ensures end.Idle? ==> old(sendList) == [] && old(Trace) <= Trace
    {
      if !Connected || !socketUp {
        drained, requeued, deadline := [], [], TimeOutTime;
        Disconnect(20, env.time);
        end := SocketLost;
        return;
      }
      drained, requeued, deadline, end := Tick(env);
    }

    /**
     * What one tick on a live socket did, measured from `start`: the first
     * loop dispatched `drained`, then either a Disconnect packet tore the
     * connection down, or the retries `requeued` went to the back of the
     * receive queue and the tick timed out with Disconnect(21) or flushed
     * the send queue (when it was not empty).
     */
    ghost predicate TickedFrom(start: Start, drained: seq<C.Packet>, requeued: seq<C.Packet>, deadline: int,
                               end: TickEnd, env: Env)
      reads this, Observing
    {
      && end != SocketLost
      && DrainedFrom(start, drained, env)
      && (end == DroppedWhileDraining ==>
            |drained| > 0 && drained[|drained| - 1] == C.Disconnect && !Connected && Stage == Disconnected)
      && (end.TimedOut? || end.Flushed? || end.Idle? ==> RequeuedFrom(start, drained, requeued, deadline, env))
      && (end == TimedOut ==>
            && env.time > deadline && !Connected && Stage == Disconnected && Account == null
            && receiveList == [] && sendList == [] && retryList == []
            && EndsAfter(start.trace, Trace, [Unregister] + StopEffects(Player, 21))
            && (Observing != null ==> Observing.Observers == P.RemoveFirst(start.observed, this)))
      && (end.Flushed? || end.Idle? ==>
            && env.time <= deadline && Connected && TimeOutTime == deadline
            && receiveList == start.receiveList[|drained|..] + requeued && retryList == [] && sendList == [])
      && (end.Flushed? ==>
            && end.packets != [] && start.sendList <= end.packets
            && |Trace| > 0 && Trace[|Trace| - 1] == Send(end.packets))
      && (end.Idle? ==> start.sendList == [])
    }

    /**
     * The first loop of a tick ran to its end after dispatching `drained`
     * since `start`: the receive queue was used up unless the connection is
     * disconnecting, the retries `requeued` are the old ones and then those
     * the dispatches deferred, and the deadline is the one the last dispatch
     * left.
     */
    ghost predicate RequeuedFrom(start: Start, drained: seq<C.Packet>, requeued: seq<C.Packet>, deadline: int, env: Env)
      reads this`disconnecting
    {
      && (drained == start.receiveList || disconnecting)
      && start.retryList <= requeued
      && (forall q :: q in requeued ==> q in start.retryList || q in drained)
      && (|drained| == 0 ==> deadline == start.timeOutTime)
      && (|drained| > 0 && !disconnecting ==> deadline == env.time + Settings.timeOut)
      && (disconnecting && !start.disconnecting ==> deadline == env.time + DisconnectGrace)
    }

    /** Process on a live socket: the three loops and the timeout check. */
    method Tick(env: Env)
      returns (ghost drained: seq<C.Packet>, ghost requeued: seq<C.Packet>,
               ghost deadline: int, ghost end: TickEnd)
      requires Valid() && Connected
      modifies this`Stage, this`Connected, this`disconnecting, this`TimeOutTime, this`TimeDisconnected
      modifies this`receiveList, this`sendList, this`retryList, this`Account, this`Player, this`Trace
      modifies this`lastPackets, this`Handled, this`DisconnectingWhenTaken
      modifies (if Account == null then {} else {Account})`Connection
      modifies (if Account == null then {} else {Account})`Characters
      modifies (if Observing == null then {} else {Observing})`Observers, Observers`sendList
      ensures Valid() && TickedFrom(old(Snapshot()), drained, requeued, deadline, end, env)
    {
      ghost var start := Snapshot();
      drained := DrainReceive(env);
      if !Connected {
        requeued, deadline := [], TimeOutTime;
        end := DroppedWhileDraining;
        return;
      }
      requeued, deadline, end := AfterDrain(env, start, drained);
    }

    /** The rest of Tick once the first loop has dispatched `drained` since `start`. */
    method AfterDrain(env: Env, ghost start: Start, ghost drained: seq<C.Packet>)
      returns (ghost requeued: seq<C.Packet>, ghost deadline: int, ghost end: TickEnd)
      requires Valid() && Connected && DrainingFrom(start, drained, env) && (receiveList == [] || disconnecting)
      modifies this`Connected, this`Stage, this`TimeDisconnected, this`Trace, this`Account
      modifies this`receiveList, this`sendList, this`retryList
      modifies (if Account == null then {} else {Account})`Connection
      modifies (if Observing == null then {} else {Observing})`Observers
      ensures Valid() && TickedFrom(start, drained, requeued, deadline, end, env)
    {
      deadline := TimeOutTime;
      requeued := retryList;
      assert start.receiveList[|drained|..] == receiveList;
      end := Conclude(env, start, drained, requeued, deadline);
    }

    /** The timeout check and the flush, once the retries `requeued` are known. */
    method Conclude(env: Env, ghost start: Start, ghost drained: seq<C.Packet>, ghost requeued: seq<C.Packet>,
                    ghost deadline: int)
      returns (ghost end: TickEnd)
      requires Valid() && Connected
      requires DequeuedFrom(start, drained, env) && RequeuedFrom(start, drained, requeued, deadline, env)
      requires start.trace <= Trace && (Account == start.account || Account == null)
      requires retryList == requeued && TimeOutTime == deadline && receiveList == start.receiveList[|drained|..]
      requires start.sendList <= sendList && (Observing != null ==> Observing.Observers == start.observed)
      modifies this`Connected, this`Stage, this`TimeDisconnected, this`Trace, this`Account
      modifies this`receiveList, this`sendList, this`retryList
      modifies (if Account == null then {} else {Account})`Connection
      modifies (if Observing == null then {} else {Observing})`Observers
      ensures Valid() && TickedFrom(start, drained, requeued, deadline, end, env)
    {
      ghost var mid := Trace;
      end := FinishTick(env);
      if end.TimedOut? {
        TimedOutTick(start, drained, requeued, deadline, mid, env);
      } else {
        FinishedTick(start, drained, requeued, deadline, end, env);
      }
    }

    /** A tick that timed out: Disconnect(21) after the dispatches. */
    lemma TimedOutTick(start: Start, drained: seq<C.Packet>, requeued: seq<C.Packet>, deadline: int,
                       mid: seq<Effect>, env: Env)
      requires DequeuedFrom(start, drained, env) && RequeuedFrom(start, drained, requeued, deadline, env)
      requires start.trace <= mid && Trace == mid + [Unregister] + StopEffects(Player, 21)
      requires env.time > deadline && !Connected && Stage == Disconnected && Account == null
      requires receiveList == [] && sendList == [] && retryList == []
      requires Observing != null ==> Observing.Observers == P.RemoveFirst(start.observed, this)
      ensures TickedFrom(start, drained, requeued, deadline, TimedOut, env)
    {
      assert Trace == mid + ([Unregister] + StopEffects(Player, 21));
      EndsAfterAppend(start.trace, mid, [Unregister] + StopEffects(Player, 21));
    }

    /** A tick that did not time out: the send queue flushed when it was not empty. */
    lemma FinishedTick(start: Start, drained: seq<C.Packet>, requeued: seq<C.Packet>, deadline: int,
                       end: TickEnd, env: Env)
      requires end.Flushed? || end.Idle?
      requires DequeuedFrom(start, drained, env) && RequeuedFrom(start, drained, requeued, deadline, env)
      requires start.trace <= Trace && (Account == start.account || Account == null)
      requires env.time <= deadline && Connected && TimeOutTime == deadline
      requires receiveList == start.receiveList[|drained|..] + requeued && retryList == [] && sendList == []
      requires end.Flushed? ==> end.packets != [] && start.sendList <= end.packets && |Trace| > 0 && Trace[|Trace| - 1] == Send(end.packets)
      requires end.Idle? ==> start.sendList == []
      ensures TickedFrom(start, drained, requeued, deadline, end, env)
    {
    }

    /**
     * The rest of Process once the receive queue is drained: requeue the
     * retries, then time out, or flush the send queue if it is not empty.
     */
    method FinishTick(env: Env) returns (ghost end: TickEnd)
      requires Valid() && Connected
      modifies this`Connected, this`Stage, this`TimeDisconnected, this`Trace, this`Account
      modifies this`receiveList, this`sendList, this`retryList
      modifies (if Account == null then {} else {Account})`Connection
      modifies (if Observing == null then {} else {Observing})`Observers
      ensures Valid()
      ensures end.TimedOut? || end.Flushed? || end.Idle?
      ensures end.TimedOut? <==> env.time > TimeOutTime
      ensures end.TimedOut? ==>
                && !Connected && Stage == Disconnected && TimeDisconnected == env.time && Account == null
                && receiveList == [] && sendList == [] && retryList == []
                && Trace == old(Trace) + [Unregister] + StopEffects(Player, 21)
                && (old(Account) != null ==>
                      old(Account).Connection == if old(Account.Connection) == this then null else old(Account.Connection))
                && (Observing != null ==> Observing.Observers == P.RemoveFirst(old(Observing.Observers), this))
      ensures !end.TimedOut? ==>
                && Connected && Account == old(Account)
                && receiveList == old(receiveList) + old(retryList) && retryList == [] && sendList == []
      ensures end.Flushed? ==> end.packets == old(sendList) && end.packets != [] && Trace == old(Trace) + [Send(end.packets)]
      ensures end.Idle? ==> old(sendList) == [] && Trace == old(Trace)
    {
      Requeue();
      if env.time > TimeOutTime {
        Disconnect(21, env.time);
        end := TimedOut;
        return;
      }
      if sendList == [] {
        end := Idle;
        return;
      }
      var data := Flush();
      end := Flushed(data);
    }

    /** The fields the first loop of Process measures its progress against, as they were when it began. */
    ghost function Snapshot(): Start
      reads this, Observing
    {
      Start(receiveList, retryList, sendList, Trace, Handled, DisconnectingWhenTaken, lastPackets, TimeOutTime,
            disconnecting, Account, Observers, Observing, if Observing == null then [] else Observing.Observers)
    }

    /**
     * What the first loop of Process keeps, once `drained` has been
     * dispatched since `start`, whether or not the last of them tore the
     * connection down: the dispatch facts of DequeuedFrom, a trace that only
     * grew and an account that was at most released.
     */
    ghost predicate DrainedFrom(start: Start, drained: seq<C.Packet>, env: Env)
      reads this
    {
      && DequeuedFrom(start, drained, env)
      && start.trace <= Trace
      && (Account == start.account || Account == null)
    }

    /**
     * The part of DrainedFrom the rest of the tick leaves alone: no dispatch
     * once Disconnecting was set (none at all when it was set before), the
     * grace period granted by the one that set it, and the dispatched packets
     * taken from the front of the receive queue, logged and in the
     * last-packets ring.
     */
    ghost predicate DequeuedFrom(start: Start, drained: seq<C.Packet>, env: Env)
      reads this`DisconnectingWhenTaken, this`disconnecting, this`TimeOutTime, this`Handled, this`lastPackets
      reads this`Observers, this`Observing
    {
      && DisconnectingWhenTaken == start.taken + Calm(|drained|)
      && (start.disconnecting ==> disconnecting && drained == [])
      && (disconnecting && !start.disconnecting ==> TimeOutTime == env.time + DisconnectGrace)
      && drained <= start.receiveList
      && Handled == start.handled + drained
      && lastPackets == LP.Recent(start.lastPackets + drained, LP.Capacity)
      && Observers == start.observers && Observing == start.observing
    }

    /** What the first loop of Process keeps on a live connection, once `drained` has been dispatched since `start`. */
    ghost predicate DrainingFrom(start: Start, drained: seq<C.Packet>, env: Env)
      reads this, Observing
    {
      && DrainedFrom(start, drained, env)
      && (Observing != null ==> Observing.Observers == start.observed)
      && start.receiveList == drained + receiveList
      && start.retryList <= retryList
      && (forall q :: q in retryList ==> q in start.retryList || q in drained)
      && start.sendList <= sendList
      && (|drained| == 0 ==> TimeOutTime == start.timeOutTime)
      && (|drained| > 0 && !disconnecting ==> TimeOutTime == env.time + Settings.timeOut)
    }

    /**
     * The first loop of Process: dequeue and dispatch packets while the
     * receive queue is not empty and the connection is not disconnecting,
     * stopping at once when a packet tore the connection down.
     */
    method DrainReceive(env: Env) returns (ghost drained: seq<C.Packet>)
      requires Valid() && Connected
      modifies this`Stage, this`Connected, this`disconnecting, this`TimeOutTime, this`TimeDisconnected
      modifies this`receiveList, this`sendList, this`retryList, this`Account, this`Player, this`Trace
      modifies this`lastPackets, this`Handled, this`DisconnectingWhenTaken
      modifies (if Account == null then {} else {Account})`Connection
      modifies (if Account == null then {} else {Account})`Characters
      modifies (if Observing == null then {} else {Observing})`Observers, Observers`sendList
      ensures Valid()
      ensures DrainedFrom(old(Snapshot()), drained, env)
      ensures !Connected ==> |drained| > 0 && drained[|drained| - 1] == C.Disconnect && Stage == Disconnected
      ensures Connected ==> DrainingFrom(old(Snapshot()), drained, env) && (receiveList == [] || disconnecting)
    {
      ghost var start := Snapshot();
      drained := [];
      while receiveList != [] && !disconnecting
        invariant Valid() && Connected && DrainingFrom(start, drained, env)
        decreases |receiveList|
      {
        drained := DrainStep(env, start, drained);
        if !Connected {
          return;
        }
      }
    }

    /** One turn of the first loop of Process, measured against the loop's start. */
    method DrainStep(env: Env, ghost start: Start, ghost drained: seq<C.Packet>)
      returns (ghost drained': seq<C.Packet>)
      requires Valid() && Connected && receiveList != [] && !disconnecting
      requires DrainingFrom(start, drained, env)
      modifies this`Stage, this`Connected, this`disconnecting, this`TimeOutTime, this`TimeDisconnected
      modifies this`receiveList, this`sendList, this`retryList, this`Account, this`Player, this`Trace
      modifies this`lastPackets, this`Handled, this`DisconnectingWhenTaken
      modifies (if Account == null then {} else {Account})`Connection
      modifies (if Account == null then {} else {Account})`Characters
      modifies (if Observing == null then {} else {Observing})`Observers, Observers`sendList
      ensures Valid()
      ensures DrainedFrom(start, drained', env) && |drained'| == |drained| + 1
      ensures !Connected ==> drained'[|drained'| - 1] == C.Disconnect && Stage == Disconnected
      ensures Connected ==> DrainingFrom(start, drained', env)
    {
      LP.PushContinues(start.lastPackets, drained, receiveList[0], LP.Capacity);
      var p := DrainOne(env);
      CalmStep(start.taken, |drained|);
      drained' := drained + [p];
    }

    /**
     * One turn of the first loop of Process: the head of the receive queue
     * enters the last-packets ring, refreshes the timeout and is dispatched.
     */
    method DrainOne(env: Env) returns (p: C.Packet)
      requires Valid() && Connected && receiveList != [] && !disconnecting
      modifies this`Stage, this`Connected, this`disconnecting, this`TimeOutTime, this`TimeDisconnected
      modifies this`receiveList, this`sendList, this`retryList, this`Account, this`Player, this`Trace
      modifies this`lastPackets, this`Handled, this`DisconnectingWhenTaken
      modifies (if Account == null then {} else {Account})`Connection
      modifies (if Account == null then {} else {Account})`Characters
      modifies (if Observing == null then {} else {Observing})`Observers, Observers`sendList
      ensures Valid()
      ensures disconnecting ==> TimeOutTime == env.time + DisconnectGrace
      ensures p == old(receiveList[0]) && Handled == old(Handled) + [p]
      ensures DisconnectingWhenTaken == old(DisconnectingWhenTaken) + [false]
      ensures lastPackets == LP.Push(old(lastPackets), p, LP.Capacity)
      ensures Connected && Observing != null ==> Observing.Observers == old(Observing.Observers)
      ensures Observers == old(Observers) && Observing == old(Observing) && (Account == old(Account) || Account == null)
      ensures old(Trace) <= Trace
      ensures !Connected ==> p == C.Disconnect && Stage == Disconnected
      ensures Connected ==>
                && receiveList == old(receiveList[1..]) && old(sendList) <= sendList
                && old(retryList) <= retryList
                && (forall q :: q in retryList ==> q in old(retryList) || q == p)
                && (!disconnecting ==> TimeOutTime == env.time + Settings.timeOut)
    {
      p := Take(env);
      ProcessPacket(p, env);
    }

    /** The head of the receive queue enters the last-packets ring and refreshes the timeout. */
    method Take(env: Env) returns (p: C.Packet)
      requires Valid() && Connected && receiveList != []
      modifies this`receiveList, this`lastPackets, this`TimeOutTime, this`Handled, this`DisconnectingWhenTaken
      ensures Valid()
      ensures p == old(receiveList[0]) && receiveList == old(receiveList[1..])
      ensures lastPackets == LP.Push(old(lastPackets), p, LP.Capacity) && Handled == old(Handled) + [p]
      ensures DisconnectingWhenTaken == old(DisconnectingWhenTaken) + [old(disconnecting)]
      ensures TimeOutTime == env.time + Settings.timeOut
    {
      p := receiveList[0];
      receiveList := receiveList[1..];
      lastPackets := LP.Push(lastPackets, p, LP.Capacity);
      TimeOutTime := env.time + Settings.timeOut;
      Handled := Handled + [p];
      DisconnectingWhenTaken := DisconnectingWhenTaken + [disconnecting];
    }

    /** The second loop of Process: the retry queue moves, in order, to the back of the receive queue. */
    method Requeue()
      requires Valid() && Connected
      modifies this`receiveList, this`retryList
      ensures Valid()
      ensures receiveList == old(receiveList) + old(retryList) && retryList == []
    {
      while retryList != []
        invariant receiveList + retryList == old(receiveList) + old(retryList)
        invariant Valid() && Connected
        decreases |retryList|
      {
        assert receiveList + retryList == receiveList + [retryList[0]] + retryList[1..];
        receiveList := receiveList + [retryList[0]];
        retryList := retryList[1..];
      }
      assert receiveList + [] == receiveList;
    }

    /** The last loop of Process: the whole send queue, in order, goes out in one direct send. */
    method Flush() returns (data: seq<S.Packet>)
      requires Valid() && Connected && sendList != []
      modifies this`sendList, this`Trace
      ensures Valid()
      ensures data == old(sendList) && sendList == [] && Trace == old(Trace) + [Send(data)]
    {
      data := [];
      while sendList != []
        invariant data + sendList == old(sendList)
        invariant Valid() && Connected && Trace == old(Trace)
        decreases |sendList|
      {
        assert data + sendList == data + [sendList[0]] + sendList[1..];
        data := data + [sendList[0]];
        sendList := sendList[1..];
      }
      assert data + [] == data;
      BeginSend(data);
    }

    /**
     * AddObserver: `c` starts observing this connection. It ends up listed
     * exactly once here, and is taken off the list of the connection it
     * observed before.
     */
    method AddObserver(c: Connection)
      requires c != this && Valid() && c.Valid()
      requires c in Observers ==> c.Observing == this
      modifies this`Observers, c`Observing, c`Stage
      modifies (if c.Observing == null then {} else {c.Observing})`Observers
      ensures Valid() && c.Valid()
      ensures c.Observing == this && c.Stage == Observer
      ensures old(c in Observers) || old(c.Observing) != this ==>
                multiset(Observers)[c] == 1 && Observers == P.RemoveFirst(old(Observers), c) + [c]
      ensures old(c !in Observers) && old(c.Observing) == this ==> Observers == old(Observers) && c !in Observers
      ensures old(c.Observing) != null && old(c.Observing) != this ==>
                old(c.Observing).Observers == P.RemoveFirst(old(c.Observing.Observers), c)
      ensures old(c.Observing) != null && old(c.Observing) != this && P.NoDuplicates(old(c.Observing.Observers)) ==>
                c !in old(c.Observing).Observers
    {
      if c.Observing == this {
        Rejoin(c);
      } else {
        Join(c);
      }
      c.Watch(this);
    }

    /** The observer's side of AddObserver: it now watches `target`, in stage Observer. */
    method Watch(target: Connection)
      requires Valid() && target != this
      modifies this`Observing, this`Stage
      ensures Valid() && Observing == target && Stage == Observer
    {
      Observing := target;
      Stage := Observer;
    }

    /** The list side of AddObserver for a connection that already observes this one. */
    method Rejoin(c: Connection)
      requires c != this && Valid()
      modifies this`Observers
      ensures Valid()
      ensures old(c in Observers) ==> multiset(Observers)[c] == 1 && Observers == P.RemoveFirst(old(Observers), c) + [c]
      ensures old(c !in Observers) ==> Observers == old(Observers)
    {
      if c in Observers {
        P.MoveToBack(Observers, c, this);
      } else {
        P.RemoveAppended(Observers, c);
      }
      Observers := Observers + [c];
      Unlink(c);
    }

    /** The list side of AddObserver for a connection that observes another one, or none. */
    method Join(c: Connection)
      requires c != this && Valid() && c.Valid() && c !in Observers && c.Observing != this
      modifies this`Observers, (if c.Observing == null then {} else {c.Observing})`Observers
      ensures Valid()
      ensures multiset(Observers)[c] == 1
      ensures Observers == P.RemoveFirst(old(Observers), c) + [c]
      ensures c.Observing != null ==> c.Observing.Observers == P.RemoveFirst(old(c.Observing.Observers), c)
      ensures c.Observing != null && P.NoDuplicates(old(c.Observing.Observers)) ==> c !in c.Observing.Observers
    {
      P.MoveToBack(Observers, c, this);
      Observers := Observers + [c];
      var previous := c.Observing;
      if previous != null {
        if P.NoDuplicates(previous.Observers) {
          P.RemoveFirstDistinct(previous.Observers, c);
        }
        previous.Unlink(c);
      }
    }
  }
}
