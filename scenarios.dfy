/**
 * Short sessions on freshly accepted connections, each ending in a value
 * fixed by the contracts of the operations it calls.
 */
module Scenarios {

  import P = Primitives
  import opened MirDatabase
  import C = ClientPackets
  import S = ServerPackets
  import opened World
  import opened Gating
  import opened MirNetwork
  import FG = FloodGuard

  /** The hash the client build reports (Functions.CompareBytes against it). */
  const Build: seq<P.byte> := [7, 1, 9]

  /** A server that checks the client version and allows ten receive callbacks per window. */
  function Strict(): ServerSettings {
    ServerSettings(
      timeOut := 10000, maxPacket := 10, checkVersion := true, versionHashes := [Build],
      allowDeleteCharacter := true, allowStartGame := true, ipBlockSeconds := 5, maxChatLength := 140)
  }

  function Idle(): PlayerState {
    PlayerState(
      actionTime := 0, attackTime := 0, spellTime := 0, logTime := 0, dead := false,
      aMode := 0, pMode := 0, allowTrade := false, npcObjectID := 0, magics := [])
  }

  function At(time: int): Env {
    Env(time, 0, 0, (c: CharacterInfo) => Idle())
  }

  function Everything(p: S.Packet): bool { true }

  method Accept(settings: ServerSettings, env: Env) returns (c: Connection)
    ensures fresh(c) && c.Valid() && c.Connected && !c.disconnecting && c.Stage == None
    ensures c.Settings == settings && c.Account == null && c.Player.None?
    ensures c.Observable == Everything && c.Observers == [] && c.Observing == null
    ensures c.sendList == [S.Connected] && c.receiveList == [] && c.retryList == []
    ensures c.Window() == FG.Window(0, 0) && c.receivePending
  {
    c := new Connection(1, "10.0.0.1", settings, Everything, env);
  }

  /** A client of a known build is moved to the login stage and told so. */
  method KnownBuildLogsIn() returns (stage: GameStage, queued: seq<S.Packet>)
    ensures stage == Login && queued == [S.Connected, S.ClientVersion(1)]
  {
    var c := Accept(Strict(), At(0));
    c.ClientVersion(Build, At(0));
    stage, queued := c.Stage, c.sendList;
  }

  /** A client of an unknown build never reaches the login stage. */
  method UnknownBuildIsTurnedAway() returns (stage: GameStage, leaving: bool, connected: bool)
    ensures stage == Disconnected && leaving && connected
  {
    var c := Accept(Strict(), At(0));
    c.ClientVersion([0], At(0));
    stage, leaving, connected := c.Stage, c.disconnecting, c.Connected;
  }

  /** Ten receive callbacks within one window pass; the eleventh trips the flood guard. */
  method EleventhCallbackTrips() returns (armed: bool, leaving: bool, counted: nat)
    ensures !armed && leaving && counted == 11
  {
    var c := Accept(Strict(), At(0));
    var i := 0;
    while i < 10
      invariant 0 <= i <= 10
      invariant c.Valid() && c.Connected && !c.disconnecting && c.receivePending
      invariant c.Settings == Strict() && c.Window() == FG.Window(i, 0)
    {
      c.ReceiveData(Bytes([], false), At(0));
      i := i + 1;
    }
    c.ReceiveData(Bytes([], false), At(0));
    armed, leaving, counted := c.receivePending, c.disconnecting, c.dataCounter;
  }

  /** A walk that arrives before the action timer waits in the retry list, and runs once the timer has passed. */
  method EarlyWalkWaits() returns (retries: seq<C.Packet>, later: seq<C.Packet>)
    ensures retries == [C.Timed(C.Walk(2))] && later == retries
  {
    var c := Accept(Strict(), At(0));
    // Stands for PlayerObject.StartGame, which moves the connection to stage Game outside this model.
    c.Stage := Game;
    c.Player := P.Some(Idle().(actionTime := 600));
    c.TimedAction(C.Walk(2), At(500));
    retries := c.retryList;
    c.TimedAction(C.Walk(2), At(600));
    later := c.retryList;
  }

  /** The second Disconnect of a connection changes nothing: the first one's time stays. */
  method SecondDisconnectIsIgnored() returns (connected: bool, stage: GameStage, at: int, queued: seq<S.Packet>)
    ensures !connected && stage == Disconnected && at == 30 && queued == []
  {
    var c := Accept(Strict(), At(0));
    c.Disconnect(20, 30);
    c.Disconnect(21, 45);
    connected, stage, at, queued := c.Connected, c.Stage, c.TimeDisconnected, c.sendList;
  }

  /**
   * Observing the same connection twice lists the observer once; observing
   * a second connection takes it off the first one's list.
   */
  method ObserverMovesOn() returns (first: seq<Connection>, second: seq<Connection>, watching: Connection?)
    ensures |first| == 0 && |second| == 1 && watching == second[0]
  {
    var a := Accept(Strict(), At(0));
    var b := Accept(Strict(), At(0));
    var o := Accept(Strict(), At(0));
    a.AddObserver(o);
    assert a.Observers == [o];
    a.AddObserver(o);
    assert a.Observers == [o] && b.Observers == [];
    b.AddObserver(o);
    first, second, watching := a.Observers, b.Observers, o;
  }

  /**
   * An observer that disconnected leaves the list but still points at the
   * connection; observing that connection again adds it and removes it at
   * once, so it stays off the list.
   */
  method StaleObserverStaysUnlisted() returns (listed: seq<Connection>, watching: bool)
    ensures listed == [] && watching
  {
    var a := Accept(Strict(), At(0));
    var o := Accept(Strict(), At(0));
    a.AddObserver(o);
    o.Disconnect(20, 5);
    assert a.Observers == [] && o.Observing == a;
    a.AddObserver(o);
    listed, watching := a.Observers, o.Observing == a;
  }

  /** A fresh connection `b` observed by a fresh connection `o`. */
  method Watched() returns (b: Connection, o: Connection)
    ensures fresh(b) && fresh(o) && b != o && b.Valid() && o.Valid()
    ensures b.Observable == Everything && b.Connected && b.sendList == [S.Connected] && b.Observers == [o]
    ensures o.Connected && o.sendList == [S.Connected] && o.Observing == b
  {
    b := Accept(Strict(), At(0));
    o := Accept(Strict(), At(0));
    b.AddObserver(o);
  }

  /** What an observed connection queues is queued for its observer as well. */
  method ObserverSeesPackets() returns (own: seq<S.Packet>, mirrored: seq<S.Packet>)
    ensures own == [S.Connected, S.KeepAlive(4)] && mirrored == [S.Connected, S.KeepAlive(4)]
  {
    var b, o := Watched();
    assert S.Keep([S.KeepAlive(4)], Everything) == [S.KeepAlive(4)] by {
      assert [S.KeepAlive(4)][..0] == [];
    }
    b.Enqueue(S.KeepAlive(4));
    assert b.Observers[0] == o;
    own, mirrored := b.sendList, o.sendList;
  }

  /** Binding key 3 to spell 8 takes it away from spell 5. */
  method KeyMovesToNewSpell() returns (magics: seq<UserMagic>)
    ensures magics == [UserMagic(5, 0), UserMagic(8, 3)]
  {
    var c := Accept(Strict(), At(0));
    // Stands for PlayerObject.StartGame, which moves the connection to stage Game outside this model.
    c.Stage := Game;
    c.Player := P.Some(Idle().(magics := [UserMagic(5, 3), UserMagic(8, 1)]));
    c.MagicKey(8, 3);
    magics := c.Player.value.magics;
  }
}
