# MirConnection as a verified state machine

This project models `MirConnection`, the server-side object behind one Mir game client. It covers:

- the handshake;
- the stage-gated packet dispatcher and its handlers;
- the cooldown-gated retry of movement, combat and casting requests;
- the per-tick `Process` loop (drain the receive queue, requeue retries, time out, flush);
- the flood guard of the receive callback;
- the soft and hard teardowns;
- the observer relation, and the once-only `CheckItemInfo` announcements.

The connection is a Dafny class. `MirNetwork.Connection` has the source's fields:

- `Stage`, `Connected`, `disconnecting`, `TimeOutTime` and `TimeDisconnected`;
- the three queues as sequences;
- the last-packets ring (capacity 10);
- the flood counter and its reset instant;
- `Account`, `Player`, `Observers`, `Observing` and `SentItemInfo`.

The collaborators are the socket, the codec, `Envir`, `PlayerObject` and the log. Every call the connection makes into them is appended to the ghost `Trace`, in order: Player and Envir calls, IP blocks, direct sends, and the removal from `Envir.Connections`. A second ghost log, `Handled`, lists the packets dispatched so far.

The other modules hold the values these methods are specified against:

| Module | Contents |
|---|---|
| `Gating` | the stage each handler accepts, and the cooldown rules |
| `FloodGuard` | the five-second callback window |
| `LastPackets` | the fixed-size ring |
| `MagicKeys` | hot-key rebinding |
| `ItemInfoCache` | the `SentItemInfo` record |
| `ServerPackets` | the observable filter for forwarded packets |
| `Primitives` | `List.Remove` |

`Scenarios` runs short sessions on freshly accepted connections. Each ends in a concrete value fixed by the contracts it calls.

Two behaviours of the program are easy to misread, and the model follows the code in both:

- **Version mismatch.** A refused build does not stay in stage `None`. `ClientVersion` calls `SoftDisconnect(10)` (`MirConnection.cs:701`), and that sets the stage to `Disconnected` (`:601`).
- **Last-packets ring.** `Process` fills the ring as it dequeues each packet (`:250`). The receive callback never adds to it.

The dispatcher is split into seven handler groups (`Route`), so that each group's proof stays small. `Performed` states, group by group, what the handler of an admitted packet does. `Dispatched` states what every dispatch keeps.

The parts of a tick are stated against `Start`, a snapshot of the connection taken when the tick began. `TickedFrom` is the outcome of a tick on a live socket, and `Process` restates it in terms of the state before the call. The ghost field `DisconnectingWhenTaken` records, for each packet dequeued, whether the connection was already disconnecting at that moment.

## Model

| member | source | states |
|---|---|---|
| MirNetwork.Connection.constructor | Server/MirNetwork/MirConnection.cs:73-97 | A new connection is connected, in stage None, with only S.Connected queued, empty receive and retry queues, an empty ring, an armed receive, a timeout of TimeConnected + TimeOut, and one IP-block call in the trace |
| MirNetwork.Connection.SetDisconnecting | Server/MirNetwork/MirConnection.cs:39-48 | The flag takes the new value; TimeOutTime moves to time + 500 exactly when the value changes, and otherwise stays |
| MirNetwork.Connection.Deliver | Server/MirNetwork/MirConnection.cs:229-230 | The packet is appended to this connection's send queue exactly when the queue exists (the connection is connected) |
| MirNetwork.Connection.Enqueue | Server/MirNetwork/MirConnection.cs:226-235 | The packet is queued here when connected, and on every connected observer exactly when it is observable; no observer list changes length |
| MirNetwork.Connection.BeginSend | Server/MirNetwork/MirConnection.cs:201-215 | A direct send is recorded exactly when the connection is up and the data is non-empty |
| MirNetwork.Connection.ReleaseSession | Server/MirNetwork/MirConnection.cs:604-611 | The bound player's StopGame(reason) is recorded if there is a player; the account's back-pointer is cleared only if it pointed to this connection |
| MirNetwork.Connection.SoftDisconnect | Server/MirNetwork/MirConnection.cs:599-614 | Stage becomes Disconnected at the given time and Account null; the player is stopped; the account is released only if bound here; Connected and the queues are untouched |
| MirNetwork.Connection.Unlink | Server/MirNetwork/MirConnection.cs:636 | The observer list loses the first occurrence of the connection and keeps its order otherwise |
| MirNetwork.Connection.Disconnect | Server/MirNetwork/MirConnection.cs:615-647 | On a torn-down connection nothing changes, here, on its account or on the observed connection. Otherwise Connected becomes false, the stage Disconnected, the connection is unregistered once and then the player stopped, the account is released and cleared, the queues are emptied, and the observed connection's list loses this connection |
| MirNetwork.Connection.Teardown | Server/MirNetwork/MirConnection.cs:619-647 | The live-connection half of Disconnect, with the same post-state |
| MirNetwork.Connection.Detach | Server/MirNetwork/MirConnection.cs:635-642 | The observed connection's list loses this connection; Account is null and all three queues are empty, and the invariant holds |
| MirNetwork.Connection.SendDisconnect | Server/MirNetwork/MirConnection.cs:648-665 | Disconnecting is set (with the setter's timeout rule); S.Disconnect(reason) is sent directly only while connected, before the player is stopped; then the soft teardown's post-state |
| MirNetwork.RouteOf | Server/MirNetwork/MirConnection.cs:285-597 | The player, game and setting groups are exactly the handlers whose gate accepts only stage Game |
| MirNetwork.Connection.ProcessPacket | Server/MirNetwork/MirConnection.cs:281-597 | While disconnecting, or when the handler's stage check fails (an oversize Chat excepted), nothing changes here, on the account or on the observed connection. An oversize Chat sends Disconnect(2) and soft-disconnects in any stage. Every other packet has the outcome its handler's row states: Disconnect tears down with reason 22, releases the account and leaves the observed connection's list; KeepAlive and MailLockedItem queue their echo; each forwarding handler makes exactly its one Envir or Player call. In every case Observers and Observing stay, the account is only released and the trace only grows; the send queue only grows and the receive queue stays unless a Disconnect tore the connection down, which empties them; the retry queue grows by the packet exactly when a timed action must wait; Disconnecting is only set, and setting it moves the deadline to Time + 500; the stage moves only from None to Login, from Game to Select, or to Disconnected |
| MirNetwork.Connection.Refuse | Server/MirNetwork/MirConnection.cs:873-881 | A packet is dropped with no effect while disconnecting or when its stage check fails; an oversize Chat instead sends Disconnect(2) and soft-disconnects |
| MirNetwork.Connection.Dispatch | Server/MirNetwork/MirConnection.cs:285-597 | An admitted packet runs the handler of its group, with the outcome that group's row states, and the dispatch keeps what ProcessPacket's row says every dispatch keeps |
| MirNetwork.Connection.OtherPacket | Server/MirNetwork/MirConnection.cs:293-597 | Every group but the session one has the outcome its row states, and leaves the observed connection alone |
| MirNetwork.Connection.SessionPacket | Server/MirNetwork/MirConnection.cs:287-292 | ClientVersion has the handshake outcome of ClientVersion's row. Disconnect tears down with reason 22: Connected false, stage Disconnected at Envir.Time, unregistered and then the player stopped, the queues emptied, the account released, and this connection gone from the observed connection's list. An unknown packet (`:593-595`) changes nothing but the log |
| MirNetwork.Connection.EchoPacket | Server/MirNetwork/MirConnection.cs:712-718 | KeepAlive queues KeepAlive with the client's time, and MailLockedItem (`:557-559`) queues MailLockedItem with the same id and flag, here and on the observers, with no other effect |
| MirNetwork.Connection.AccountPacket | Server/MirNetwork/MirConnection.cs:719-745 | NewAccount, ChangePassword, Login, Observe and GetRanking each make exactly their one Envir call. NewCharacter makes CreateCharacter with the account's admin flag when an account is bound, and nothing otherwise. None of them queues a packet or changes the stage or the player |
| MirNetwork.Connection.SelectPacket | Server/MirNetwork/MirConnection.cs:308-313 | DeleteCharacter and StartGame have the outcomes their own rows state |
| MirNetwork.Connection.PlayerPacket | Server/MirNetwork/MirConnection.cs:873-1012 | A timed action goes to the retry queue or makes its one Perform call, as Admit decides. Chat, a gated request, a UseItem on the inventory grid and a SpellToggle other than None make exactly one Player call. BuyItemBack and ReportIssue make none. The retry queue changes only for a timed action |
| MirNetwork.Connection.GamePacket | Server/MirNetwork/MirConnection.cs:836-852 | LogOut, MagicKey and CallNPC have the outcomes their own rows state |
| MirNetwork.Connection.SettingPacket | Server/MirNetwork/MirConnection.cs:1019-1040 | ChangeAMode and ChangePMode store the new mode on the player and queue its echo. ChangeTrade stores the flag and queues nothing. MailCost (`:1461-1468`) makes the cost quote and queues MailCost. None calls Envir or changes anything else of the player |
| MirNetwork.Connection.ClientVersion | Server/MirNetwork/MirConnection.cs:675-711 | With checking off, or a hash equal to a configured one, ClientVersion(1) is queued and the stage becomes Login with no other effect. Otherwise ClientVersion(0) is sent directly, Disconnecting is set, and the connection is soft-disconnected with reason 10, so the stage becomes Disconnected and never Login |
| MirNetwork.MatchesAny | Server/MirNetwork/MirConnection.cs:681-690 | The scan over the configured hashes finds a match exactly when the hash is one of them |
| MirNetwork.FirstIndex | Server/MirNetwork/MirConnection.cs:760-766 | The result is -1 exactly when no character has the index; otherwise it is the position of the first character with it |
| MirNetwork.FindCharacter | Server/MirNetwork/MirConnection.cs:798-804 | The handlers' search loop returns FirstIndex |
| MirNetwork.Connection.DeleteCharacter | Server/MirNetwork/MirConnection.cs:747-778 | With deleting disabled it queues Result 0; with no character of that index it queues Result 1 and changes nothing; otherwise exactly the first such character is marked deleted at Envir.Now, its rank is removed, and DeleteCharacterSuccess is queued |
| MirNetwork.StartGameRefusal | Server/MirNetwork/MirConnection.cs:783-809 | Result 0 exactly when starting is disabled and there is no account or it is not an admin; Result 1 when allowed but without an account; Result 2 when the account has no such character; no refusal otherwise |
| MirNetwork.Connection.StartGame | Server/MirNetwork/MirConnection.cs:779-834 | A refusal queues StartGame(code) and changes nothing else. An active ban queues StartGameBanned with the character's reason and expiry. Otherwise the ban is cleared and its reason and expiry reset, and a player is spawned for the character and started |
| MirNetwork.Connection.EnterGame | Server/MirNetwork/MirConnection.cs:810-834 | For the found character: an active ban queues StartGameBanned and changes nothing else; otherwise exactly that character's ban is cleared, the player is spawned from the cleared record, and BeginGame is called |
| MirNetwork.Connection.LogOut | Server/MirNetwork/MirConnection.cs:836-852 | Before the player's LogTime it queues LogOutFailed and changes nothing else. Otherwise it stops the game with reason 23, returns to Select without a player, and queues LogOutSuccess when an account is bound |
| Gating.GateOf | Server/MirNetwork/MirConnection.cs:285-597 | ClientVersion needs None. Login, NewAccount and ChangePassword need Login. NewCharacter, DeleteCharacter and StartGame need Select. Observe and GetRanking accept Game or Observer. Disconnect, KeepAlive, MailLockedItem and unknown packets run in any stage. Every other handler needs Game |
| Gating.Admit | Server/MirNetwork/MirConnection.cs:854-1155 | A dead player's Magic is dropped. For a living player, an action runs exactly when all its cooldowns (ActionTime, plus AttackTime or SpellTime) have passed, and waits otherwise. A dead player's Attack, RangeAttack and Harvest never wait |
| Gating.ReadyAt | Server/MirNetwork/MirConnection.cs:1041-1049 | An action is ready at a tick exactly when the tick is at least the latest of its cooldowns |
| Gating.RetriedRunsOnReadyTick | Server/MirNetwork/MirConnection.cs:259-260 | A deferred action, retried with unchanged timers, runs on a later tick exactly when that tick has reached ReadyAt, and it arrived strictly before that tick |
| MirNetwork.Connection.TimedAction | Server/MirNetwork/MirConnection.cs:854-871 | The action is appended to the retry queue exactly when Admit says wait, and exactly one Perform call is recorded exactly when Admit says run |
| MagicKeys.Rebind | Server/MirNetwork/MirConnection.cs:1130-1141 | Same length and spells; every entry of the chosen spell takes the key; every other entry that held the key gets 0; all other keys stay |
| MagicKeys.KeyOwnedBySpell | Server/MirNetwork/MirConnection.cs:1130-1141 | After a rebind with a non-zero key, an entry holds that key exactly when it is of the chosen spell |
| MagicKeys.RebindIdempotent | Server/MirNetwork/MirConnection.cs:1130-1141 | Binding the same key to the same spell twice is the same as once |
| MirNetwork.Connection.MagicKey | Server/MirNetwork/MirConnection.cs:1124-1142 | The in-place loop leaves the player's spell list equal to Rebind of the old list, and nothing else of the player changes |
| MirNetwork.Connection.CallNPC | Server/MirNetwork/MirConnection.cs:1069-1092 | A key longer than 30 sends Disconnect(2) and soft-disconnects. Otherwise exactly one Player call: the default NPC when both the object and the player's NPC are the default one, else the client NPC for uint.MaxValue, else the named NPC; nothing else changes |
| FloodGuard.CountsEveryCallback | Server/MirNetwork/MirConnection.cs:146-152 | Callbacks that arrive after the window closed and within five seconds of the first are each counted once: the counter equals their number, and the window ends five seconds after the first |
| FloodGuard.TripsAfterCeiling | Server/MirNetwork/MirConnection.cs:178 | Within one window, the k-th callback exceeds MaxPacket exactly when k > MaxPacket |
| MirNetwork.Connection.CountCallback | Server/MirNetwork/MirConnection.cs:146-152 | The counter and its reset instant move by one FloodGuard.Tally step |
| MirNetwork.Connection.ReceiveData | Server/MirNetwork/MirConnection.cs:124-200 | A torn-down connection ignores the callback. A failed or empty read sets Disconnecting and does not re-arm. A read with bytes behaves as ReceiveBytes |
| MirNetwork.Connection.ReceiveBytes | Server/MirNetwork/MirConnection.cs:146-199 | The callback is counted once, whatever number of packets it decoded. The decoded packets are queued in order. A decoding error, or else a count above MaxPacket, records a 24-hour IP block, sets Disconnecting and does not re-arm; only the count path empties the ring. A clean read re-arms with no other effect |
| LastPackets.Recent | Server/MirNetwork/MirConnection.cs:88 | The ring holds the last min(n, 10) packets, in order |
| LastPackets.PushKeepsRecent | Server/MirNetwork/MirConnection.cs:250 | Pushing each dequeued packet into the ring keeps exactly the last 10 of the whole dispatch history |
| MirNetwork.Connection.Process | Server/MirNetwork/MirConnection.cs:237-280 | A dead socket gives Disconnect(20), with nothing dispatched: unregistered, the player stopped with reason 20, the queues emptied, the account and its back-pointer released, and this connection gone from the observed connection's list. Otherwise a prefix of the receive queue is dispatched in FIFO order, and every packet dispatched was dequeued while the connection was not disconnecting (none at all when it already was). The dispatch stops only when the queue is empty, the connection is disconnecting, or a Disconnect packet tore it down. The ring holds the last 10 dispatched, and the trace only grows. The deadline stays when nothing is dispatched; it is Time + TimeOut after the last dispatch, or Time + 500 when that dispatch set Disconnecting. The retries go to the back of the receive queue. A time past the deadline gives Disconnect(21): the trace ends with the unregister and the player stopped with reason 21, the queues are emptied, the account is released, and the observed connection's list loses this connection. Otherwise the send queue is flushed in one send if it is non-empty, and nothing is sent if it is empty |
| MirNetwork.Connection.Tick | Server/MirNetwork/MirConnection.cs:245-280 | Process on a live socket, with the same outcomes, stated by TickedFrom against the state the tick began in |
| MirNetwork.Connection.AfterDrain | Server/MirNetwork/MirConnection.cs:259-280 | Once the first loop has run to its end, the rest of the tick has the outcomes TickedFrom states |
| MirNetwork.Connection.Conclude | Server/MirNetwork/MirConnection.cs:259-280 | With the retries and the deadline fixed by the first loop, the timeout check and the flush have the outcomes TickedFrom states |
| MirNetwork.Connection.TimedOutTick | Server/MirNetwork/MirConnection.cs:262-266 | A tick that passed its deadline ends with the reason-21 teardown after the dispatches |
| MirNetwork.Connection.FinishedTick | Server/MirNetwork/MirConnection.cs:268-280 | A tick within its deadline keeps the connection, with the receive queue holding the rest followed by the retries, and sends the whole send queue once when it is not empty |
| MirNetwork.Connection.DrainReceive | Server/MirNetwork/MirConnection.cs:245-257 | The packets dispatched are a prefix of the receive queue, logged in order and entered into the ring, and each was dequeued while the connection was not disconnecting. None is dispatched when the connection was already disconnecting; a dispatch that set Disconnecting moves the deadline to Time + 500. A teardown happens only by a final Disconnect packet. Otherwise the rest of the queue remains, the observed connection's list is untouched, and the queue is empty unless the connection is disconnecting |
| MirNetwork.Connection.DrainStep | Server/MirNetwork/MirConnection.cs:245-257 | One more turn of the loop keeps DrainReceive's facts, measured from the state the loop started in |
| MirNetwork.Connection.DrainOne | Server/MirNetwork/MirConnection.cs:247-253 | On a connection not yet disconnecting, the head of the receive queue is removed, recorded as dequeued while not disconnecting, pushed into the ring and dispatched, with the timeout refreshed; a dispatch that set Disconnecting leaves the deadline at Time + 500 |
| MirNetwork.Connection.Take | Server/MirNetwork/MirConnection.cs:247-252 | The head of the receive queue is removed, pushed into the ring and logged together with whether the connection was disconnecting, and the deadline becomes Time + TimeOut |
| MirNetwork.Connection.Requeue | Server/MirNetwork/MirConnection.cs:259-260 | The receive queue becomes itself followed by the retry queue, in order, and the retry queue empties |
| MirNetwork.Connection.FinishTick | Server/MirNetwork/MirConnection.cs:259-280 | After requeueing, a time past TimeOutTime gives Disconnect(21): unregistered and the player stopped with reason 21 at Envir.Time, the queues emptied, the account and its back-pointer released, and this connection gone from the observed connection's list. Otherwise the connection and the account stay, the send queue is flushed in one send when non-empty, and nothing is sent when it is empty |
| MirNetwork.Connection.Flush | Server/MirNetwork/MirConnection.cs:268-279 | The whole send queue, in order, goes out in one direct send and the queue empties |
| MirNetwork.Connection.AddObserver | Server/MirNetwork/MirConnection.cs:99-108 | It observes this connection in stage Observer afterwards. A new observer, or one already listed here, ends up listed exactly once, at the back, with every other entry kept in order; the connection it observed before no longer lists it. An observer that still points here but is no longer listed (as Disconnect leaves it, `:635-636`) is added and at once removed again by the source's Add-then-Remove, so it stays unlisted and the list is unchanged |
| MirNetwork.Connection.Watch | Server/MirNetwork/MirConnection.cs:105-107 | The observer now watches the given connection, in stage Observer |
| MirNetwork.Connection.Rejoin | Server/MirNetwork/MirConnection.cs:101-104 | For a connection that already points here: a listed one moves to the back, listed once; an unlisted one leaves the list unchanged |
| MirNetwork.Connection.Join | Server/MirNetwork/MirConnection.cs:101-104 | A new observer is appended once and removed from its previous observed connection's list |
| Primitives.RemoveFirst | Server/MirNetwork/MirConnection.cs:104 | Removing an absent element leaves the list unchanged |
| Primitives.RemoveFirstCounts | Server/MirNetwork/MirConnection.cs:104 | List.Remove takes exactly one occurrence away as a multiset |
| Primitives.RemoveFirstDistinct | Server/MirNetwork/MirConnection.cs:636 | Removing from a duplicate-free list leaves it duplicate-free and without the element |
| Primitives.MoveToBack | Server/MirNetwork/MirConnection.cs:101-104 | Add then Remove on a duplicate-free list lists the element exactly once, at the back, and adds no other element |
| ServerPackets.KeepSpec | Server/MirNetwork/MirConnection.cs:232-234 | The forwarded packets are exactly the observable ones, never more than were queued |
| ServerPackets.KeepAppend | Server/MirNetwork/MirConnection.cs:232-234 | Forwarding two batches forwards their concatenation |
| ItemInfoCache.VariantsSpec | Server/MirNetwork/MirConnection.cs:1543-1547 | The variants are exactly the listed items, other than the item itself, whose names start with its name |
| ItemInfoCache.Remember | Server/MirNetwork/MirConnection.cs:1550-1552 | The record only grows |
| ItemInfoCache.RememberSpec | Server/MirNetwork/MirConnection.cs:1550-1552 | Afterwards the record holds exactly what it held plus every definition considered, appends only definitions not sent before, and stays duplicate-free when it was |
| ItemInfoCache.AnnounceAppend | Server/MirNetwork/MirConnection.cs:1551 | Announcing two batches announces their concatenation |
| MirNetwork.Connection.CheckItemInfo | Server/MirNetwork/MirConnection.cs:1539-1553 | The record becomes Remember over the variants (for a class- or level-based item, unless dontLoop) and then the item. Exactly the newly recorded definitions are announced, in order, here and on the observers |
| MirNetwork.Connection.CheckVariants | Server/MirNetwork/MirConnection.cs:1541-1548 | The loop records the variants in list order; what has been announced is exactly the new part of the record |
| MirNetwork.Connection.CheckVariant | Server/MirNetwork/MirConnection.cs:1545-1546 | One turn of that loop extends the record by the next item exactly when it is a variant |
| MirNetwork.Connection.SendOnce | Server/MirNetwork/MirConnection.cs:1550-1552 | A definition already sent is skipped with no packet; otherwise it is announced and recorded |
| Scenarios.Accept | Server/MirNetwork/MirConnection.cs:73-97 | A freshly accepted connection is in stage None with only S.Connected queued and an armed receive |
| Scenarios.KnownBuildLogsIn | Server/MirNetwork/MirConnection.cs:679-710 | A known build reaches Login with [Connected, ClientVersion(1)] queued |
| Scenarios.UnknownBuildIsTurnedAway | Server/MirNetwork/MirConnection.cs:692-703 | An unknown build ends in stage Disconnected and disconnecting, still connected |
| Scenarios.EleventhCallbackTrips | Server/MirNetwork/MirConnection.cs:146-196 | With MaxPacket 10, ten callbacks in one window keep the receive armed; the eleventh counts 11, sets Disconnecting and does not re-arm |
| Scenarios.EarlyWalkWaits | Server/MirNetwork/MirConnection.cs:863-871 | A Walk before ActionTime goes to the retry list and a Walk at ActionTime does not |
| Scenarios.SecondDisconnectIsIgnored | Server/MirNetwork/MirConnection.cs:615-621 | A second Disconnect keeps the first one's time, stage and empty queues |
| Scenarios.ObserverMovesOn | Server/MirNetwork/MirConnection.cs:99-108 | Observing a second connection takes the observer off the first one's list |
| Scenarios.StaleObserverStaysUnlisted | Server/MirNetwork/MirConnection.cs:99-108 | An observer that disconnected and then observes the same connection again ends up pointing at it but not listed by it |
| Scenarios.Watched | Server/MirNetwork/MirConnection.cs:99-108 | After AddObserver on two fresh connections, the observed one lists exactly the observer |
| Scenarios.ObserverSeesPackets | Server/MirNetwork/MirConnection.cs:226-235 | A KeepAlive queued on an observed connection also appears on its observer |
| Scenarios.KeyMovesToNewSpell | Server/MirNetwork/MirConnection.cs:1130-1141 | Binding key 3 to spell 8 takes the key from spell 5 |

## Left out

- Socket I/O and the asynchronous callbacks are not modelled: `BeginReceive`, `EndReceive`, `SendData` and the disposal of `TcpClient`. A receive is a `Read` value, and a socket send is a `Send` entry in the trace. Whether the socket is still up is a parameter of `Process`.
- The exception paths of `BeginReceive` and `BeginSend` (`:118-121`, `:211-214`) are not modelled: the socket layer outside this model is what throws.
- The `ConcurrentQueue` thread safety and the interleaving of the I/O thread with the tick thread are left out. The queues are plain sequences, and each method runs alone.
- The codec (`Packet.ReceivePacket`, `GetPacketBytes`) is not part of this model. A read supplies the packets it decoded and a flag saying whether decoding then failed. A flush sends server packets, not bytes.
- `Packet.Observable` is not part of this model. It is a function fixed when the connection is built.
- `Functions.CompareBytes` is modelled as equality of byte sequences, and `string.StartsWith` as the sequence prefix test.
- Effects inside the collaborators are not modelled: calls into `Envir`, `PlayerObject`, `AccountInfo.GetSelectInfo` and `MessageQueue`. Player/Envir calls are trace entries, and log lines are dropped.
  - The gated requests that only forward to the player (MoveItem through NPCConfirmInput) become one `Run` call each.
  - The move to stage Game happens inside `PlayerObject.StartGame` and is not modelled.
- A null `Account`, which the source dereferences in NewCharacter, DeleteCharacter and LogOut, is modelled as the handler stopping at that point. The source throws a NullReferenceException there instead.
- `_dataCounter` is a 32-bit counter in the source. The model counts without bound, because the wrap needs 2^31 callbacks within five seconds.
- The TimeSpan and DateTime fields are plain integers: Envir.Time and Envir.Now are integer milliseconds, and DateTime.MinValue is 0.
- `CleanObservers` (`:666-673`) is an empty loop and is left out. `CheckItem` is left out too: it is `CheckItemInfo(item.Info)`.
- The loop that formats `_lastPackets` into the flood log line is left out. The model keeps only its effect of emptying the ring.
- `FixedSizedQueue` is not part of this model. Its Enqueue is taken to append and then drop the oldest entries beyond its limit.
- `UserMagic` entries are values. The handler's in-place update of shared `UserMagic` objects is modelled as a rewrite of the player's list.
- MirNetwork.Connection.Enqueue: forwards to the direct observers only. The source's `c.Enqueue(p)` would also forward to an observer's own observers, and the model requires no such second level.
- MirNetwork.Connection.Process: the retry items it moves are described by membership (every item requeued was in the retry queue or dispatched this tick), not as an exact sequence. The exact move is stated by Requeue.
- MirNetwork.Connection.Process: the effects of the dispatches within a tick are stated only as growth of the trace; each packet's own effect is stated by ProcessPacket. After a Disconnect packet tears the connection down mid-tick, nothing more about the trace is stated.
- MirNetwork.Connection.Process: on a timeout the account back-pointer release is stated by FinishTick for the account bound after the dispatches, not lifted to the account bound when the tick began.
- MirNetwork.Connection.Tick: the same three gaps as Process, through TickedFrom and RequeuedFrom. The retries are stated by membership, the dispatches' effects only as growth of the trace, and the timeout's back-pointer release only by FinishTick.
- MirNetwork.Connection.AddObserver: a connection cannot observe itself (`c != this`), although AddObserver at `:99-108` does not refuse it. The connection would then list itself, and its next observable Enqueue (`:226-235`) would forward to itself without end. The model's invariant rules out a connection that lists itself, so this case is not modelled. Who calls AddObserver (`Envir.Observe`) is not part of this model.
- MirNetwork.Connection.AddObserver: an observer listed here must observe this connection (`c in Observers ==> c.Observing == this`). AddObserver (`:105`) is the only place that sets `Observing`, and it first removes the observer from the list of the connection it observed before, so every state it builds has this property. The state that does occur, an observer pointing here but no longer listed (left by Disconnect), is modelled.
