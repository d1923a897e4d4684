/** The server-to-client packets the connection itself builds. */
module ServerPackets {

  import opened Primitives
  import opened MirDatabase

  datatype Packet =
    | Connected
    | ClientVersion(result: byte)
    | KeepAlive(time: int)
    | Disconnect(reason: byte)
    | DeleteCharacter(result: byte)
    | DeleteCharacterSuccess(characterIndex: int)
    | StartGame(result: byte)
    | StartGameBanned(banReason: string, expiryDate: int)
    | LogOutFailed
    | LogOutSuccess
    | ChangeAMode(aMode: int)
    | ChangePMode(pMode: int)
    | MailLockedItem(uniqueID: int, locked: bool)
    | MailCost
    | NewItemInfo(info: ItemInfo)

  /** The packets of `ps` that `keep` accepts, in order. */
  function Keep(ps: seq<Packet>, keep: Packet -> bool): seq<Packet> {
    if ps == [] then []
    else Keep(ps[..|ps| - 1], keep) + (if keep(ps[|ps| - 1]) then [ps[|ps| - 1]] else [])
  }

  /** Filtering keeps exactly the accepted packets and never lengthens. */
  lemma {:induction false} KeepSpec(ps: seq<Packet>, keep: Packet -> bool)
    ensures |Keep(ps, keep)| <= |ps|
    ensures forall q :: q in Keep(ps, keep) <==> q in ps && keep(q)
    decreases |ps|
  {
    if ps != [] {
      var init := ps[..|ps| - 1];
      KeepSpec(init, keep);
      assert ps == init + [ps[|ps| - 1]];
    }
  }

  /** Filtering distributes over concatenation. */
  lemma {:induction false} KeepAppend(a: seq<Packet>, b: seq<Packet>, keep: Packet -> bool)
    ensures Keep(a + b, keep) == Keep(a, keep) + Keep(b, keep)
    decreases |b|
  {
    if b == [] {
      assert a + b == a;
    } else {
      var b' := b[..|b| - 1];
      assert (a + b)[..|a + b| - 1] == a + b';
      KeepAppend(a, b', keep);
    }
  }
}
