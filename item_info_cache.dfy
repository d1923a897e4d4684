/** The record of item definitions already sent to the client (SentItemInfo). */
module ItemInfoCache {

  import opened Primitives
  import opened MirDatabase
  import S = ServerPackets

  /** Item `x` shares its name prefix with `info`: one of the variants sent along with it. */
  predicate Variant(x: ItemInfo, info: ItemInfo) {
    x != info && info.name <= x.name
  }

  /** The variants of `info` in Envir.ItemInfoList, in list order. */
  function Variants(info: ItemInfo, items: seq<ItemInfo>): seq<ItemInfo> {
    if items == [] then []
    else
      var last := items[|items| - 1];
      Variants(info, items[..|items| - 1]) + (if Variant(last, info) then [last] else [])
  }

  /** Considering one more definition extends the variants by it, if it is one. */
  lemma VariantsStep(info: ItemInfo, items: seq<ItemInfo>, i: nat)
    requires i < |items|
    ensures Variants(info, items[..i + 1]) == Variants(info, items[..i]) + (if Variant(items[i], info) then [items[i]] else [])
  {
    assert items[..i + 1][..i] == items[..i];
  }

  /** The variants are exactly the listed items that are variants of `info`. */
  lemma {:induction false} VariantsSpec(info: ItemInfo, items: seq<ItemInfo>)
    ensures forall x :: x in Variants(info, items) <==> x in items && Variant(x, info)
    decreases |items|
  {
    if items != [] {
      var init := items[..|items| - 1];
      VariantsSpec(info, init);
      assert items == init + [items[|items| - 1]];
    }
  }

  /** The definitions CheckItemInfo considers, in the order it considers them. */
  function Requested(info: ItemInfo, dontLoop: bool, items: seq<ItemInfo>): seq<ItemInfo> {
    (if !dontLoop && (info.classBased || info.levelBased) then Variants(info, items) else []) + [info]
  }

  /** The record after one definition is considered: added if it was not there. */
  function Note(sent: seq<ItemInfo>, x: ItemInfo): seq<ItemInfo> {
    if x in sent then sent else sent + [x]
  }

  /** The record after the definitions `xs` are considered in order. */
  function Remember(sent: seq<ItemInfo>, xs: seq<ItemInfo>): (r: seq<ItemInfo>)
    ensures sent <= r
  {
    if xs == [] then sent else Note(Remember(sent, xs[..|xs| - 1]), xs[|xs| - 1])
  }

  /**
   * What was there stays first, each definition is in the record afterwards,
   * each is recorded once, and only definitions not sent before are added.
   */
  lemma {:induction false} RememberSpec(sent: seq<ItemInfo>, xs: seq<ItemInfo>)
    ensures forall x :: x in Remember(sent, xs) <==> x in sent || x in xs
    ensures NoDuplicates(sent) ==> NoDuplicates(Remember(sent, xs))
    ensures forall i :: |sent| <= i < |Remember(sent, xs)| ==> Remember(sent, xs)[i] !in sent
    decreases |xs|
  {
    if xs != [] {
      var init := xs[..|xs| - 1];
      RememberSpec(sent, init);
      assert xs == init + [xs[|xs| - 1]];
    }
  }

  /** Considering one more definition records it after the earlier ones. */
  lemma RememberStep(sent: seq<ItemInfo>, xs: seq<ItemInfo>, x: ItemInfo)
    ensures Remember(sent, xs + [x]) == Note(Remember(sent, xs), x)
  {
    assert (xs + [x])[..|xs|] == xs;
  }

  /** The NewItemInfo packets that announce `xs`, in order. */
  function Announce(xs: seq<ItemInfo>): seq<S.Packet> {
    seq(|xs|, i requires 0 <= i < |xs| => S.NewItemInfo(xs[i]))
  }

  /** Announcing two batches announces their concatenation. */
  lemma AnnounceAppend(a: seq<ItemInfo>, b: seq<ItemInfo>)
    ensures Announce(a + b) == Announce(a) + Announce(b)
  {
    assert |Announce(a + b)| == |Announce(a) + Announce(b)|;
    forall i | 0 <= i < |a + b| ensures Announce(a + b)[i] == (Announce(a) + Announce(b))[i] {
      if i >= |a| {
        assert (a + b)[i] == b[i - |a|];
      }
    }
  }
}
