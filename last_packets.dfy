/** The connection's diagnostic ring of the most recently dispatched packets. */
module LastPackets {

  /** The ring's capacity: new FixedSizedQueue<Packet>(10). */
  const Capacity: nat := 10

  /** The last `limit` elements of `s` (all of them when there are fewer), in order. */
  function Recent<T>(s: seq<T>, limit: nat): (r: seq<T>)
    ensures |r| == if |s| <= limit then |s| else limit
    ensures forall i :: 0 <= i < |r| ==> r[i] == s[|s| - |r| + i]
  {
    if |s| <= limit then s else s[|s| - limit..]
  }

  /**
   * FixedSizedQueue.Enqueue: append, then drop the oldest entries while over
   * the limit.
   */
  function Push<T>(ring: seq<T>, x: T, limit: nat): seq<T> {
    Recent(ring + [x], limit)
  }

  /**
   * Pushing packets one at a time keeps exactly the last `limit` packets of
   * the whole history.
   */
  lemma PushKeepsRecent<T>(history: seq<T>, x: T, limit: nat)
    ensures Push(Recent(history, limit), x, limit) == Recent(history + [x], limit)
  {
    var ring := Recent(history, limit);
    var lhs, rhs := Push(ring, x, limit), Recent(history + [x], limit);
    assert |lhs| == |rhs|;
    forall i | 0 <= i < |lhs| ensures lhs[i] == rhs[i] {
      if i == |lhs| - 1 {
        assert lhs[i] == (ring + [x])[|ring|] == x;
      } else {
        assert lhs[i] == (ring + [x])[|ring| + 1 - |lhs| + i];
      }
    }
  }

  /** PushKeepsRecent for a history that continues an earlier one. */
  lemma PushContinues<T>(start: seq<T>, history: seq<T>, x: T, limit: nat)
    ensures Push(Recent(start + history, limit), x, limit) == Recent(start + (history + [x]), limit)
  {
    PushKeepsRecent(start + history, x, limit);
    assert start + history + [x] == start + (history + [x]);
  }

  /** A ring that never exceeded its limit is its own recent history. */
  lemma RecentOfShort<T>(s: seq<T>, limit: nat)
    requires |s| <= limit
    ensures Recent(s, limit) == s
  {
  }
}
