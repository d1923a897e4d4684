/**
 * The flood guard of the receive path: a counter of receive callbacks that is
 * reset when its five-second window has passed.
 */
module FloodGuard {

  /** The window length: Envir.Now.AddSeconds(5), in milliseconds. */
  const WindowLength: int := 5000

  /** `counter` receive callbacks so far in the window that ends at `resetAt`. */
  datatype Window = Window(counter: nat, resetAt: int)

  /** One receive callback at `now`: reset if the window has passed, then count. */
  function Tally(w: Window, now: int): Window {
    var current := if w.resetAt < now then Window(0, now + WindowLength) else w;
    current.(counter := current.counter + 1)
  }

  /** The window after callbacks at the given instants, oldest first. */
  function TallyAll(w: Window, times: seq<int>): Window
    decreases |times|
  {
    if times == [] then w
    else Tally(TallyAll(w, times[..|times| - 1]), times[|times| - 1])
  }

  /** Callbacks that all fall into one window are all counted in it. */
  predicate OneWindow(w: Window, times: seq<int>) {
    && |times| > 0
    && w.resetAt < times[0]
    && forall i :: 0 <= i < |times| ==> times[0] <= times[i] <= times[0] + WindowLength
  }

  /**
   * Callbacks that arrive after the previous window closed, and within five
   * seconds of the first of them, are counted one by one in a fresh window.
   */
  lemma {:induction false} CountsEveryCallback(w: Window, times: seq<int>)
    requires OneWindow(w, times)
    ensures TallyAll(w, times) == Window(|times|, times[0] + WindowLength)
    decreases |times|
  {
    if |times| > 1 {
      var prefix := times[..|times| - 1];
      assert OneWindow(w, prefix) by {
        forall i | 0 <= i < |prefix| ensures prefix[0] <= prefix[i] <= prefix[0] + WindowLength {
          assert prefix[i] == times[i];
        }
      }
      CountsEveryCallback(w, prefix);
    }
  }

  /**
   * Within one window the guard trips on exactly the callbacks after the
   * first `maxPacket`: the (maxPacket + 1)-th is the first that exceeds it.
   */
  lemma TripsAfterCeiling(w: Window, times: seq<int>, maxPacket: int, k: nat)
    requires OneWindow(w, times)
    requires 1 <= k <= |times|
    ensures TallyAll(w, times[..k]).counter > maxPacket <==> k > maxPacket
  {
    var prefix := times[..k];
    assert OneWindow(w, prefix) by {
      forall i | 0 <= i < |prefix| ensures prefix[0] <= prefix[i] <= prefix[0] + WindowLength {
        assert prefix[i] == times[i];
      }
    }
    CountsEveryCallback(w, prefix);
  }
}
