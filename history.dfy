/**
 * The bounded per-symbol history both services keep: append the newest
 * entry, then drop the oldest once there are more than `CAPACITY`.
 */
module History {

  const CAPACITY: nat := 100

  /** The last `CAPACITY` entries of `xs` (all of them when there are fewer). */
  function Window<T>(xs: seq<T>): (r: seq<T>)
    ensures |r| == if |xs| <= CAPACITY then |xs| else CAPACITY
    ensures r == xs[|xs| - |r|..]
  {
    if |xs| <= CAPACITY then xs else xs[|xs| - CAPACITY..]
  }

  /** `push` (or `append`), then one `shift` (or `pop(0)`) when the list grew past the bound. */
  function Push<T>(h: seq<T>, x: T): (r: seq<T>)
    ensures |h| <= CAPACITY ==> r == Window(h + [x])
    ensures |r| >= 1 && r[|r| - 1] == x
  {
    var grown := h + [x];
    if |grown| > CAPACITY then grown[1..] else grown
  }

  /** The history after pushing `xs` in order, oldest first, onto `h`. */
  function Replay<T>(h: seq<T>, xs: seq<T>): seq<T>
  {
    if xs == [] then h else Push(Replay(h, xs[..|xs| - 1]), xs[|xs| - 1])
  }

  lemma WindowOfWindow<T>(a: seq<T>, x: T)
    ensures Window(Window(a) + [x]) == Window(a + [x])
  {
    if |a| >= CAPACITY {
      var w := Window(a);
      assert (w + [x])[1..] == a[|a| - CAPACITY + 1..] + [x];
      assert (a + [x])[|a| + 1 - CAPACITY..] == a[|a| - CAPACITY + 1..] + [x];
    }
  }

  /**
   * From any history within the bound, pushing `xs` leaves the last
   * `CAPACITY` entries of the old history followed by `xs`, in insertion order.
   */
  lemma {:induction false} ReplayKeepsWindow<T>(h: seq<T>, xs: seq<T>)
    requires |h| <= CAPACITY
    ensures Replay(h, xs) == Window(h + xs)
  {
    if xs == [] {
      assert h + xs == h;
    } else {
      var init, x := xs[..|xs| - 1], xs[|xs| - 1];
      assert xs == init + [x];
      ReplayKeepsWindow(h, init);
      var w := Window(h + init);
      assert Replay(h, xs) == Push(w, x);
      assert Push(w, x) == Window(w + [x]);
      WindowOfWindow(h + init, x);
      assert h + init + [x] == h + xs;
    }
  }

  /** After n pushes onto an empty history it holds the last min(n, CAPACITY) of them, in order. */
  lemma ReplayFromEmpty<T>(xs: seq<T>)
    ensures Replay([], xs) == Window(xs)
    ensures |Replay([], xs)| <= CAPACITY
  {
    ReplayKeepsWindow([], xs);
    assert [] + xs == xs;
  }
}
