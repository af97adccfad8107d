/**
 The price window behind the bands. library.c keeps it in a float array and
 advances it by appending the newest price (`>>`) and then deleting index 0.
 */
module RollingWindow {

  /** Append `x`, then drop the oldest element. */
  function Advance(w: seq<real>, x: real): (r: seq<real>)
    ensures |r| == |w|
    ensures |w| > 0 ==> r == w[1..] + [x] && r[|r| - 1] == x
  {
    (w + [x])[1..]
  }

  /** Advance once per price of `xs`, oldest first. */
  function AdvanceAll(w: seq<real>, xs: seq<real>): (r: seq<real>)
    ensures |r| == |w|
  {
    if |xs| == 0 then w else Advance(AdvanceAll(w, xs[..|xs| - 1]), xs[|xs| - 1])
  }

  /**
   After any run of advances the window holds exactly the last |w| prices of
   the old window followed by the new ones.
   */
  lemma {:induction false} AdvanceAllKeepsLatest(w: seq<real>, xs: seq<real>)
    ensures AdvanceAll(w, xs) == (w + xs)[|xs|..]
  {
    if |xs| > 0 {
      var init, x := xs[..|xs| - 1], xs[|xs| - 1];
      AdvanceAllKeepsLatest(w, init);
      assert w + xs == (w + init) + [x];
      assert ((w + init) + [x])[|xs|..] == ((w + init)[|init|..] + [x])[1..];
    }
  }

  /** Once at least |w| prices have gone in, none of the old window is left. */
  lemma WindowForgetsOldPrices(w: seq<real>, xs: seq<real>)
    requires |xs| >= |w|
    ensures AdvanceAll(w, xs) == xs[|xs| - |w|..]
  {
    AdvanceAllKeepsLatest(w, xs);
    assert (w + xs)[|xs|..] == xs[|xs| - |w|..];
  }

  /** Advancing twice with the same price leaves that price in the last two slots. */
  lemma DoubleAdvance(w: seq<real>, x: real)
    requires |w| >= 2
    ensures Advance(Advance(w, x), x) == w[2..] + [x, x]
  {
    assert Advance(w, x) == w[1..] + [x];
    assert (w[1..] + [x])[1..] == w[2..] + [x];
  }
}
