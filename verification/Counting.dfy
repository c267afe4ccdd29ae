/** Sums over the goroutines, and counting those in some state. */
module Counting {

  /** The sum of the weights of all elements. */
  function Total<W>(ws: seq<W>, weight: W -> nat): nat {
    if ws == [] then 0 else Total(ws[..|ws| - 1], weight) + weight(ws[|ws| - 1])
  }

  lemma {:induction false} TotalUpdate<W>(ws: seq<W>, t: nat, w: W, weight: W -> nat)
    requires t < |ws|
    ensures Total(ws[t := w], weight) == Total(ws, weight) - weight(ws[t]) + weight(w)
  {
    var n := |ws| - 1;
    var after := ws[t := w];
    if t == n {
      assert after[..n] == ws[..n];
    } else {
      TotalUpdate(ws[..n], t, w, weight);
      assert after[..n] == ws[..n][t := w];
    }
  }

  lemma TotalAppend<W>(ws: seq<W>, w: W, weight: W -> nat)
    ensures Total(ws + [w], weight) == Total(ws, weight) + weight(w)
  {
    assert (ws + [w])[..|ws|] == ws;
  }

  function One(b: bool): nat { if b then 1 else 0 }

  function Indicator<W>(p: W -> bool): W -> nat {
    w => One(p(w))
  }

  function Count<W>(ws: seq<W>, p: W -> bool): nat {
    Total(ws, Indicator(p))
  }

  lemma CountUpdate<W>(ws: seq<W>, t: nat, w: W, p: W -> bool)
    requires t < |ws|
    ensures Count(ws[t := w], p) == Count(ws, p) - One(p(ws[t])) + One(p(w))
  {
    TotalUpdate(ws, t, w, Indicator(p));
  }

  lemma CountAppend<W>(ws: seq<W>, w: W, p: W -> bool)
    ensures Count(ws + [w], p) == Count(ws, p) + One(p(w))
  {
    TotalAppend(ws, w, Indicator(p));
  }

  /** A narrower condition counts no more. */
  lemma {:induction false} CountImplies<W(!new)>(ws: seq<W>, p: W -> bool, q: W -> bool)
    requires forall w :: p(w) ==> q(w)
    ensures Count(ws, p) <= Count(ws, q)
  {
    if ws != [] {
      CountImplies(ws[..|ws| - 1], p, q);
    }
  }

  lemma {:induction false} CountZero<W>(ws: seq<W>, p: W -> bool)
    requires forall t :: 0 <= t < |ws| ==> !p(ws[t])
    ensures Count(ws, p) == 0
  {
    if ws != [] {
      CountZero(ws[..|ws| - 1], p);
    }
  }
}
