// Counting over a group of workers.
module Tallies {
  function Tally<W>(ws: seq<W>, f: W -> nat): nat
  {
    if ws == [] then 0 else Tally(ws[..|ws| - 1], f) + f(ws[|ws| - 1])
  }

  lemma {:induction false} TallyUpdate<W>(ws: seq<W>, i: nat, w: W, f: W -> nat)
    requires i < |ws|
    ensures Tally(ws[i := w], f) + f(ws[i]) == Tally(ws, f) + f(w)
  {
    var n := |ws| - 1;
    if i < n {
      TallyUpdate(ws[..n], i, w, f);
      assert ws[i := w][..n] == ws[..n][i := w];
    } else {
      assert ws[i := w][..n] == ws[..n];
    }
  }

  lemma {:induction false} TallyZero<W>(ws: seq<W>, f: W -> nat)
    ensures Tally(ws, f) == 0 <==> forall i :: 0 <= i < |ws| ==> f(ws[i]) == 0
  {
    if ws != [] {
      TallyZero(ws[..|ws| - 1], f);
    }
  }
}
