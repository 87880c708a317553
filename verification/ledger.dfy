/** The winner ledger (st.session_state.winners): the committed winner
    records, the winner query (app.py:547-559) and the commit loop of
    round confirmation (app.py:414-426). */
module Ledger {
  import opened Common
  import opened Text

  /** A winner record: order number, platform and selection time. The
      same shape is used for the round's picks (final_winners tuples). */
  datatype Winner = Winner(order: string, platform: string, time: string)

  /** Python's any(w.order == o for w in ws). */
  predicate HasOrder(ws: seq<Winner>, o: string)
  {
    exists w :: w in ws && w.order == o
  }

  /** No order number occurs twice. */
  predicate DistinctOrders(ws: seq<Winner>)
  {
    forall i, j :: 0 <= i < j < |ws| ==> ws[i].order != ws[j].order
  }

  // ---------------------------------------------------------------------
  // Winner query (app.py:547-559)

  /** Index of the first record with the given order number. */
  function FirstWithOrder(ledger: seq<Winner>, o: string): (r: Option<nat>)
    ensures r.Some? ==> r.value < |ledger| && ledger[r.value].order == o
    ensures r.Some? ==> forall j :: 0 <= j < r.value ==> ledger[j].order != o
    ensures r.None? <==> !HasOrder(ledger, o)
  {
    if ledger == [] then None
    else if ledger[0].order == o then Some(0)
    else
      match FirstWithOrder(ledger[1..], o)
      case None =>
        assert forall w :: w in ledger ==> w == ledger[0] || w in ledger[1..];
        None
      case Some(i) => Some(i + 1)
  }

  /** The winner query: whitespace-only input is refused; otherwise the
      first record whose order number equals the stripped input. */
  function QueryWinner(ledger: seq<Winner>, input: string): (r: Lookup<Winner>)
    ensures r.BlankInput? <==> forall i :: 0 <= i < |input| ==> IsSpace(input[i])
    ensures r.NotFound? ==> !HasOrder(ledger, Trim(input))
    ensures r.Found? ==>
      exists i :: 0 <= i < |ledger| && ledger[i] == r.value && r.value.order == Trim(input)
        && forall j :: 0 <= j < i ==> ledger[j].order != Trim(input)
  {
    var o := Trim(input);
    if o == "" then BlankInput
    else
      match FirstWithOrder(ledger, o)
      case None => NotFound
      case Some(i) => Found(ledger[i])
  }

  // ---------------------------------------------------------------------
  // Commit (app.py:414-426)

  /** The ledger after committing the picks in order, each skipped when
      the ledger as grown so far already holds its order number. */
  function Committed(ledger: seq<Winner>, picks: seq<Winner>): (r: seq<Winner>)
    ensures |ledger| <= |r| <= |ledger| + |picks|
    ensures r[..|ledger|] == ledger
  {
    if picks == [] then ledger
    else
      var l := Committed(ledger, picks[..|picks| - 1]);
      var w := picks[|picks| - 1];
      if HasOrder(l, w.order) then l else l + [w]
  }

  lemma CommittedSnoc(ledger: seq<Winner>, picks: seq<Winner>, i: nat)
    requires i < |picks|
    ensures Committed(ledger, picks[..i + 1])
      == var l := Committed(ledger, picks[..i]);
         if HasOrder(l, picks[i].order) then l else l + [picks[i]]
  {
    assert picks[..i + 1][..i] == picks[..i];
  }

  /** The commit loop: appends each pick whose order number is not yet in
      the growing ledger, and reports whether anything was appended
      (new_winners_added). */
  method Commit(ledger: seq<Winner>, picks: seq<Winner>) returns (r: seq<Winner>, added: bool)
    ensures r == Committed(ledger, picks)
    ensures added <==> |r| > |ledger|
  {
    r, added := ledger, false;
    for i := 0 to |picks|
      invariant r == Committed(ledger, picks[..i])
      invariant added <==> |r| > |ledger|
    {
      CommittedSnoc(ledger, picks, i);
      if !HasOrder(r, picks[i].order) {
        r := r + [picks[i]];
        added := true;
      }
    }
    assert picks[..|picks|] == picks;
  }

  /** Appending a record whose order number is new keeps the order
      numbers distinct. */
  lemma AppendKeepsDistinct(ws: seq<Winner>, w: Winner)
    requires DistinctOrders(ws) && !HasOrder(ws, w.order)
    ensures DistinctOrders(ws + [w])
  {
    var r := ws + [w];
    forall i, j | 0 <= i < j < |r|
      ensures r[i].order != r[j].order
    {
      if j == |ws| {
        assert r[i] in ws;
      }
    }
  }

  /** A ledger without repeated order numbers keeps that property. */
  lemma {:induction false} CommitKeepsDistinct(ledger: seq<Winner>, picks: seq<Winner>)
    requires DistinctOrders(ledger)
    ensures DistinctOrders(Committed(ledger, picks))
  {
    if picks != [] {
      var init := picks[..|picks| - 1];
      CommitKeepsDistinct(ledger, init);
      var l := Committed(ledger, init);
      var w := picks[|picks| - 1];
      if !HasOrder(l, w.order) {
        AppendKeepsDistinct(l, w);
      }
    }
  }

  /** After the commit every pick's order number is in the ledger. */
  lemma {:induction false} CommitCovers(ledger: seq<Winner>, picks: seq<Winner>)
    ensures forall k :: 0 <= k < |picks| ==> HasOrder(Committed(ledger, picks), picks[k].order)
  {
    if picks != [] {
      var init := picks[..|picks| - 1];
      CommitCovers(ledger, init);
      var l := Committed(ledger, init);
      var r := Committed(ledger, picks);
      assert r == l || r == l + [picks[|picks| - 1]];
      forall k | 0 <= k < |picks|
        ensures HasOrder(r, picks[k].order)
      {
        if k < |picks| - 1 {
          assert init[k] == picks[k];
          var w :| w in l && w.order == picks[k].order;
          assert w in r;
        } else if !HasOrder(l, picks[k].order) {
          assert r[|l|] == picks[k];
        } else {
          var w :| w in l && w.order == picks[k].order;
          assert w in r;
        }
      }
    }
  }

  /** Committing picks whose order numbers are all present changes nothing. */
  lemma {:induction false} CommitNothingNew(ledger: seq<Winner>, picks: seq<Winner>)
    requires forall k :: 0 <= k < |picks| ==> HasOrder(ledger, picks[k].order)
    ensures Committed(ledger, picks) == ledger
  {
    if picks != [] {
      var init := picks[..|picks| - 1];
      assert forall k :: 0 <= k < |init| ==> init[k] == picks[k];
      CommitNothingNew(ledger, init);
    }
  }

  /** Committing the same round twice adds nothing the second time. */
  lemma CommitIdempotent(ledger: seq<Winner>, picks: seq<Winner>)
    ensures Committed(Committed(ledger, picks), picks) == Committed(ledger, picks)
  {
    CommitCovers(ledger, picks);
    CommitNothingNew(Committed(ledger, picks), picks);
  }

  /** The picks whose order number the ledger does not hold, in order. */
  function NewPicks(ledger: seq<Winner>, picks: seq<Winner>): seq<Winner>
  {
    if picks == [] then []
    else
      var init := NewPicks(ledger, picks[..|picks| - 1]);
      var w := picks[|picks| - 1];
      if HasOrder(ledger, w.order) then init else init + [w]
  }

  lemma {:induction false} NewPicksFrom(ledger: seq<Winner>, picks: seq<Winner>)
    ensures forall w :: w in NewPicks(ledger, picks) ==> w in picks
  {
    if picks != [] {
      NewPicksFrom(ledger, picks[..|picks| - 1]);
    }
  }

  /** For a round without repeated order numbers (the draw guarantees
      this), the commit appends exactly the picks the ledger does not yet
      hold, in round order, after the untouched old records. */
  lemma {:induction false} CommitAppendsNewPicks(ledger: seq<Winner>, picks: seq<Winner>)
    requires DistinctOrders(picks)
    ensures Committed(ledger, picks) == ledger + NewPicks(ledger, picks)
  {
    if picks != [] {
      var n := |picks|;
      var init := picks[..n - 1];
      var w := picks[n - 1];
      CommitAppendsNewPicks(ledger, init);
      NewPicksFrom(ledger, init);
      var added := NewPicks(ledger, init);
      var l := ledger + added;
      assert HasOrder(l, w.order) <==> HasOrder(ledger, w.order);
    }
  }
}
