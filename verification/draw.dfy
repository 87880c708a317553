/** The draw page's derived values (app.py:258-320, app.py:361-367): the
    ticked platforms, the number of orders they hold, the eligible
    candidates of the round and the guard of the start button. */
module Draw {
  import opened Common
  import opened Text
  import opened OrderPool
  import opened Ledger

  /** current_rolling_order and the entries of eligible_orders: an order
      number and the platform it was found under. */
  datatype Candidate = Candidate(order: string, platform: string)

  /** selected_platforms (app.py:258-268): the pool's platforms whose
      checkbox is ticked, in key order. */
  function Selected(platforms: seq<string>, checked: set<string>): (r: seq<string>)
    ensures forall p :: p in r <==> p in platforms && p in checked
    ensures |r| <= |platforms|
    ensures NoDuplicates(platforms) ==> NoDuplicates(r)
  {
    if platforms == [] then []
    else
      var init := platforms[..|platforms| - 1];
      var p := platforms[|platforms| - 1];
      var r := Selected(init, checked);
      if p in checked then r + [p] else r
  }

  /** The selection keeps the pool's key order: it is a subsequence of
      the keys. */
  lemma {:induction false} SelectedInOrder(platforms: seq<string>, checked: set<string>)
    ensures Subseq(Selected(platforms, checked), platforms)
  {
    if platforms != [] {
      var init := platforms[..|platforms| - 1];
      var p := platforms[|platforms| - 1];
      var r := Selected(init, checked);
      SelectedInOrder(init, checked);
      if p in checked {
        assert (r + [p])[..|r|] == r;
      }
    }
  }

  /** Every checkbox starts ticked, and with all of them ticked the
      selection is the whole pool in key order. */
  lemma {:induction false} SelectedAll(platforms: seq<string>, checked: set<string>)
    requires forall p :: p in platforms ==> p in checked
    ensures Selected(platforms, checked) == platforms
  {
    if platforms != [] {
      var init := platforms[..|platforms| - 1];
      SelectedAll(init, checked);
      assert platforms == init + [platforms[|platforms| - 1]];
    }
  }

  /** total_orders_in_selected_platforms (app.py:289-291): the orders of
      the ticked platforms, already drawn ones included. */
  function TotalSelected(pool: Pool, checked: set<string>): (r: nat)
    requires pool.Valid()
    ensures r <= TotalOrders(pool)
    ensures (forall p :: p in pool.platforms ==> p in checked) ==> r == TotalOrders(pool)
  {
    SelectedInOrder(pool.platforms, checked);
    SumLengthsSubseq(Selected(pool.platforms, checked), pool.platforms, pool.lists);
    assert (forall p :: p in pool.platforms ==> p in checked) ==> Selected(pool.platforms, checked) == pool.platforms by {
      if forall p :: p in pool.platforms ==> p in checked {
        SelectedAll(pool.platforms, checked);
      }
    }
    SumLengths(Selected(pool.platforms, checked), pool.lists)
  }

  /** Ticking a platform the keys do not hold changes no selection. */
  lemma {:induction false} SelectedNotIn(keys: seq<string>, checked: set<string>, p: string)
    requires p !in keys
    ensures Selected(keys, checked + {p}) == Selected(keys, checked)
  {
    if keys != [] {
      SelectedNotIn(keys[..|keys| - 1], checked, p);
    }
  }

  /** Ticking one more platform of the keys adds exactly its list to the
      sum over the selection. */
  lemma {:induction false} SumTick(keys: seq<string>, lists: map<string, seq<string>>, checked: set<string>, p: string)
    requires forall k :: k in keys ==> k in lists
    requires NoDuplicates(keys) && p in keys && p !in checked
    ensures SumLengths(Selected(keys, checked + {p}), lists)
            == SumLengths(Selected(keys, checked), lists) + |lists[p]|
  {
    var init := keys[..|keys| - 1];
    var q := keys[|keys| - 1];
    var r, r' := Selected(init, checked), Selected(init, checked + {p});
    NoDuplicatesInit(keys);
    assert forall k :: k in init ==> k in keys;
    if q == p {
      SelectedNotIn(init, checked, p);
      SumLengthsSnoc(r, p, lists);
    } else {
      assert p in init;
      SumTick(init, lists, checked, p);
      if q in checked {
        SumLengthsSnoc(r, q, lists);
        SumLengthsSnoc(r', q, lists);
      }
    }
  }

  /** With no platform ticked the total is zero. */
  lemma TotalSelectedNone(pool: Pool)
    requires pool.Valid()
    ensures TotalSelected(pool, {}) == 0
  {
    var r := Selected(pool.platforms, {});
    assert forall i :: 0 <= i < |r| ==> r[i] !in r;
  }

  /** Ticking one more platform raises the total by the length of its
      list; with TotalSelectedNone this fixes the total as the sum of the
      ticked platforms' list lengths (app.py:289-291). */
  lemma TotalSelectedTick(pool: Pool, checked: set<string>, p: string)
    requires pool.Valid()
    requires p in pool.platforms && p !in checked
    ensures TotalSelected(pool, checked + {p}) == TotalSelected(pool, checked) + |pool.lists[p]|
  {
    SumTick(pool.platforms, pool.lists, checked, p);
  }

  /** The order numbers of a sequence of candidates, in the same order. */
  function OrderNumbers(cs: seq<Candidate>): (r: seq<string>)
    ensures |r| == |cs|
  {
    if cs == [] then [] else OrderNumbers(cs[..|cs| - 1]) + [cs[|cs| - 1].order]
  }

  /** The inner loop of app.py:297-300 for one platform: its orders, in
      list order, whose number no pick of the round carries. */
  function EligibleFrom(platform: string, orders: seq<string>, picks: seq<Winner>): (r: seq<Candidate>)
    ensures forall c :: c in r <==> c.platform == platform && c.order in orders && !HasOrder(picks, c.order)
    ensures |r| <= |orders|
    ensures picks == [] ==> |r| == |orders|
  {
    if orders == [] then []
    else
      var init := orders[..|orders| - 1];
      var o := orders[|orders| - 1];
      var r := EligibleFrom(platform, init, picks);
      assert forall x :: x in orders <==> x in init || x == o;
      if HasOrder(picks, o) then r else r + [Candidate(o, platform)]
  }

  /** A platform's candidates keep the order of its list. */
  lemma {:induction false} EligibleFromInOrder(platform: string, orders: seq<string>, picks: seq<Winner>)
    ensures Subseq(OrderNumbers(EligibleFrom(platform, orders, picks)), orders)
  {
    if orders != [] {
      var init := orders[..|orders| - 1];
      var o := orders[|orders| - 1];
      EligibleFromInOrder(platform, init, picks);
      var r := EligibleFrom(platform, init, picks);
      if !HasOrder(picks, o) {
        var c := Candidate(o, platform);
        assert (r + [c])[..|r|] == r;
        var ns := OrderNumbers(r);
        assert OrderNumbers(r + [c]) == ns + [o];
        assert (ns + [o])[..|ns|] == ns;
      }
    }
  }

  /** A platform's candidates repeat an order number as often as its list
      does, unless a pick carries that number: the comprehension keeps
      every copy. */
  lemma {:induction false} EligibleFromCount(platform: string, orders: seq<string>, picks: seq<Winner>)
    ensures forall c :: multiset(EligibleFrom(platform, orders, picks))[c]
                        == if c.platform == platform && !HasOrder(picks, c.order) then multiset(orders)[c.order] else 0
  {
    if orders != [] {
      var init := orders[..|orders| - 1];
      var o := orders[|orders| - 1];
      EligibleFromCount(platform, init, picks);
      assert orders == init + [o];
      assert multiset(orders) == multiset(init) + multiset{o};
      var r := EligibleFrom(platform, init, picks);
      if !HasOrder(picks, o) {
        assert multiset(r + [Candidate(o, platform)]) == multiset(r) + multiset{Candidate(o, platform)};
      }
    }
  }

  /** eligible_orders over a sequence of platforms, in platform order and
      then list order. */
  function EligibleIn(platforms: seq<string>, lists: map<string, seq<string>>, picks: seq<Winner>): (r: seq<Candidate>)
    requires forall p :: p in platforms ==> p in lists
    ensures forall c :: c in r <==>
              c.platform in platforms && c.order in lists[c.platform] && !HasOrder(picks, c.order)
    ensures |r| <= SumLengths(platforms, lists)
    ensures picks == [] ==> |r| == SumLengths(platforms, lists)
  {
    if platforms == [] then []
    else
      var init := platforms[..|platforms| - 1];
      var p := platforms[|platforms| - 1];
      assert forall x :: x in platforms <==> x in init || x == p;
      EligibleIn(init, lists, picks) + EligibleFrom(p, lists[p], picks)
  }

  /** Over distinct platforms, each candidate appears as often as its
      number appears in its platform's list, unless a pick carries it. */
  lemma {:induction false} EligibleInCount(platforms: seq<string>, lists: map<string, seq<string>>, picks: seq<Winner>)
    requires forall p :: p in platforms ==> p in lists
    requires NoDuplicates(platforms)
    ensures forall c :: multiset(EligibleIn(platforms, lists, picks))[c]
                        == if c.platform in platforms && !HasOrder(picks, c.order)
                           then multiset(lists[c.platform])[c.order] else 0
  {
    if platforms != [] {
      var init := platforms[..|platforms| - 1];
      var p := platforms[|platforms| - 1];
      NoDuplicatesInit(platforms);
      assert forall x :: x in platforms <==> x in init || x == p;
      EligibleInCount(init, lists, picks);
      EligibleFromCount(p, lists[p], picks);
      var a, b := EligibleIn(init, lists, picks), EligibleFrom(p, lists[p], picks);
      assert multiset(a + b) == multiset(a) + multiset(b);
    }
  }

  /** eligible_orders (app.py:295-300, recomputed at app.py:361-367): the
      orders of the ticked platforms that match no pick of the round by
      order number, whatever platform the pick came from. */
  function Eligible(pool: Pool, checked: set<string>, picks: seq<Winner>): (r: seq<Candidate>)
    requires pool.Valid()
    ensures forall c :: c in r <==>
              c.platform in pool.platforms && c.platform in checked
              && c.order in pool.lists[c.platform] && !HasOrder(picks, c.order)
    ensures |r| <= TotalSelected(pool, checked)
    ensures picks == [] ==> |r| == TotalSelected(pool, checked)
  {
    EligibleIn(Selected(pool.platforms, checked), pool.lists, picks)
  }

  /** The multiplicity of each candidate in eligible_orders: as many
      copies as its platform's list holds of its number when the platform
      is ticked and no pick carries the number, none otherwise. */
  lemma EligibleCount(pool: Pool, checked: set<string>, picks: seq<Winner>)
    requires pool.Valid()
    ensures forall c :: multiset(Eligible(pool, checked, picks))[c]
                        == if c.platform in pool.platforms && c.platform in checked && !HasOrder(picks, c.order)
                           then multiset(pool.lists[c.platform])[c.order] else 0
  {
    EligibleInCount(Selected(pool.platforms, checked), pool.lists, picks);
  }

  /** start_disabled (app.py:315-320). */
  predicate StartDisabled(isRolling: bool, eligibleCount: nat, accumulated: nat, target: int, total: nat)
  {
    isRolling || eligibleCount == 0 || accumulated >= target || total <= target
  }

  /** When the start button is enabled, the three refusals inside its
      handler (app.py:324-329) cannot fire: some platform is ticked, the
      ticked platforms hold more orders than the target and there is a
      candidate to draw. So a click always starts the spin. */
  lemma StartEnabled(pool: Pool, checked: set<string>, picks: seq<Winner>, target: int)
    requires pool.Valid()
    requires !StartDisabled(false, |Eligible(pool, checked, picks)|, |picks|, target, TotalSelected(pool, checked))
    ensures Selected(pool.platforms, checked) != []
    ensures TotalSelected(pool, checked) > target
    ensures |Eligible(pool, checked, picks)| > 0
  {
    var c := Eligible(pool, checked, picks)[0];
    assert c in Eligible(pool, checked, picks);
    assert c.platform in Selected(pool.platforms, checked);
  }

  /** One more pick can only shrink a platform's candidates, and does
      shrink them when its order number was a candidate. */
  lemma {:induction false} EligibleFromShrinks(platform: string, orders: seq<string>, picks: seq<Winner>, w: Winner)
    ensures |EligibleFrom(platform, orders, picks + [w])| <= |EligibleFrom(platform, orders, picks)|
    ensures Candidate(w.order, platform) in EligibleFrom(platform, orders, picks) ==>
              |EligibleFrom(platform, orders, picks + [w])| < |EligibleFrom(platform, orders, picks)|
  {
    if orders != [] {
      var init := orders[..|orders| - 1];
      var o := orders[|orders| - 1];
      EligibleFromShrinks(platform, init, picks, w);
      assert HasOrder(picks + [w], o) <==> HasOrder(picks, o) || w.order == o by {
        assert w in picks + [w];
        assert forall v :: v in picks + [w] <==> v in picks || v == w;
      }
      assert forall x :: x in orders <==> x in init || x == o;
    }
  }

  lemma {:induction false} EligibleInShrinks(platforms: seq<string>, lists: map<string, seq<string>>, picks: seq<Winner>, w: Winner)
    requires forall p :: p in platforms ==> p in lists
    ensures |EligibleIn(platforms, lists, picks + [w])| <= |EligibleIn(platforms, lists, picks)|
    ensures Candidate(w.order, w.platform) in EligibleIn(platforms, lists, picks) ==>
              |EligibleIn(platforms, lists, picks + [w])| < |EligibleIn(platforms, lists, picks)|
  {
    if platforms != [] {
      var init := platforms[..|platforms| - 1];
      var p := platforms[|platforms| - 1];
      EligibleInShrinks(init, lists, picks, w);
      EligibleFromShrinks(p, lists[p], picks, w);
      if Candidate(w.order, w.platform) in EligibleIn(platforms, lists, picks) {
        var c := Candidate(w.order, w.platform);
        if c !in EligibleIn(init, lists, picks) {
          assert c in EligibleFrom(p, lists[p], picks);
          assert c.platform == p;
        }
      }
    }
  }

  /** A select removes the drawn order number from the candidates: the
      set afterwards is the set before less every entry with that number
      (on any platform), and it is strictly smaller, so a round cannot
      draw forever. */
  lemma EligibleAfterPick(pool: Pool, checked: set<string>, picks: seq<Winner>, c: Candidate, time: string)
    requires pool.Valid()
    requires c in Eligible(pool, checked, picks)
    ensures forall d :: d in Eligible(pool, checked, picks + [Winner(c.order, c.platform, time)]) <==>
              d in Eligible(pool, checked, picks) && d.order != c.order
    ensures |Eligible(pool, checked, picks + [Winner(c.order, c.platform, time)])| < |Eligible(pool, checked, picks)|
  {
    var w := Winner(c.order, c.platform, time);
    assert forall o :: HasOrder(picks + [w], o) <==> HasOrder(picks, o) || o == c.order by {
      assert w in picks + [w];
      assert forall v :: v in picks + [w] <==> v in picks || v == w;
    }
    EligibleInShrinks(Selected(pool.platforms, checked), pool.lists, picks, w);
  }

  /** The worked example of a round: with platform A holding 1, 2 and 3
      and the picks 1 and 2 taken, only 3 is left to draw. */
  lemma EligibleExample()
    ensures Eligible(Pool(["A"], map["A" := ["1", "2", "3"]]), {"A"},
                     [Winner("1", "A", "t1"), Winner("2", "A", "t2")])
          == [Candidate("3", "A")]
  {
    var picks := [Winner("1", "A", "t1"), Winner("2", "A", "t2")];
    assert HasOrder(picks, "1") && HasOrder(picks, "2") by {
      assert picks[0] in picks && picks[1] in picks;
    }
    assert !HasOrder(picks, "3");
    var e0 := EligibleFrom("A", [], picks);
    assert ["1"][..0] == [];
    var e1 := EligibleFrom("A", ["1"], picks);
    assert e1 == e0;
    assert ["1", "2"][..1] == ["1"];
    var e2 := EligibleFrom("A", ["1", "2"], picks);
    assert e2 == e1;
    assert ["1", "2", "3"][..2] == ["1", "2"];
    var e3 := EligibleFrom("A", ["1", "2", "3"], picks);
    assert e3 == [Candidate("3", "A")];
    SelectedAll(["A"], {"A"});
    assert EligibleIn(["A"], map["A" := ["1", "2", "3"]], picks) == e3;
  }
}
