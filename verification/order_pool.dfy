/** The order pool: platform name -> ordered list of order numbers, kept
    in the session as an insertion-ordered dict. Covers the order query
    (app.py:213-224), process_orders (app.py:652-702) and the default
    pool with six empty platforms (app.py:117-124, app.py:834-841). */
module OrderPool {
  import opened Common
  import opened Text

  /** A Python dict from platform to orders: the keys in insertion order,
      and the lists. */
  datatype Pool = Pool(platforms: seq<string>, lists: map<string, seq<string>>)
  {
    /** Each platform appears once, and the keys are exactly the platforms. */
    ghost predicate Valid()
    {
      (forall i, j :: 0 <= i < j < |platforms| ==> platforms[i] != platforms[j])
      && (forall p :: p in lists <==> p in platforms)
    }
  }

  /** The two choices of the import-mode radio button. */
  datatype Mode = Append | Replace

  /** The three counters of process_orders: total_new, duplicates, errors. */
  datatype ImportStats = ImportStats(added: nat, duplicates: nat, errors: nat)

  predicate NoDuplicates(s: seq<string>)
  {
    forall i, j :: 0 <= i < j < |s| ==> s[i] != s[j]
  }

  /** No platform lists the same order number twice. */
  predicate ListsDuplicateFree(p: Pool)
  {
    forall k :: k in p.lists ==> NoDuplicates(p.lists[k])
  }

  /** Total number of orders held under the given keys. */
  function SumLengths(keys: seq<string>, lists: map<string, seq<string>>): nat
    requires forall k :: k in keys ==> k in lists
  {
    if keys == [] then 0
    else SumLengths(keys[..|keys| - 1], lists) + |lists[keys[|keys| - 1]]|
  }

  lemma SumLengthsSnoc(keys: seq<string>, k: string, lists: map<string, seq<string>>)
    requires forall x :: x in keys ==> x in lists
    requires k in lists
    ensures SumLengths(keys + [k], lists) == SumLengths(keys, lists) + |lists[k]|
  {
    assert (keys + [k])[..|keys|] == keys;
  }

  /** Dropping the last key keeps the keys distinct and leaves that key out. */
  lemma NoDuplicatesInit(keys: seq<string>)
    requires NoDuplicates(keys) && keys != []
    ensures NoDuplicates(keys[..|keys| - 1]) && keys[|keys| - 1] !in keys[..|keys| - 1]
  {
    var init := keys[..|keys| - 1];
    forall i | 0 <= i < |init|
      ensures init[i] == keys[i]
    {
    }
  }

  /** No list is longer than the total, and the total is zero exactly
      when every list is empty. */
  lemma {:induction false} SumLengthsParts(keys: seq<string>, lists: map<string, seq<string>>)
    requires forall k :: k in keys ==> k in lists
    ensures forall k :: k in keys ==> |lists[k]| <= SumLengths(keys, lists)
    ensures SumLengths(keys, lists) == 0 <==> forall k :: k in keys ==> |lists[k]| == 0
  {
    if keys != [] {
      var init := keys[..|keys| - 1];
      SumLengthsParts(init, lists);
      assert forall k :: k in keys <==> k in init || k == keys[|keys| - 1];
    }
  }

  /** Summing over keys left out of a sequence cannot give more. */
  lemma {:induction false} SumLengthsSubseq(sub: seq<string>, keys: seq<string>, lists: map<string, seq<string>>)
    requires forall k :: k in keys ==> k in lists
    requires Subseq(sub, keys)
    ensures forall k :: k in sub ==> k in lists
    ensures SumLengths(sub, lists) <= SumLengths(keys, lists)
    decreases |keys|
  {
    if |sub| > 0 {
      var init := keys[..|keys| - 1];
      assert forall k :: k in init ==> k in keys;
      if sub[|sub| - 1] == keys[|keys| - 1] && Subseq(sub[..|sub| - 1], init) {
        SumLengthsSubseq(sub[..|sub| - 1], init, lists);
        assert forall k :: k in sub <==> k in sub[..|sub| - 1] || k == sub[|sub| - 1];
      } else {
        SumLengthsSubseq(sub, init, lists);
      }
    }
  }

  /** sum(len(orders) for orders in order_pool.values()) (app.py:623). */
  function TotalOrders(p: Pool): (r: nat)
    requires p.Valid()
    ensures forall k :: k in p.lists ==> |p.lists[k]| <= r
    ensures r == 0 <==> forall k :: k in p.lists ==> |p.lists[k]| == 0
  {
    SumLengthsParts(p.platforms, p.lists);
    SumLengths(p.platforms, p.lists)
  }

  lemma {:induction false} SumLengthsAllEmpty(keys: seq<string>, lists: map<string, seq<string>>)
    requires forall k :: k in keys ==> k in lists && lists[k] == []
    ensures SumLengths(keys, lists) == 0
  {
    if keys != [] {
      SumLengthsAllEmpty(keys[..|keys| - 1], lists);
    }
  }

  /** The pool used when no saved pool can be loaded, and the one a pool
      reset installs: six known platforms, none holding an order. */
  function DefaultPool(): (p: Pool)
    ensures p.Valid() && |p.platforms| == 6
    ensures forall k :: k in p.lists ==> p.lists[k] == []
    ensures TotalOrders(p) == 0
  {
    var names := ["抖音", "天猫", "京东", "小红书", "拼多多", "微信小店"];
    var p := Pool(names, map k | k in names :: []);
    SumLengthsAllEmpty(p.platforms, p.lists);
    p
  }

  // ---------------------------------------------------------------------
  // Order query (app.py:213-224)

  /** Index of the first platform, in key order, whose list holds order. */
  function FirstHolding(platforms: seq<string>, lists: map<string, seq<string>>, order: string): (r: Option<nat>)
    requires forall k :: k in platforms ==> k in lists
    ensures r.Some? ==> r.value < |platforms| && order in lists[platforms[r.value]]
    ensures r.Some? ==> forall j :: 0 <= j < r.value ==> order !in lists[platforms[j]]
    ensures r.None? ==> forall j :: 0 <= j < |platforms| ==> order !in lists[platforms[j]]
  {
    if platforms == [] then None
    else if order in lists[platforms[0]] then Some(0)
    else
      match FirstHolding(platforms[1..], lists, order)
      case None => None
      case Some(i) => Some(i + 1)
  }

  /** The order query: whitespace-only input is refused; otherwise the
      stripped input is looked up and the first platform holding it is
      reported. */
  function QueryOrder(pool: Pool, input: string): (r: Lookup<string>)
    requires pool.Valid()
    ensures r.BlankInput? <==> forall i :: 0 <= i < |input| ==> IsSpace(input[i])
    ensures r.NotFound? ==> forall k :: k in pool.lists ==> Trim(input) !in pool.lists[k]
    ensures r.Found? ==>
      exists i :: 0 <= i < |pool.platforms| && pool.platforms[i] == r.value
        && Trim(input) in pool.lists[r.value]
        && forall j :: 0 <= j < i ==> Trim(input) !in pool.lists[pool.platforms[j]]
  {
    var order := Trim(input);
    if order == "" then BlankInput
    else
      match FirstHolding(pool.platforms, pool.lists, order)
      case None => NotFound
      case Some(i) => Found(pool.platforms[i])
  }

  // ---------------------------------------------------------------------
  // Import (process_orders, app.py:652-702)

  /** The map the import loop starts from: a copy of the pool in append
      mode, an empty dict in replace mode (app.py:658-665). */
  function StartPool(current: Pool, mode: Mode): (p: Pool)
    requires current.Valid()
    ensures p.Valid()
    ensures mode == Replace ==> p.platforms == [] && p.lists == map[]
  {
    if mode == Append then current else Pool([], map[])
  }

  /** One pass of the loop of app.py:668-685 on one (platform, order) pair.
      Every pair is counted once, as added, duplicate or error. */
  function ImportStep(pool: Pool, stats: ImportStats, pair: (string, string)): (r: (Pool, ImportStats))
    requires pool.Valid()
    ensures r.0.Valid()
    ensures r.1 == stats.(added := stats.added + 1)
         || r.1 == stats.(duplicates := stats.duplicates + 1)
         || r.1 == stats.(errors := stats.errors + 1)
  {
    var (platform, order) := pair;
    if platform == "" || order == "" then
      (pool, stats.(errors := stats.errors + 1))
    else
      var p := if platform in pool.lists then pool
               else Pool(pool.platforms + [platform], pool.lists[platform := []]);
      if order in p.lists[platform] then
        (p, stats.(duplicates := stats.duplicates + 1))
      else
        (Pool(p.platforms, p.lists[platform := p.lists[platform] + [order]]), stats.(added := stats.added + 1))
  }

  /** What one pass does to the map. */
  lemma ImportStepFacts(pool: Pool, stats: ImportStats, pair: (string, string))
    requires pool.Valid()
    // a pair with an empty part is an error and changes nothing
    ensures pair.0 == "" || pair.1 == "" ==> ImportStep(pool, stats, pair) == (pool, stats.(errors := stats.errors + 1))
    // a pair that adds nothing leaves the map as it was
    ensures ImportStep(pool, stats, pair).1.added == stats.added ==> ImportStep(pool, stats, pair).0 == pool
    // afterwards a complete pair's order is listed under its platform
    ensures pair.0 != "" && pair.1 != "" ==>
              pair.0 in ImportStep(pool, stats, pair).0.lists
              && pair.1 in ImportStep(pool, stats, pair).0.lists[pair.0]
    // platforms and lists only grow at the end
    ensures pool.platforms <= ImportStep(pool, stats, pair).0.platforms
    ensures forall k :: k in pool.lists ==>
              k in ImportStep(pool, stats, pair).0.lists && pool.lists[k] <= ImportStep(pool, stats, pair).0.lists[k]
    // whatever is new comes from the pair
    ensures forall k :: k in ImportStep(pool, stats, pair).0.lists && k !in pool.lists ==>
              ImportStep(pool, stats, pair).0.lists[k] == [pair.1]
    ensures forall k, o :: k in ImportStep(pool, stats, pair).0.lists && o in ImportStep(pool, stats, pair).0.lists[k] ==>
              (k in pool.lists && o in pool.lists[k]) || (k, o) == pair
    ensures ListsDuplicateFree(pool) ==> ListsDuplicateFree(ImportStep(pool, stats, pair).0)
  {
    var (platform, order) := pair;
    if platform != "" && order != "" {
      var p := if platform in pool.lists then pool
               else Pool(pool.platforms + [platform], pool.lists[platform := []]);
      if order !in p.lists[platform] {
        var q := p.lists[platform] + [order];
        assert forall o :: o in q <==> o in p.lists[platform] || o == order;
        if ListsDuplicateFree(pool) {
          assert NoDuplicates(q);
        }
      }
    }
  }

  /** A pair with an empty platform or order (app.py:671-673). */
  predicate Incomplete(pair: (string, string))
  {
    |pair.0| == 0 || |pair.1| == 0
  }

  /** The pair's order is already listed under its platform. */
  predicate Listed(pool: Pool, pair: (string, string))
  {
    pair.0 in pool.lists && pair.1 in pool.lists[pair.0]
  }

  /** Which counter one pass bumps: errors exactly for an incomplete pair,
      duplicates exactly for a complete pair already listed, added
      exactly for a complete pair not yet listed. */
  lemma ImportStepCounts(pool: Pool, stats: ImportStats, pair: (string, string))
    requires pool.Valid()
    ensures ImportStep(pool, stats, pair).1.errors == stats.errors + 1 <==> Incomplete(pair)
    ensures ImportStep(pool, stats, pair).1.duplicates == stats.duplicates + 1
            <==> !Incomplete(pair) && Listed(pool, pair)
    ensures ImportStep(pool, stats, pair).1.added == stats.added + 1
            <==> !Incomplete(pair) && !Listed(pool, pair)
  {
    if !Incomplete(pair) && pair.0 !in pool.lists {
      var p := Pool(pool.platforms + [pair.0], pool.lists[pair.0 := []]);
      assert pair.1 !in p.lists[pair.0];
    }
  }

  /** How many of the pairs are incomplete. */
  function IncompletePairs(pairs: seq<(string, string)>): (n: nat)
    ensures n <= |pairs|
  {
    if pairs == [] then 0
    else IncompletePairs(pairs[..|pairs| - 1]) + (if Incomplete(pairs[|pairs| - 1]) then 1 else 0)
  }

  /** The error count process_orders reports is the number of incomplete
      pairs, and every other pair is counted as added or duplicate. */
  lemma {:induction false} ImportErrors(start: Pool, pairs: seq<(string, string)>)
    requires start.Valid()
    ensures ImportFrom(start, pairs).1.errors == IncompletePairs(pairs)
    ensures ImportFrom(start, pairs).1.added + ImportFrom(start, pairs).1.duplicates
            == |pairs| - IncompletePairs(pairs)
  {
    if pairs != [] {
      var init := pairs[..|pairs| - 1];
      ImportErrors(start, init);
      var prev := ImportFrom(start, init);
      ImportStepCounts(prev.0, prev.1, pairs[|pairs| - 1]);
    }
  }

  /** The loop of app.py:668-685 over a prefix of the pairs, from a given
      start map; counts start at zero. Every pair is counted exactly once. */
  function ImportFrom(start: Pool, pairs: seq<(string, string)>): (r: (Pool, ImportStats))
    requires start.Valid()
    ensures r.0.Valid()
    ensures r.1.added + r.1.duplicates + r.1.errors == |pairs|
  {
    if pairs == [] then (start, ImportStats(0, 0, 0))
    else
      var prev := ImportFrom(start, pairs[..|pairs| - 1]);
      ImportStep(prev.0, prev.1, pairs[|pairs| - 1])
  }

  /** The guard of app.py:688: the built map replaces the pool only when
      something was added, or in replace mode with a non-empty input. */
  predicate Swaps(mode: Mode, pairCount: nat, stats: ImportStats)
  {
    stats.added > 0 || (mode == Replace && pairCount > 0)
  }

  /** The pool after process_orders: it keeps lists free of repeated
      order numbers, and an append import loses no order and moves none. */
  function ApplyImport(current: Pool, mode: Mode, pairs: seq<(string, string)>): (r: Pool)
    requires current.Valid()
    ensures r.Valid()
    ensures ListsDuplicateFree(current) ==> ListsDuplicateFree(r)
    ensures mode == Append ==>
              current.platforms <= r.platforms
              && forall k :: k in current.lists ==> k in r.lists && current.lists[k] <= r.lists[k]
  {
    var start := StartPool(current, mode);
    var built := ImportFrom(start, pairs);
    ImportKeepsDuplicateFree(start, pairs);
    ImportKeepsExisting(start, pairs);
    if Swaps(mode, |pairs|, built.1) then built.0 else current
  }

  lemma ImportFromSnoc(start: Pool, pairs: seq<(string, string)>, i: nat)
    requires start.Valid() && i < |pairs|
    ensures ImportFrom(start, pairs[..i + 1])
      == ImportStep(ImportFrom(start, pairs[..i]).0, ImportFrom(start, pairs[..i]).1, pairs[i])
  {
    assert pairs[..i + 1][..i] == pairs[..i];
  }

  /** The body of the loop of app.py:668-685: one pair updates the dict
      and the counters in place. */
  method AddPair(platforms: seq<string>, lists: map<string, seq<string>>, counts: ImportStats, pair: (string, string))
    returns (platforms': seq<string>, lists': map<string, seq<string>>, counts': ImportStats)
    requires Pool(platforms, lists).Valid()
    ensures (Pool(platforms', lists'), counts') == ImportStep(Pool(platforms, lists), counts, pair)
  {
    platforms', lists', counts' := platforms, lists, counts;
    var platform, order := pair.0, pair.1;
    if platform == "" || order == "" {
      counts' := counts'.(errors := counts'.errors + 1);
    } else {
      if platform !in lists' {
        platforms' := platforms' + [platform];
        lists' := lists'[platform := []];
      }
      if order !in lists'[platform] {
        lists' := lists'[platform := lists'[platform] + [order]];
        counts' := counts'.(added := counts'.added + 1);
      } else {
        counts' := counts'.(duplicates := counts'.duplicates + 1);
      }
    }
  }

  /** The loop of process_orders (app.py:658-685), building the new map
      and the three counters. */
  method BuildImport(current: Pool, mode: Mode, pairs: seq<(string, string)>)
    returns (built: Pool, stats: ImportStats)
    requires current.Valid()
    ensures (built, stats) == ImportFrom(StartPool(current, mode), pairs)
    ensures built.Valid()
    ensures stats.added + stats.duplicates + stats.errors == |pairs|
  {
    var platforms: seq<string> := [];
    var lists: map<string, seq<string>> := map[];
    if mode == Append {
      platforms, lists := current.platforms, current.lists;
    }
    var counts := ImportStats(0, 0, 0);
    for i := 0 to |pairs|
      invariant (Pool(platforms, lists), counts) == ImportFrom(StartPool(current, mode), pairs[..i])
    {
      ImportFromSnoc(StartPool(current, mode), pairs, i);
      platforms, lists, counts := AddPair(platforms, lists, counts, pairs[i]);
    }
    assert pairs[..|pairs|] == pairs;
    built, stats := Pool(platforms, lists), counts;
  }

  // ---------------------------------------------------------------------
  // Properties of the import

  /** Existing platforms keep their position and existing lists keep
      every order in place; the import only appends. */
  lemma {:induction false} ImportKeepsExisting(start: Pool, pairs: seq<(string, string)>)
    requires start.Valid()
    ensures start.platforms <= ImportFrom(start, pairs).0.platforms
    ensures forall k :: k in start.lists ==>
              k in ImportFrom(start, pairs).0.lists && start.lists[k] <= ImportFrom(start, pairs).0.lists[k]
  {
    if pairs != [] {
      ImportKeepsExisting(start, pairs[..|pairs| - 1]);
      var prev := ImportFrom(start, pairs[..|pairs| - 1]);
      ImportStepFacts(prev.0, prev.1, pairs[|pairs| - 1]);
    }
  }

  /** Duplicate-free lists stay duplicate-free. */
  lemma {:induction false} ImportKeepsDuplicateFree(start: Pool, pairs: seq<(string, string)>)
    requires start.Valid()
    ensures ListsDuplicateFree(start) ==> ListsDuplicateFree(ImportFrom(start, pairs).0)
  {
    if pairs != [] {
      ImportKeepsDuplicateFree(start, pairs[..|pairs| - 1]);
      var prev := ImportFrom(start, pairs[..|pairs| - 1]);
      ImportStepFacts(prev.0, prev.1, pairs[|pairs| - 1]);
    }
  }

  /** If nothing was added the built map is the start map: an append
      import whose pairs were all duplicates or errors loses nothing
      when the guard of app.py:688 discards it. */
  lemma {:induction false} ImportNothingAdded(start: Pool, pairs: seq<(string, string)>)
    requires start.Valid()
    ensures ImportFrom(start, pairs).1.added == 0 ==> ImportFrom(start, pairs).0 == start
  {
    if pairs != [] {
      ImportNothingAdded(start, pairs[..|pairs| - 1]);
      var prev := ImportFrom(start, pairs[..|pairs| - 1]);
      ImportStepFacts(prev.0, prev.1, pairs[|pairs| - 1]);
    }
  }

  /** Every complete pair ends up listed under its platform. */
  lemma {:induction false} ImportComplete(start: Pool, pairs: seq<(string, string)>)
    requires start.Valid()
    ensures forall j :: 0 <= j < |pairs| && pairs[j].0 != "" && pairs[j].1 != "" ==>
              pairs[j].0 in ImportFrom(start, pairs).0.lists
              && pairs[j].1 in ImportFrom(start, pairs).0.lists[pairs[j].0]
  {
    if pairs != [] {
      var init := pairs[..|pairs| - 1];
      ImportComplete(start, init);
      var prev := ImportFrom(start, init);
      ImportStepFacts(prev.0, prev.1, pairs[|pairs| - 1]);
      var r := ImportFrom(start, pairs);
      forall j | 0 <= j < |pairs| - 1 && pairs[j].0 != "" && pairs[j].1 != ""
        ensures pairs[j].0 in r.0.lists && pairs[j].1 in r.0.lists[pairs[j].0]
      {
        assert init[j] == pairs[j];
        assert prev.0.lists[pairs[j].0] <= r.0.lists[pairs[j].0];
      }
    }
  }

  /** Nothing appears from nowhere: an order listed after the import was
      listed before under the same platform or came in as a pair, and a
      platform created by the import holds at least one order. */
  lemma {:induction false} ImportSound(start: Pool, pairs: seq<(string, string)>)
    requires start.Valid()
    ensures forall k, o :: k in ImportFrom(start, pairs).0.lists && o in ImportFrom(start, pairs).0.lists[k] ==>
              (k in start.lists && o in start.lists[k]) || (k, o) in pairs
    ensures forall k :: k in ImportFrom(start, pairs).0.lists && k !in start.lists ==>
              ImportFrom(start, pairs).0.lists[k] != []
  {
    if pairs != [] {
      var init := pairs[..|pairs| - 1];
      ImportSound(start, init);
      var prev := ImportFrom(start, init);
      ImportStepFacts(prev.0, prev.1, pairs[|pairs| - 1]);
      var r := ImportFrom(start, pairs);
      assert forall x :: x in init ==> x in pairs;
      assert pairs[|pairs| - 1] in pairs;
      forall k | k in r.0.lists && k !in start.lists
        ensures r.0.lists[k] != []
      {
        if k in prev.0.lists {
          assert prev.0.lists[k] <= r.0.lists[k];
        }
      }
    }
  }

  lemma {:induction false} SumLengthsOther(keys: seq<string>, lists: map<string, seq<string>>, k: string, v: seq<string>)
    requires forall x :: x in keys ==> x in lists
    requires k !in keys
    ensures SumLengths(keys, lists[k := v]) == SumLengths(keys, lists)
  {
    if keys != [] {
      SumLengthsOther(keys[..|keys| - 1], lists, k, v);
    }
  }

  lemma {:induction false} SumLengthsUpdate(keys: seq<string>, lists: map<string, seq<string>>, k: string, v: seq<string>)
    requires forall x :: x in keys ==> x in lists
    requires NoDuplicates(keys) && k in keys
    ensures SumLengths(keys, lists[k := v]) + |lists[k]| == SumLengths(keys, lists) + |v|
  {
    var init := keys[..|keys| - 1];
    var last := keys[|keys| - 1];
    if last == k {
      assert k !in init;
      SumLengthsOther(init, lists, k, v);
    } else {
      assert k in init by {
        var i :| 0 <= i < |keys| && keys[i] == k;
        assert init[i] == k;
      }
      SumLengthsUpdate(init, lists, k, v);
    }
  }

  lemma ImportStepTotal(pool: Pool, stats: ImportStats, pair: (string, string))
    requires pool.Valid()
    ensures TotalOrders(ImportStep(pool, stats, pair).0) + stats.added
      == TotalOrders(pool) + ImportStep(pool, stats, pair).1.added
  {
    var (platform, order) := pair;
    if platform != "" && order != "" {
      var p := if platform in pool.lists then pool
               else Pool(pool.platforms + [platform], pool.lists[platform := []]);
      if platform !in pool.lists {
        SumLengthsOther(pool.platforms, pool.lists, platform, []);
        assert (pool.platforms + [platform])[..|pool.platforms|] == pool.platforms;
        assert TotalOrders(p) == TotalOrders(pool);
      }
      if order !in p.lists[platform] {
        SumLengthsUpdate(p.platforms, p.lists, platform, p.lists[platform] + [order]);
      }
    }
  }

  /** The pool grows by exactly the number of orders reported as added. */
  lemma {:induction false} ImportTotal(start: Pool, pairs: seq<(string, string)>)
    requires start.Valid()
    ensures TotalOrders(ImportFrom(start, pairs).0) == TotalOrders(start) + ImportFrom(start, pairs).1.added
  {
    if pairs != [] {
      var init := pairs[..|pairs| - 1];
      ImportTotal(start, init);
      var prev := ImportFrom(start, init);
      ImportStepTotal(prev.0, prev.1, pairs[|pairs| - 1]);
    }
  }

  /** The guard of app.py:688 in closed form: the pool after the import
      is the built map, except for a replace-mode import of no pairs,
      which keeps the pool. In append mode the guard never discards an
      addition. */
  lemma ApplyImportClosedForm(current: Pool, mode: Mode, pairs: seq<(string, string)>)
    requires current.Valid()
    ensures ApplyImport(current, mode, pairs)
      == if mode == Replace && pairs == [] then current
         else ImportFrom(StartPool(current, mode), pairs).0
  {
    ImportNothingAdded(StartPool(current, mode), pairs);
  }

  /** The total the success message reports after process_orders
      (app.py:693-694): in append mode the old total plus the added
      count; after a replace that swaps, just the added count. */
  lemma ApplyImportTotal(current: Pool, mode: Mode, pairs: seq<(string, string)>)
    requires current.Valid()
    ensures var stats := ImportFrom(StartPool(current, mode), pairs).1;
            mode == Append ==> TotalOrders(ApplyImport(current, mode, pairs)) == TotalOrders(current) + stats.added
    ensures var stats := ImportFrom(StartPool(current, mode), pairs).1;
            mode == Replace && Swaps(mode, |pairs|, stats) ==> TotalOrders(ApplyImport(current, mode, pairs)) == stats.added
  {
    var start := StartPool(current, mode);
    ImportTotal(start, pairs);
    ImportNothingAdded(start, pairs);
    assert mode == Replace ==> TotalOrders(start) == 0;
  }

  lemma ImportFromAppend(start: Pool, init: seq<(string, string)>, pair: (string, string))
    requires start.Valid()
    ensures ImportFrom(start, init + [pair]) == ImportStep(ImportFrom(start, init).0, ImportFrom(start, init).1, pair)
  {
    assert (init + [pair])[..|init|] == init;
  }

  /** First step of the example: A,1 creates platform A. */
  lemma ImportExampleNewPlatform()
    ensures ImportStep(Pool([], map[]), ImportStats(0, 0, 0), ("A", "1"))
      == (Pool(["A"], map["A" := ["1"]]), ImportStats(1, 0, 0))
  {
    var none: seq<string> := [];
    assert none + ["A"] == ["A"];
    var empty: map<string, seq<string>> := map[];
    var a := empty["A" := []];
    assert a["A"] + ["1"] == ["1"];
    assert a["A" := a["A"] + ["1"]] == map["A" := ["1"]];
  }

  /** Second step: A,1 again is a duplicate. */
  lemma ImportExampleDuplicate()
    ensures ImportStep(Pool(["A"], map["A" := ["1"]]), ImportStats(1, 0, 0), ("A", "1"))
      == (Pool(["A"], map["A" := ["1"]]), ImportStats(1, 1, 0))
  {
  }

  /** Third step: B,2 creates platform B after A. */
  lemma ImportExampleSecondPlatform()
    ensures ImportStep(Pool(["A"], map["A" := ["1"]]), ImportStats(1, 1, 0), ("B", "2"))
      == (Pool(["A", "B"], map["A" := ["1"], "B" := ["2"]]), ImportStats(2, 1, 0))
  {
    assert ["A"] + ["B"] == ["A", "B"];
    var b := map["A" := ["1"]]["B" := []];
    assert b["B"] + ["2"] == ["2"];
    assert b["B" := b["B"] + ["2"]] == map["A" := ["1"], "B" := ["2"]];
  }

  lemma ImportExampleOne()
    ensures ImportFrom(Pool([], map[]), [("A", "1")]) == (Pool(["A"], map["A" := ["1"]]), ImportStats(1, 0, 0))
  {
    var q0: seq<(string, string)> := [];
    ImportExampleNewPlatform();
    ImportFromAppend(Pool([], map[]), q0, ("A", "1"));
    assert q0 + [("A", "1")] == [("A", "1")];
  }

  lemma ImportExampleTwo()
    ensures ImportFrom(Pool([], map[]), [("A", "1"), ("A", "1")]) == (Pool(["A"], map["A" := ["1"]]), ImportStats(1, 1, 0))
  {
    ImportExampleOne();
    ImportExampleDuplicate();
    ImportFromAppend(Pool([], map[]), [("A", "1")], ("A", "1"));
    assert [("A", "1")] + [("A", "1")] == [("A", "1"), ("A", "1")];
  }

  /** The worked example of a replace-mode import: records A,1 / A,1 / B,2
      give {"A": ["1"], "B": ["2"]} with two added and one duplicate. */
  lemma ImportExample()
    ensures ImportFrom(Pool([], map[]), [("A", "1"), ("A", "1"), ("B", "2")])
      == (Pool(["A", "B"], map["A" := ["1"], "B" := ["2"]]), ImportStats(2, 1, 0))
  {
    ImportExampleTwo();
    ImportExampleSecondPlatform();
    ImportFromAppend(Pool([], map[]), [("A", "1"), ("A", "1")], ("B", "2"));
    assert [("A", "1"), ("A", "1")] + [("B", "2")] == [("A", "1"), ("A", "1"), ("B", "2")];
  }
}
