/** The application's session state (st.session_state) and the button
    handlers that change it: the two password gates, the draw round
    (app.py:258-447), the two-step confirmations of the three destructive
    actions (app.py:449-533, app.py:771-903) and the pool imports
    (app.py:652-769). Each handler is a method whose requires is the
    condition under which the page shows or enables its button. */
module App {
  import opened Common
  import opened Text
  import opened TextImport
  import opened OrderPool
  import opened Ledger
  import opened Draw

  /** What pressing the text import button leads to (app.py:745-769). */
  datatype TextImportOutcome =
    | BlankText                                   // the text is blank after stripping
    | NoRecords                                   // no line gave a record
    | Imported(stats: ImportStats, swapped: bool) // process_orders ran

  class Session {
    /** order_pool */
    var pool: Pool
    /** winners: the committed ledger */
    var winners: seq<Winner>
    /** is_rolling */
    var isRolling: bool
    /** current_rolling_order */
    var current: Candidate
    /** final_winners: the picks of the round in progress */
    var finalWinners: seq<Winner>
    /** authenticated: the draw page is unlocked */
    var drawUnlocked: bool
    /** pool_management_authenticated */
    var poolUnlocked: bool
    /** the first click of the three two-step actions */
    var resetHistoryConfirmed: bool
    var confirmSave: bool
    var resetConfirmed: bool
    /** INITIAL_PASSWORD_HASH_DRAW and INITIAL_PASSWORD_HASH_ORDER_MANAGEMENT */
    const drawDigest: string
    const poolDigest: string

    /** The pool is a dict; the round's picks carry distinct, non-empty
        order numbers; while rolling, the current candidate is not one
        of them. */
    ghost predicate Valid()
      reads this
    {
      pool.Valid()
      && DistinctOrders(finalWinners)
      && (forall k :: 0 <= k < |finalWinners| ==> finalWinners[k].order != "")
      && (isRolling ==> !HasOrder(finalWinners, current.order))
    }

    /** Session start (app.py:162-172, app.py:280-285, and the flags'
        first use): the saved pool when it could be loaded, else the
        default pool; the saved ledger; no round, nothing unlocked. */
    constructor (loaded: Option<Pool>, ledger: seq<Winner>, drawDigest: string, poolDigest: string)
      requires loaded.Some? ==> loaded.value.Valid()
      ensures Valid()
      ensures pool == if loaded.Some? then loaded.value else DefaultPool()
      ensures winners == ledger && finalWinners == []
      ensures !isRolling && current == Candidate("", "")
      ensures !drawUnlocked && !poolUnlocked
      ensures !resetHistoryConfirmed && !confirmSave && !resetConfirmed
      ensures this.drawDigest == drawDigest && this.poolDigest == poolDigest
    {
      pool := if loaded.Some? then loaded.value else DefaultPool();
      winners := ledger;
      isRolling := false;
      current := Candidate("", "");
      finalWinners := [];
      drawUnlocked := false;
      poolUnlocked := false;
      resetHistoryConfirmed := false;
      confirmSave := false;
      resetConfirmed := false;
      this.drawDigest := drawDigest;
      this.poolDigest := poolDigest;
    }

    // -------------------------------------------------------------------
    // Password gates (app.py:239-255, app.py:603-620); digest is the
    // SHA-256 hex digest of the typed password.

    method UnlockDraw(digest: string)
      requires Valid() && !drawUnlocked
      modifies this`drawUnlocked
      ensures Valid()
      ensures drawUnlocked <==> digest == drawDigest
    {
      if digest == drawDigest {
        drawUnlocked := true;
      }
    }

    method LockDraw()
      requires Valid() && drawUnlocked
      modifies this`drawUnlocked
      ensures Valid()
      ensures !drawUnlocked
    {
      drawUnlocked := false;
    }

    method UnlockPool(digest: string)
      requires Valid() && !poolUnlocked
      modifies this`poolUnlocked
      ensures Valid()
      ensures poolUnlocked <==> digest == poolDigest
    {
      if digest == poolDigest {
        poolUnlocked := true;
      }
    }

    method LockPool()
      requires Valid() && poolUnlocked
      modifies this`poolUnlocked
      ensures Valid()
      ensures !poolUnlocked
    {
      poolUnlocked := false;
    }

    // -------------------------------------------------------------------
    // The draw round. checked is the set of ticked platform checkboxes,
    // target the number typed into the winner count field (1 to 100),
    // pick the index random.choice returns.

    /** The start button (app.py:313-332) and the first spin of the rerun
        it forces (app.py:376-380): rolling starts on a drawn candidate. */
    method Start(checked: set<string>, target: int, pick: nat)
      requires Valid() && drawUnlocked && 1 <= target <= 100
      requires !StartDisabled(isRolling, |Eligible(pool, checked, finalWinners)|, |finalWinners|,
                              target, TotalSelected(pool, checked))
      requires pick < |Eligible(pool, checked, finalWinners)|
      modifies this`isRolling, this`current
      ensures Valid() && isRolling
      ensures current == Eligible(pool, checked, finalWinners)[pick]
      ensures current in Eligible(pool, checked, finalWinners)
    {
      StartEnabled(pool, checked, finalWinners, target);
      isRolling := true;
      var eligible := Eligible(pool, checked, finalWinners);
      current := eligible[pick];
    }

    /** One pass of the spin loop (app.py:376-380): while rolling, the
        candidate on display is redrawn from the eligible orders. */
    method Spin(checked: set<string>, pick: nat)
      requires Valid() && drawUnlocked && isRolling
      requires pick < |Eligible(pool, checked, finalWinners)|
      modifies this`current
      ensures Valid()
      ensures current == Eligible(pool, checked, finalWinners)[pick]
      ensures current in Eligible(pool, checked, finalWinners)
    {
      var eligible := Eligible(pool, checked, finalWinners);
      current := eligible[pick];
    }

    /** The select button (app.py:336-348): rolling stops and the
        candidate on display, unless blank, joins the round's picks with
        the selection time now. */
    method Select(now: string)
      requires Valid() && drawUnlocked && isRolling
      modifies this`isRolling, this`finalWinners
      ensures Valid() && !isRolling
      ensures finalWinners == if current.order != "" then old(finalWinners) + [Winner(current.order, current.platform, now)]
                              else old(finalWinners)
    {
      isRolling := false;
      if current.order != "" {
        AppendKeepsDistinct(finalWinners, Winner(current.order, current.platform, now));
        finalWinners := finalWinners + [Winner(current.order, current.platform, now)];
      }
    }

    /** The round reset button (app.py:350-357), enabled once a pick exists. */
    method ResetRound()
      requires Valid() && drawUnlocked && finalWinners != []
      modifies this`finalWinners, this`isRolling
      ensures Valid() && finalWinners == [] && !isRolling
    {
      finalWinners := [];
      isRolling := false;
    }

    /** The script of the draw page stays in the spin loop (app.py:376-389)
        while rolling with a candidate to draw, so the widgets placed
        after it (the confirm button and the ledger reset) are not shown. */
    predicate Spinning(checked: set<string>)
      reads this
      requires pool.Valid()
    {
      isRolling && |Eligible(pool, checked, finalWinners)| > 0
    }

    /** The confirm button (app.py:407-447), shown once the round holds
        target picks and the spin loop is not running. With save ticked the picks whose order number the
        ledger lacks are appended in round order, the old records kept;
        added reports whether any was. The round is cleared either way. */
    method Confirm(checked: set<string>, target: int, save: bool) returns (added: bool)
      requires Valid() && drawUnlocked && !Spinning(checked)
      requires 1 <= target <= 100 && |finalWinners| == target
      modifies this`winners, this`finalWinners, this`current
      ensures Valid()
      ensures winners == if save then Committed(old(winners), old(finalWinners)) else old(winners)
      ensures winners == if save then old(winners) + NewPicks(old(winners), old(finalWinners)) else old(winners)
      ensures added <==> |winners| > |old(winners)|
      ensures DistinctOrders(old(winners)) ==> DistinctOrders(winners)
      ensures forall k :: 0 <= k < |old(finalWinners)| && save ==> HasOrder(winners, old(finalWinners)[k].order)
      ensures finalWinners == [] && current == Candidate("", "")
    {
      added := false;
      if save {
        var ledger, picks := winners, finalWinners;
        CommitAppendsNewPicks(ledger, picks);
        if DistinctOrders(ledger) {
          CommitKeepsDistinct(ledger, picks);
        }
        CommitCovers(ledger, picks);
        winners, added := Commit(ledger, picks);
      }
      finalWinners := [];
      current := Candidate("", "");
    }

    // -------------------------------------------------------------------
    // Ledger reset, two steps (app.py:449-533), placed after the spin
    // loop. The file writes are not part of this model.

    method RequestResetHistory(checked: set<string>)
      requires Valid() && drawUnlocked && !Spinning(checked) && !resetHistoryConfirmed
      modifies this`resetHistoryConfirmed
      ensures Valid()
      ensures resetHistoryConfirmed
    {
      resetHistoryConfirmed := true;
    }

    method ConfirmResetHistory(checked: set<string>)
      requires Valid() && drawUnlocked && !Spinning(checked) && resetHistoryConfirmed
      modifies this`winners, this`resetHistoryConfirmed
      ensures Valid() && winners == [] && !resetHistoryConfirmed
    {
      winners := [];
      resetHistoryConfirmed := false;
    }

    method CancelResetHistory(checked: set<string>)
      requires Valid() && drawUnlocked && !Spinning(checked) && resetHistoryConfirmed
      modifies this`resetHistoryConfirmed
      ensures Valid()
      ensures !resetHistoryConfirmed
    {
      resetHistoryConfirmed := false;
    }

    // -------------------------------------------------------------------
    // Pool imports (app.py:652-769)

    /** process_orders (app.py:652-702): the pool becomes the built map
        when the guard of app.py:688 holds and is kept otherwise. */
    method ProcessOrders(mode: Mode, pairs: seq<(string, string)>) returns (stats: ImportStats, swapped: bool)
      requires Valid() && poolUnlocked
      modifies this`pool
      ensures Valid()
      ensures pool == ApplyImport(old(pool), mode, pairs)
      ensures stats == ImportFrom(StartPool(old(pool), mode), pairs).1
      ensures stats.added + stats.duplicates + stats.errors == |pairs|
      ensures swapped == Swaps(mode, |pairs|, stats)
      ensures !swapped ==> pool == old(pool)
      ensures mode == Append ==> TotalOrders(pool) == TotalOrders(old(pool)) + stats.added
      ensures mode == Replace && swapped ==> TotalOrders(pool) == stats.added
    {
      var built;
      built, stats := BuildImport(pool, mode, pairs);
      ApplyImportTotal(pool, mode, pairs);
      swapped := stats.added > 0 || (mode == Replace && |pairs| > 0);
      if swapped {
        pool := built;
      }
    }

    /** The text import button (app.py:745-769): a blank text is
        refused, a text without a single record reaches no import, and
        otherwise the parsed records go to process_orders. */
    method ImportText(mode: Mode, text: string) returns (outcome: TextImportOutcome)
      requires Valid() && poolUnlocked
      modifies this`pool
      ensures Valid()
      ensures outcome.BlankText? <==> forall i :: 0 <= i < |text| ==> IsSpace(text[i])
      ensures outcome.NoRecords? <==> !outcome.BlankText? && ParsedText(text) == []
      ensures pool == if ParsedText(text) == [] then old(pool) else ApplyImport(old(pool), mode, ParsedText(text))
      ensures outcome.Imported? ==> outcome.stats == ImportFrom(StartPool(old(pool), mode), ParsedText(text)).1
      ensures outcome.Imported? ==> outcome.swapped == Swaps(mode, |ParsedText(text)|, outcome.stats)
    {
      if Trim(text) == "" {
        BlankTextParsesEmpty(text);
        outcome := BlankText;
      } else {
        var pairs := ParseImportText(text);
        if pairs == [] {
          outcome := NoRecords;
        } else {
          var stats, swapped := ProcessOrders(mode, pairs);
          outcome := Imported(stats, swapped);
        }
      }
    }

    // -------------------------------------------------------------------
    // Save the pool as the start-up pool, two steps (app.py:771-810).

    method RequestSave()
      requires Valid() && poolUnlocked && !confirmSave
      modifies this`confirmSave
      ensures Valid()
      ensures confirmSave
    {
      confirmSave := true;
    }

    /** saved is the pool handed to save_initial_order_pool; the write
        itself is not part of this model. */
    method ConfirmSave() returns (saved: Pool)
      requires Valid() && poolUnlocked && confirmSave
      modifies this`confirmSave
      ensures Valid()
      ensures saved == pool && !confirmSave
    {
      saved := pool;
      confirmSave := false;
    }

    method CancelSave()
      requires Valid() && poolUnlocked && confirmSave
      modifies this`confirmSave
      ensures Valid()
      ensures !confirmSave
    {
      confirmSave := false;
    }

    // -------------------------------------------------------------------
    // Pool reset, two steps (app.py:812-903).

    method RequestResetPool()
      requires Valid() && poolUnlocked && !resetConfirmed
      modifies this`resetConfirmed
      ensures Valid()
      ensures resetConfirmed
    {
      resetConfirmed := true;
    }

    /** The pool becomes the six default platforms with no orders. */
    method ConfirmResetPool()
      requires Valid() && poolUnlocked && resetConfirmed
      modifies this`pool, this`resetConfirmed
      ensures Valid() && pool == DefaultPool() && TotalOrders(pool) == 0 && !resetConfirmed
    {
      pool := DefaultPool();
      resetConfirmed := false;
    }

    method CancelResetPool()
      requires Valid() && poolUnlocked && resetConfirmed
      modifies this`resetConfirmed
      ensures Valid()
      ensures !resetConfirmed
    {
      resetConfirmed := false;
    }
  }
}
