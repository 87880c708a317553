# Order lottery: a verified model

The application is a single Streamlit script (`app.py`) that runs a prize draw
over e-commerce orders. It keeps an **order pool**, a dict from platform name
(抖音, 天猫, 京东, …) to that platform's list of order numbers, and a **winner
ledger** of committed records (order number, platform, time). It has four pages:

- an order query, which says whether, and under which platform, an order number is in the pool;
- a password-protected draw page. The operator ticks platforms and sets a target count. A
  candidate is spun at random from the eligible orders and selected, until the
  round holds the target number of picks. Confirming the round appends the picks
  to the ledger without repeating an order number;
- a winner query over the ledger;
- a password-protected pool management page. It imports `platform,order` records in
  append or replace mode, and has two-step confirmations for saving the pool
  and for resetting it to the six default platforms.

The model is split into modules:

- `Text`: Python's `strip`, `split('\n')` and `split(',', 1)`.
- `TextImport`: the text-box parser.
- `OrderPool`: the pool as a value, the order query, `process_orders` and the default pool.
- `Ledger`: winner records, the winner query and the commit loop.
- `Draw`: the ticked platforms, the eligible candidates and the start guard.
- `App`: the session state as the class `Session`. Each button handler is a
  method whose `requires` is the condition under which the page shows or
  enables that button.

The pool is a value `Pool(platforms, lists)`: the dict's keys in insertion order
and the map from key to list. The state the handlers change lives in the fields
of `App.Session`.

The pure computations are defined as left folds: `ImportFrom`, `Committed`,
`ParsePairs`, `Eligible`. The loops of the source are methods proved equal to
those folds: `BuildImport`/`AddPair`, `Commit`, `ParseImportText`. The
properties are lemmas about the folds.

The random choice of the spin is the index `pick` passed to `Start` and `Spin`.
A password check receives the digest of the typed password. Selection times are
opaque strings.

Start does two things in one step. It sets `is_rolling`, and it makes the first
random pick of the rerun that `st.rerun()` forces at once (app.py:331-332 and
app.py:376-380). So the candidate on display while rolling was drawn from the
eligible orders of the spin that drew it. Unticking platforms can empty the
eligible list during a round. No spin runs then, and the display area is
recreated empty (app.py:373) with neither branch of app.py:376-391 drawing
into it. The last candidate stays in `current_rolling_order`, not shown, and
can still be selected (app.py:339-346), as the source does.
The invariant `Session.Valid()` keeps is therefore the weaker one that holds
in that case too: the round's order numbers are distinct and non-empty, and
the rolling candidate is not one of them.

While rolling with a candidate to draw, the page's script never leaves the
spin loop (app.py:376-389), so the widgets placed after it are not shown. The
confirm button and the ledger-reset buttons are among them: their methods
require `!Spinning(checked)`.

The start guard compares the target with the number of orders on the ticked
platforms, counting drawn ones (app.py:319), not with the number of eligible
candidates. The same order number can be listed under several platforms, so a
started round can run out of candidates before it reaches the target. The
operator is then left with two ways out. One is the round reset. The other is
lowering the target field (app.py:271-276) to the number of picks, which
brings back the confirm button (app.py:408) once rolling has stopped. The
model keeps this as written: each method takes the target the page holds at
that moment.

## Model

| member | source | states |
|---|---|---|
| `Text.Trim` | app.py:213 | Python's `strip()`: no whitespace (`str.isspace`) at either end, empty exactly when the input is all whitespace, a stripped string is left as it is |
| `Text.TrimIsSlice` | app.py:213 | the stripped text is the slice of the input that starts after its leading whitespace, with only whitespace after it |
| `Text.TrimUnique` | app.py:213 | any stripped slice with only whitespace around it is the stripped text: together with `TrimIsSlice`, `strip()` is fully determined |
| `Text.TrimPadded` | app.py:752 | adding whitespace around a text does not change what it strips to |
| `Text.TrimAroundComma` | app.py:752-758 | stripping `a + "," + b` strips only the left end of `a` and the right end of `b` |
| `Text.TrimKeepsChars` | app.py:752 | stripping keeps every non-whitespace character and adds none |
| `Text.SplitLines` | app.py:750 | `split('\n')`: at least one piece, no piece holds a newline, joining with newlines gives the text back |
| `Text.SplitJoinLines` | app.py:750 | splitting newline-free lines joined by newlines gives the lines back |
| `Text.SplitFirstComma` | app.py:758-759 | `split(',', 1)` yields two parts exactly when the line has a comma; the first part has no comma and part + "," + rest is the line |
| `Text.SplitFirstCommaOf` | app.py:758 | a comma-free first part and any rest (commas allowed) are split back exactly |
| `TextImport.ParseLine` | app.py:752-762 | a line gives a record exactly when it has a comma; both parts are stripped, the platform has no comma, and newline-free lines give newline-free parts |
| `TextImport.ParseLineOf` | app.py:752-761 | a line `a,b` whose `a` has no comma gives exactly the record (strip(a), strip(b)) |
| `TextImport.ParsedText` | app.py:749-762 | the records of a text are all well formed |
| `TextImport.ParsePairs` | app.py:751-762 | at most one record per line, in line order |
| `TextImport.BlankTextParsesEmpty` | app.py:745-750 | a text that is all whitespace yields no records |
| `TextImport.ParsePairsWellFormed` | app.py:750-762 | every record parsed from the text is well formed (stripped parts, comma-free platform, no newline) |
| `TextImport.ParsePairsCount` | app.py:753-762 | the number of records is the number of lines holding a comma: blank and comma-less lines are dropped without a trace |
| `TextImport.ParseImportText` | app.py:749-765 | the parsing loop returns exactly the records of the stripped text, all well formed |
| `TextImport.ParseLines` | app.py:751-762 | the loop over the lines appends, for each line in order, the record that line yields (if any): its result is the records of all the lines |
| `TextImport.ParseRenderedLine` | app.py:752-762 | a well-formed record typed as `platform,order` parses back to itself |
| `TextImport.ParseRenderedLines` | app.py:751-762 | a sequence of such lines parses back to the records, in order |
| `TextImport.ParseRender` | app.py:749-765 | round trip: typing well-formed records one per line and importing hands exactly those records, in order, to process_orders |
| `OrderPool.DefaultPool` | app.py:117-124 | the fallback pool has six distinct platforms, all with empty lists, holding no orders |
| `OrderPool.FirstHolding` | app.py:220-224 | the index of the first platform in key order whose list holds the order, or none when no list does |
| `OrderPool.QueryOrder` | app.py:213-224 | blank input is refused exactly when it is all whitespace; otherwise the stripped input is reported under the first platform in key order that lists it, or not found when none does |
| `OrderPool.StartPool` | app.py:658-665 | the import starts from the current pool in append mode and from an empty dict in replace mode |
| `OrderPool.ImportStep` | app.py:668-685 | one pair keeps the dict well formed and raises exactly one of the three counters by one |
| `OrderPool.ImportStepCounts` | app.py:670-683 | the counter a pair raises: errors exactly when its platform or order is empty, duplicates exactly when it is complete and already listed, added exactly when it is complete and not yet listed |
| `OrderPool.ImportErrors` | app.py:668-685 | the error count is the number of pairs with an empty part, and added + duplicates is the number of the other pairs |
| `OrderPool.ImportStepFacts` | app.py:670-683 | a pair with an empty part is an error and changes nothing; a pair that adds nothing leaves the dict as it was; a complete pair ends up listed; keys and lists only grow at the end; a new platform holds just the pair's order; nothing else appears; duplicate-free lists stay so |
| `OrderPool.ImportFrom` | app.py:658-685 | every pair is counted exactly once: added + duplicates + errors equals the number of pairs |
| `OrderPool.AddPair` | app.py:669-683 | the loop body updates the dict and counters exactly as one step of the import |
| `OrderPool.BuildImport` | app.py:658-685 | the loop builds exactly the map and counters of the import from the mode's start map |
| `OrderPool.ImportKeepsExisting` | app.py:664-683 | existing platforms keep their position and existing lists keep every order in place |
| `OrderPool.ImportKeepsDuplicateFree` | app.py:675-683 | a pool whose lists are duplicate-free stays duplicate-free |
| `OrderPool.ImportNothingAdded` | app.py:679-683 | when nothing was added the built map is the start map |
| `OrderPool.ImportComplete` | app.py:670-681 | every pair with a non-empty platform and order is listed under its platform afterwards |
| `OrderPool.ImportSound` | app.py:670-681 | every order listed afterwards was listed before under the same platform or came in as that pair; a platform the import creates holds an order |
| `OrderPool.ImportStepTotal` | app.py:679-681 | one pair grows the total number of orders by exactly what it adds to the counter |
| `OrderPool.ImportTotal` | app.py:658-685 | the total number of orders grows by exactly the number reported as added |
| `OrderPool.Swaps` | app.py:688 | the guard that installs the built map: something was added, or a replace-mode import had pairs (its effect is stated by `ApplyImportClosedForm`) |
| `OrderPool.ApplyImport` | app.py:688-689 | the pool after process_orders is a well-formed dict; lists free of repeated orders stay so; in append mode every existing platform and every list's orders are kept in place |
| `OrderPool.TotalOrders` | app.py:623 | the total number of orders in the pool: no list is longer, and it is zero exactly when every list is empty |
| `OrderPool.ApplyImportTotal` | app.py:688-694 | the total after process_orders: in append mode the old total plus the added count, after a replace that swaps exactly the added count |
| `OrderPool.ApplyImportClosedForm` | app.py:688-689 | the pool after process_orders is the built map, except that a replace-mode import of no pairs keeps the pool; an append import that adds nothing keeps it too |
| `OrderPool.ImportExample` | app.py:658-685 | records A,1 / A,1 / B,2 from empty give {A: [1], B: [2]} with 2 added, 1 duplicate, 0 errors |
| `Ledger.FirstWithOrder` | app.py:555-559 | the index of the first record with the order number, or none exactly when no record has it |
| `Ledger.QueryWinner` | app.py:547-559 | blank input is refused exactly when it is all whitespace; otherwise the first record whose order number equals the stripped input, or not found when none does |
| `Ledger.Committed` | app.py:417-425 | committing keeps the old ledger as a prefix and adds at most one record per pick |
| `Ledger.Commit` | app.py:416-425 | the commit loop produces the committed ledger, and new_winners_added holds exactly when the ledger grew |
| `Ledger.AppendKeepsDistinct` | app.py:419-424 | appending a record whose order number is new keeps the order numbers distinct |
| `Ledger.CommitKeepsDistinct` | app.py:417-425 | a ledger without repeated order numbers keeps that property, duplicates within the round included |
| `Ledger.CommitCovers` | app.py:417-425 | after the commit every pick's order number is in the ledger |
| `Ledger.CommitNothingNew` | app.py:419 | committing picks whose numbers are all present changes nothing |
| `Ledger.CommitIdempotent` | app.py:414-425 | confirming the same picks a second time adds nothing |
| `Ledger.CommitAppendsNewPicks` | app.py:414-425 | for a round with distinct numbers, the ledger becomes the old records followed by exactly the picks whose numbers it lacked, in round order |
| `Draw.Selected` | app.py:258-268 | the selected platforms are exactly the ticked ones of the pool, without repeats |
| `Draw.SelectedInOrder` | app.py:263-268 | the selection keeps the pool's key order: it is a subsequence of the keys |
| `Draw.TotalSelected` | app.py:289-291 | the orders on the ticked platforms, drawn ones included: never more than the pool's total, and equal to it with every platform ticked |
| `Draw.TotalSelectedNone` | app.py:289-291 | with no platform ticked the total is zero |
| `Draw.TotalSelectedTick` | app.py:289-291 | ticking one more platform raises the total by exactly the length of its list, so the total is the sum of the ticked platforms' list lengths |
| `Draw.SelectedAll` | app.py:263-268 | with every checkbox ticked (their default) the selection is the whole pool in key order |
| `Draw.EligibleFrom` | app.py:297-300 | one platform's candidates are exactly its orders whose number no pick carries; with no picks there is one per order |
| `Draw.EligibleFromInOrder` | app.py:297-300 | one platform's candidates keep the order of its list |
| `Draw.EligibleFromCount` | app.py:297-300 | a platform's candidates repeat an order number exactly as often as its list does, and not at all when a pick carries that number |
| `Draw.EligibleIn` | app.py:295-300 | the candidates over a sequence of platforms are exactly their orders not matching a pick; never more than the orders they hold |
| `Draw.EligibleInCount` | app.py:295-300 | over distinct platforms, each candidate appears exactly as often as its number in its platform's list, unless a pick carries it |
| `Draw.Eligible` | app.py:361-367 | a candidate is exactly an order of a ticked platform whose number matches no pick of the round, whatever the pick's platform; at most the ticked total, equal to it before the first pick |
| `Draw.EligibleCount` | app.py:361-367 | the multiplicity of every candidate: the copies of its number in its platform's list when the platform is ticked and no pick carries the number, zero otherwise |
| `Draw.StartDisabled` | app.py:315-320 | the start button's disabling condition (what an enabled button guarantees is stated by `StartEnabled`) |
| `Draw.StartEnabled` | app.py:315-332 | when the start button is enabled, the three refusals in its handler cannot fire: a platform is ticked, the ticked total exceeds the target, a candidate exists |
| `Draw.EligibleFromShrinks` | app.py:297-300 | one more pick never adds a platform's candidate, and removes at least one when its number was a candidate |
| `Draw.EligibleInShrinks` | app.py:295-300 | the same over a sequence of platforms |
| `Draw.EligibleAfterPick` | app.py:339-367 | after selecting a drawn candidate, the candidates are the old ones less every entry with its number, and strictly fewer |
| `Draw.EligibleExample` | app.py:361-367 | platform A with orders 1, 2, 3 and picks 1 and 2 leaves only 3 to draw |
| `App.Session.constructor` | app.py:162-172 | the session starts with the loaded pool or the default pool, the loaded ledger, no round, nothing unlocked, no flag set |
| `App.Session.UnlockDraw` | app.py:239-246 | the draw page unlocks exactly when the digest of the typed password equals the stored one |
| `App.Session.LockDraw` | app.py:253-255 | the exit button locks the draw page |
| `App.Session.UnlockPool` | app.py:603-611 | the management page unlocks exactly when the digest of the typed password equals the stored one |
| `App.Session.LockPool` | app.py:618-620 | the exit button locks the management page |
| `App.Session.Start` | app.py:315-332 | only when the start guard allows it: rolling starts on a candidate drawn from the eligible orders, the invariant kept |
| `App.Session.Spin` | app.py:376-380 | while rolling, the candidate is redrawn from the eligible orders, the invariant kept |
| `App.Session.Select` | app.py:338-348 | only while rolling: rolling stops, and the candidate with the selection time joins the picks unless its number is blank; the picks stay distinct |
| `App.Session.ResetRound` | app.py:352-357 | only with a pick: the picks are emptied and rolling stops |
| `App.Session.Spinning` | app.py:376-389 | the script is held in the spin loop: rolling with a candidate to draw |
| `App.Session.Confirm` | app.py:408-447 | only with target picks and the spin loop not running: with save the ledger becomes the old records plus the picks it lacked, in round order, covering every pick and staying distinct if it was; added reports growth; the picks and the candidate are cleared either way |
| `App.Session.RequestResetHistory` | app.py:458-461 | only outside the spin loop: the first click only sets the ledger-reset flag |
| `App.Session.ConfirmResetHistory` | app.py:468-527 | only outside the spin loop: confirming empties the ledger and clears the flag |
| `App.Session.CancelResetHistory` | app.py:530-533 | only outside the spin loop: cancelling only clears the flag |
| `App.Session.ProcessOrders` | app.py:652-702 | the pool becomes the built map exactly when the guard holds and is kept otherwise; counters sum to the number of pairs; in append mode the total grows by the added count, and a replace that swaps holds exactly the added orders |
| `App.Session.ImportText` | app.py:744-769 | a blank text is refused, a text without records imports nothing, otherwise the parsed records go through process_orders, and the statistics and swap flag it reports (which pick the message of app.py:688-702) are those of that import |
| `App.Session.RequestSave` | app.py:779-783 | the first click only sets the save flag |
| `App.Session.ConfirmSave` | app.py:789-804 | confirming hands the current pool to the save and clears the flag |
| `App.Session.CancelSave` | app.py:806-810 | cancelling only clears the flag |
| `App.Session.RequestResetPool` | app.py:821-824 | the first click only sets the pool-reset flag |
| `App.Session.ConfirmResetPool` | app.py:831-897 | confirming installs the six default platforms with no orders and clears the flag |
| `App.Session.CancelResetPool` | app.py:900-903 | cancelling only clears the flag |

## Left out

- Streamlit rendering, columns, messages, `st.rerun` and page navigation. Only the state the buttons guard is modelled.
- Reading and writing the JSON files: `load_winners`, `save_winners`, `load_initial_order_pool`, `save_initial_order_pool` and the direct writes in the two reset handlers. The loaded pool and ledger are constructor parameters, and `ConfirmSave` returns the pool it would write. Two of these writes go to unexpected files and are not modelled. The ledger reset writes an empty list to the pool file path, ORDER_POOL_FILE (app.py:482-493). The pool reset writes to a path relative to the working directory (app.py:850-863).
- SHA-256 (`hash_password`) and `st.secrets`: the unlock methods take the digest of the typed password and compare it with stored digests.
- `random.choice`: it is the index `pick`. `time.sleep`: the spin speed is not modelled.
- `datetime`/`pytz`: a selection time is an opaque string passed to `Select`.
- pandas: reading CSV/XLSX uploads, the DataFrame views, sorting by time and the CSV exports (app.py:404-405, app.py:436-443, app.py:570-591, app.py:713-729). The upload path reaches `ProcessOrders` with whatever pairs pandas produced.
- `current_draw_winners` (app.py:175-176, app.py:471): it is written but never read.
- The `except` branches of process_orders (app.py:684-685) and of the text parser (app.py:763-764): they cannot fire on string inputs.
- The pool view's statistics: the active-platform count (app.py:625) and the text they are shown in. `OrderPool.TotalOrders` gives the total they display.
- Draw.Eligible: the order of the whole candidate list (platforms in key order, each platform's orders in list order) is not stated as one clause; `Draw.SelectedInOrder` states the platform order and `Draw.EligibleFromInOrder` the order within a platform. The random pick is a free index, so the order affects no other property.
- The interval between the start click and the first spin of the rerun it forces: a start also makes that first random pick. A stale candidate left from the previous pick therefore cannot be selected right after a start.
- The target count field can be edited between reruns. Each method takes the target the page holds at that moment.

