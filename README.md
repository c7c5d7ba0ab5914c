# dailyfresh storefront: order, cart and catalogue bookkeeping in Dafny

This project models the request handlers of the dailyfresh storefront (a
Django shop for fresh produce) that keep its books:

- the order page and the two order-commit handlers: one locks each unit's row (pessimistic), one uses a compare-and-swap with up to three attempts (optimistic);
- payment confirmation against the gateway's trade query;
- writing review comments into an order's lines;
- the per-user cart hash: add, update, delete, view;
- the catalogue pages: sort order, page normalisation, the five-link page window, the cart badge and the "recently viewed" list;
- the user centre: login, the order list with its line amounts, and adding a delivery address.

The relational tables are maps and sequences held by a `Database` object
(`store.dfy`). The Redis cart hash is a `CartHash` object holding a map. The
history list is a `History` object holding a sequence. A savepoint is a
snapshot of the written tables, and a rollback restores it.

Each handler that changes state is a method. Each method is proved equal to
a function of the old state and the request. The properties the handlers
promise are lemmas about those functions.

The commit functions take a flag `strict`:

- `strict = false` is the code as written;
- `strict = true` is the evidently intended code.

The lemmas in `checkout_proofs.dfy` prove the intended code all-or-nothing
and exact. They also prove that the written code agrees with it on every
run except the ones listed under "## Findings".

Money is an integer number of the smallest currency unit, as the source's
decimals are never fractional in these handlers. Unit, user and address
ids are natural numbers. Counts read from the cart are unbounded integers:
`int()` accepts a negative count, and so does the model.

Concurrency in the optimistic commit is a parameter `writes`. Each
compare-and-swap attempt that reaches the UPDATE consumes one entry: `Some(v)`
means another transaction stored stock `v` just before the update, and `None`
means no concurrent write.

The effect of the shortfall branch depends on whether the database checks
the order-line foreign key at once (parameter `FkCheck.Immediate`) or at
commit (`FkCheck.Deferred`). The shortfall branch rolls back the header and
then goes on inserting lines.

Where the design documents and the code disagree, the model follows the code:

- the address of a commit is looked up by id only, not checked to belong to the customer;
- a confirmed payment moves the order from unpaid (1) straight to awaiting review (4);
- a review completes the order (5) whatever its status was;
- the login handler has a branch for a known but inactive account, although the default authentication backend of the framework already refuses inactive accounts. The model keeps the branch, with the authentication result as a parameter.

## Model

| member | source | states |
|---|---|---|
| Cart.CheckRequest | apps/cart/views.py:16-35 | not logged in gives 0; a missing unit id or count gives 1; an unknown unit gives 2; a count that does not parse as an integer gives 3, exactly; otherwise the request is accepted and carries that integer |
| Cart.CartHash.SumValues | apps/cart/views.py:128-133 | the loop over HVALS returns the sum of all counts in the cart |
| Cart.CartHash.Add | apps/cart/views.py:12-55 | the refusals of the request checks change nothing; the stored count plus the requested one is refused with 4 if it exceeds the stock; otherwise it is stored and the answer is 5 with the number of distinct units |
| Cart.CartHash.Update | apps/cart/views.py:94-135 | the requested count replaces the stored one unless it exceeds the stock (4); the answer is 5 with the sum of all counts afterwards |
| Cart.CartHash.Delete | apps/cart/views.py:139-172 | 0 when not logged in, 1 without a unit id, 2 for an unknown unit, each without change; otherwise the entry is removed and the answer is 3 with the sum of the remaining counts |
| Cart.CartHash.DeleteAll | apps/order/views.py:180-181 | HDEL of the ordered units removes exactly those entries |
| Cart.CartHash.Info | apps/cart/views.py:60-89 | the cart page is shown exactly when every unit in the cart exists, with the total count and the total of price times count over the cart |
| Cart.AddCountsDistinctUnits | apps/cart/views.py:50-53 | after an add the number of distinct units grows by one exactly when the unit was not in the cart |
| Cart.UpdateTotal | apps/cart/views.py:126-133 | an update changes the total count by the new count minus the old one |
| Cart.DeleteTotal | apps/cart/views.py:163-170 | a delete lowers the total count by exactly the removed unit's count |
| Checkout.Validate | apps/order/views.py:82-101 | nothing is written unless the user is logged in, addr_id, pay_method and sku_ids are all present, the pay method is known and the address exists, checked in that order: each of the answers 0, 1, 2, 7 is given exactly when its check is the first to fail |
| Checkout.PlaceOrder | apps/order/views.py:24-70 | no selected unit goes back to the cart; a unit missing from the catalogue or the cart is a server error; otherwise each unit is listed with its price, cart count and subtotal, the totals are their sums, and the amount due adds the fixed fee of 10 |
| Checkout.LockedCommitOpens | apps/order/views.py:105-131 | a valid request with an order id not yet taken inserts the header with zero totals, runs the loop over the units from the savepoint, then closes the order |
| Checkout.ReserveLocked | apps/order/views.py:132-166 | one pass of the locked loop leaves exactly the tables, totals and early answer that one `LockedStep` gives: 3 for an unknown unit, 4 for a unit missing from the cart, the shortfall rolled back but not returned, then the line booked and the stock moved to sales |
| Checkout.ReserveAllLocked | apps/order/views.py:131-166 | the loop over the selected units leaves exactly what `LockedLoop` gives from zero totals, stopping at the first answer |
| Checkout.CommitLocked | apps/order/views.py:80-182 | the pessimistic commit leaves exactly the answer, tables and cart that the function `LockedCommit` gives for the old tables and cart, with the address table unchanged |
| Checkout.TryReserve | apps/order/views.py:245-291 | one pass of the retry loop body equals one `CasTry` step on the current tables |
| Checkout.CasAttemptUnfold | apps/order/views.py:244-291 | a pass that asks for another attempt leaves the unit's remaining attempts to the next pass, and one that stops ends them |
| Checkout.ReserveOptimistic | apps/order/views.py:244-291 | the `for i in range(3)` loop for one unit equals `CasAttempt`, at most three attempts |
| Checkout.CommitOptimistic | apps/order/views.py:192-309 | the optimistic commit leaves exactly what the function `CasCommit` gives, with the address table unchanged |
| Checkout.CasAttempt | apps/order/views.py:244-291 | the attempts for one unit consume at most three of the concurrent writes, from the front, and leave the rest in order |
| Checkout.CasTryConsumes | apps/order/views.py:245-291 | one attempt consumes the first concurrent write or none |
| Checkout.CasLoopStep | apps/order/views.py:243-244 | the optimistic loop handles the first unit's attempts, then the remaining units with the writes left over |
| Checkout.CasCommitOpens | apps/order/views.py:217-243 | a valid request with an order id not yet taken inserts the header with zero totals, runs the optimistic loop from the savepoint, then closes the order |
| Checkout.ReserveAllOptimistic | apps/order/views.py:243-293 | the optimistic loop over the selected units leaves exactly what `CasLoop` gives from zero totals, stopping at the first answer |
| CheckoutProofs.ExtendsNothing | apps/order/views.py:129-131 | a loop over no unit adds no line and nothing to the totals |
| CheckoutProofs.ExtendsChain | apps/order/views.py:131-166 | the lines, totals and sales added for two runs of units in turn are those for the joined run |
| CheckoutProofs.ExtendsByStockWrite | apps/order/views.py:266-275 | a concurrent write of a non-negative stock adds no line and nothing to the totals |
| CheckoutProofs.LockedLoopRefusal | apps/order/views.py:131-150 | once a branch has returned the loop changes nothing more, and an early answer of the loop is 3 or 4 (or 6 when intended) with the tables rolled back to the savepoint |
| CheckoutProofs.LockedCommitAtomic | apps/order/views.py:82-182 | a failed validation writes nothing; any answer other than 5 leaves the tables and the cart as they were; the cart loses the ordered units only on answer 5 |
| CheckoutProofs.BookedCounts | apps/order/views.py:131-166 | what a run books of a unit is its cart count times the number of times the request names it, repeated ids included |
| CheckoutProofs.StrictLockedStep | apps/order/views.py:132-166 | one intended pass that goes on adds the line with the cart count and the current price, rewrites that unit's row alone, lowering its stock and raising its sales by the cart count at the same price, keeps stock non-negative and adds the count and the subtotal to the totals |
| CheckoutProofs.StrictLockedLoop | apps/order/views.py:131-166 | the intended loop either returns early after a rollback or adds exactly one matching line per unit, in order, with the totals being their sums |
| CheckoutProofs.CorrectedLockedCommit | apps/order/views.py:113-182 | the intended pessimistic commit is all-or-nothing; on 5 it adds exactly the matching lines, the header's totals are the sums over them, each unit's stock falls and its sales rise by its cart count once per time the request names it, stock stays non-negative and the cart loses the ordered units |
| CheckoutProofs.PlacedFromExtends | apps/order/views.py:168-181 | closing a loop that booked exactly the matching line for every selected unit places the order with totals equal to the lines' sums and the units' sales raised by what was booked, and removes those units from the cart |
| CheckoutProofs.MatchingLinesSumToPreview | apps/order/views.py:39-51 | lines matching the selected units sum to the order page's total count and total price |
| CheckoutProofs.PlacedOrderMatchesPreview | apps/order/views.py:163-171 | a placed order's header carries the very totals the order page showed for the same cart and catalogue |
| CheckoutProofs.LockedAsWrittenAgrees | apps/order/views.py:147-150 | the loop as written gives what the intended loop gives on every run the intended loop does not refuse with 6 |
| CheckoutProofs.LockedAsWrittenCommit | apps/order/views.py:80-182 | the commit as written gives what the intended commit gives unless the intended answer is 6 |
| CheckoutProofs.CasAttemptRefusal | apps/order/views.py:244-278 | an early answer of the attempts for a unit is 3 or 4 (or 6 or the contended 4 when intended) with the tables rolled back |
| CheckoutProofs.CasLoopRefusal | apps/order/views.py:243-293 | once a branch has returned the optimistic loop changes nothing more; its early answers are rollbacks as above |
| CheckoutProofs.CasCommitAtomic | apps/order/views.py:194-309 | the optimistic commit validates before writing; any answer other than 5 leaves the tables and the cart as they were |
| CheckoutProofs.CasTryRefusal | apps/order/views.py:245-278 | an attempt that asks again has not answered; one that answers does not ask again, has rolled back to the savepoint, and answers one of the refusals |
| CheckoutProofs.CasAppliesIffUnchanged | apps/order/views.py:266-273 | the conditional update takes effect exactly when the stored stock still equals the value read; otherwise nothing of this unit is booked |
| CheckoutProofs.CasExhausted | apps/order/views.py:273-278 | three conflicting writes exhaust the attempts: as written the tables go back to the savepoint and the loop moves on; as intended the commit answers "contended" |
| CheckoutProofs.StrictCasTry | apps/order/views.py:245-291 | an intended attempt that asks again books nothing; one that ends without an answer books exactly the unit's matching line and keeps stock non-negative when writers do |
| CheckoutProofs.StrictCasAttempt | apps/order/views.py:244-291 | the intended attempts for a unit that do not answer early book exactly its matching line with its count and price, whatever the concurrent writes did before |
| CheckoutProofs.StrictCasLoop | apps/order/views.py:243-293 | the intended optimistic loop either returns early after a rollback or adds one matching line per unit with the totals their sums |
| CheckoutProofs.CorrectedCasClose | apps/order/views.py:243-309 | closing the intended optimistic loop from a fresh header either answers a refusal with the tables and cart as they were, or places the order with exactly the matching lines, totals their sums, sales raised by what was booked, and the ordered units gone from the cart |
| CheckoutProofs.CorrectedCasCommit | apps/order/views.py:225-309 | the intended optimistic commit is all-or-nothing; on 5 it adds exactly the matching lines, the header's totals are their sums, each unit's sales rise by its cart count once per time the request names it, stock stays non-negative and the cart loses the ordered units |
| CheckoutProofs.CasAttemptAsWritten | apps/order/views.py:260-278 | the attempts as written agree with the intended ones unless the intended ones answer 6 or "contended" |
| CheckoutProofs.CasLoopAsWritten | apps/order/views.py:243-293 | the optimistic loop as written agrees with the intended one under the same condition |
| CheckoutProofs.CasAsWrittenCommit | apps/order/views.py:192-309 | the optimistic commit as written gives what the intended one gives unless the intended answer is 6 or "contended" |
| CheckoutProofs.QuietCasTry | apps/order/views.py:245-291 | with no concurrent write an intended attempt never asks again and does exactly what one intended locked pass does |
| CheckoutProofs.QuietCasAttempt | apps/order/views.py:244-291 | with no concurrent write the attempts for a unit do what one locked pass does |
| CheckoutProofs.QuietCasLoop | apps/order/views.py:243-293 | with no concurrent write the optimistic loop equals the pessimistic loop |
| CheckoutProofs.QuietCasCommit | apps/order/views.py:192-309 | with no concurrent write the intended optimistic commit gives exactly the intended pessimistic commit's result |
| CheckoutFindings.ShortfallIsNotReturned | apps/order/views.py:147-150 | one unit out of stock: as written the order is placed with stock -1 (deferred foreign keys) or fails with 4 (immediate); as intended the answer is 6 and nothing changes |
| CheckoutFindings.ShortfallBreaksHeaderTotals | apps/order/views.py:147-171 | a shortfall on the second unit leaves a header totalling 150 over lines totalling 50 |
| CheckoutFindings.ExhaustedRetriesStillPlace | apps/order/views.py:273-278 | as written, for every valid one-unit request whose three attempts each meet a conflicting write (stock allowing the count each time), the order is placed with no line, zero totals and the tables otherwise unchanged, and the unit still leaves the cart |
| CheckoutFindings.ExhaustedRetriesRefused | apps/order/views.py:273-278 | as intended, every such run answers 4 and changes neither the tables nor the cart |
| Payment.Classify | apps/order/views.py:434-455 | a reply means paid exactly for code 10000 with TRADE_SUCCESS, wait exactly for 40004 or 10000 with WAIT_BUYER_PAY, and failure otherwise |
| Payment.FirstDefinite | apps/order/views.py:408-455 | the position of the first reply that is not "wait", with every earlier reply "wait" |
| Payment.CheckPay | apps/order/views.py:373-455 | the handler leaves exactly the answer and order table that `CheckPayOf` gives, polling until the first definite reply; the other tables are unchanged |
| Payment.FirstDefiniteIs | apps/order/views.py:408-455 | a definite reply preceded only by "wait" replies is the first definite one |
| Payment.CheckPayEffect | apps/order/views.py:384-445 | only a confirmation (3) changes anything: it moves that unpaid order to awaiting review with a trade number from a successful reply and leaves every other order as it was |
| Payment.CheckPayIdempotent | apps/order/views.py:386-393 | checking again after a confirmation answers 2 and changes nothing, whatever the gateway says |
| Review.Matching | apps/order/views.py:517 | the positions of exactly the lines of that order for that unit, each once, in increasing order |
| Review.Comment | apps/order/views.py:495-529 | the handler leaves exactly the answer, orders and lines that `CommentOf` gives; units and addresses are unchanged |
| Review.MatchingIgnoresComments | apps/order/views.py:517-524 | writing a comment never changes which lines a slot matches |
| Review.MatchingSameKeys | apps/order/views.py:517 | which lines a slot matches depends only on each line's order and unit |
| Review.CommentsOnlyTouchComments | apps/order/views.py:513-524 | a review pass keeps the number of lines and every field but the comment, and leaves lines of other orders untouched |
| Review.CommentFailsIffAmbiguous | apps/order/views.py:513-524 | the pass fails exactly when some slot names a unit with several lines in the order |
| Review.CompletesWithoutStatusCheck | apps/order/views.py:526-527 | an unpaid order can be reviewed and is then marked completed |
| Paging.NormalizePage | apps/goods/views.py:139-144 | a page that does not parse, or lies beyond the last page, becomes 1; a page from 1 to the last is kept; a page below 1 makes the paginator raise |
| Paging.Range | apps/goods/views.py:158-164 | Python's range(lo, hi): hi - lo consecutive numbers from lo, or none |
| Paging.WindowOfFive | apps/goods/views.py:156-164 | with five pages or more the window is five consecutive existing pages holding the current one |
| Paging.WindowOfFew | apps/goods/views.py:152-158 | with fewer than five pages the corrected window lists every page |
| Paging.WindowOmitsLastPage | apps/goods/views.py:157-158 | as written, with fewer than five pages the last page is missing from the window, and one page gives no link |
| Paging.WindowWithinPages | apps/goods/views.py:156-164 | as written, every link points at an existing page, in increasing order |
| Goods.SelectSort | apps/goods/views.py:126-133 | "price" sorts by ascending price and "hot" by descending sales, exactly; anything else is labelled "default" and sorts by descending id |
| Goods.SortLabelRoundTrip | apps/goods/views.py:126-133 | sending back the label the page shows selects the same order |
| Goods.CartBadge | apps/goods/views.py:46-53 | the badge shows the number of distinct units in the cart when logged in, 0 otherwise |
| Goods.ShowList | apps/goods/views.py:114-185 | unknown category goes to the index; a page below 1 is a server error; otherwise the listing carries the selected order, the normalised page, a window of existing pages and the badge count |
| Goods.Without | apps/goods/views.py:91 | LREM with count 0 removes every occurrence of the unit and keeps every other unit's occurrences |
| Goods.WithoutKeepsOrder | apps/goods/views.py:91 | LREM keeps the remaining units in their order: removing from a joined list removes from each part, and a single unit stays exactly when it is not the one removed |
| Goods.History.Visit | apps/goods/views.py:89-94 | LREM, LPUSH and LTRIM leave the history `AfterVisit` of the old one |
| Goods.VisitProperties | apps/goods/views.py:89-94 | after a visit the unit heads the history exactly once, the history holds one to five units, and the rest are the most recent earlier ones in their old order |
| Goods.VisitKeepsDistinct | apps/goods/views.py:89-94 | a history without repeats stays without repeats |
| Goods.WithoutKeepsDistinct | apps/goods/views.py:91 | removing a unit keeps a list without repeats and adds nothing |
| Goods.VisitIdempotent | apps/goods/views.py:89-94 | visiting the same unit twice in a row is the same as visiting it once |
| Goods.WithoutFirst | apps/goods/views.py:91-92 | removing the unit from a list it heads once leaves the rest |
| Goods.WithoutAbsent | apps/goods/views.py:91 | removing a unit that is not there changes nothing |
| Goods.ShowDetail | apps/goods/views.py:62-105 | an unknown unit goes to the index without change; otherwise the badge count is shown, and the history records the visit exactly when the user is logged in |
| Users.LoginOf | apps/user/views.py:118-150 | logged in exactly when name and password are given and the account is known and active; the redirect goes to `next` or the index; the name cookie is set for one day exactly when remember is "on", and deleted otherwise |
| Users.InactiveNeverLogsIn | apps/user/views.py:130-148 | an inactive account is never logged in |
| Users.LineAmounts | apps/user/views.py:210-214 | one amount per line, each the line's price times its count, adding up to the lines' total price |
| Users.ShowOrders | apps/user/views.py:199-258 | an empty page argument goes to the user centre; a page below 1 is a server error; otherwise the listing has the normalised page, the window of `PageWindow` and the amounts of every line of every order |
| Users.PhonePatternShape | apps/user/views.py:291 | the phone pattern accepts exactly the eleven-digit numbers starting 13, 15, 18, 19, 147 or 179, each also with one trailing newline |
| Users.CheckAddress | apps/user/views.py:289-294 | receiver, address and phone are required, then the phone pattern, then a missing postal code raises and one without six characters is refused; the form passes exactly when all hold |
| Users.AddAddress | apps/user/views.py:281-314 | the handler leaves exactly the answer and address table that `AddAddressOf` gives; the other tables are unchanged |
| Users.SavedDefaultIffNone | apps/user/views.py:296-311 | a saved address is appended; it is the user's default exactly when the user had none, and afterwards the user has one; a refused form changes nothing |
| Users.AddKeepsOneDefault | apps/user/views.py:296-311 | adding addresses keeps every user at one default address at most |

## Left out

- Database, Redis, sessions, templates, JSON and redirect responses are not modelled as I/O. They are the `Database`, `CartHash` and `History` objects and the reply datatypes.
- The gateway is the sequence of its replies; the three-second sleep between polls is not modelled. `Payment.CheckPay` answers StillWaiting (code -1, which the handler never sends) when the replies run out while all say "wait", where the handler would keep polling.
- OrderPayView (building the gateway's payment address) calls the gateway library only and is not part of this model.
- The pay-method table PAY_METHODS is a parameter `payMethods`; apps/order/models.py is not part of this model.
- `Address.objects.get_default_address` is not part of this model. It is taken to return the user's default address if one exists, and `Users.AddAddress` scans the address table for it.
- Non-numeric unit and order-line ids (which make the framework raise) are left out: ids are natural numbers.
- The cart hash and the history list use the unit id text of the request as the field or entry (apps/cart/views.py:50,163; apps/goods/views.py:91-92), while the database, and the add handler when it reads the count already held (apps/cart/views.py:40), use the unit's number, so "1", "01", " 1" and "+1" name one unit. The model keys the cart and the history by the number, so it does not capture one unit held under several fields: with stock 5, adding 5 of "01" and then 5 of "1" passes both stock checks and leaves 10 of that unit in the cart.
- CheckoutProofs.CorrectedCasCommit: states what each unit's sales gained but not how far its stock fell from the starting tables, because concurrent writers set the stock in between. Each successful update lowers the stock it read by the count (CheckoutProofs.CasAppliesIffUnchanged). With no concurrent write, CheckoutProofs.QuietCasCommit makes the commit equal to the pessimistic one, and CheckoutProofs.CorrectedLockedCommit states that commit's stock fall.
- `ParseInt` accepts what Python's `int()` accepts on ASCII text: surrounding white space (what `str.isspace()` holds for, the separators 0x1C-0x1F included), a sign, decimal digits. Underscore separators, non-ASCII digits and non-ASCII white space (such as U+00A0 or U+0085) are left out.
- `Users.PhonePatternShape`: `\d` is taken as an ASCII digit. Python's `\d` also matches other Unicode decimal digits, which the model does not.
- The paginator is not modelled; the page count is a parameter of at least 1.
- RegisterView, ActiveView (token signing), LogoutView, UserInfoView, the GET form of the review page and the pages' static context (categories, banners, new goods, status names) are left out: they hold no bookkeeping.
- The optimistic handler still reads each row with `select_for_update`, which serialises it like the pessimistic one. The model lets concurrent writes land anyway, to show what the compare-and-swap guards against. The handler is also not routed by apps/order/urls.py.
- A concurrent write is recorded in the tables, so a later rollback to the savepoint also removes it. That is an artefact of the model; real rollback keeps other transactions' writes. No lemma depends on the concurrent write surviving.
- CheckoutProofs.CorrectedCasCommit: requires concurrent writers never to store a negative stock, because otherwise the stock can go negative without any fault of the handler.
- The optimistic and pessimistic answers for a primary-key clash of the order id (two orders by one user in the same second) are both modelled as the generic failure 4.

## Findings

| source | as written | input that shows it | evidently intended | confidence | as-written member | corrected member |
|---|---|---|---|---|---|---|
| apps/order/views.py:147-150 (and 260-263) | on a stock shortfall the handler rolls back to the savepoint, builds the answer 6 without returning it, and carries on writing the line and the stock | one unit with stock 0 and cart count 1: with deferred foreign keys the order is placed (5) and the stock becomes -1; with immediate ones the answer is 4; with a second unit in stock before it the header totals 150 over lines totalling 50 | return answer 6 after the rollback, changing nothing | high, not executed | CheckoutFindings.ShortfallIsNotReturned, CheckoutFindings.ShortfallBreaksHeaderTotals | CheckoutProofs.CorrectedLockedCommit |
| apps/order/views.py:273-278 | after the third failed compare-and-swap the handler rolls back and continues with the next unit, then commits and empties the cart | one unit with stock 5 and cart count 2, concurrent writes 4, 3, 2 (or any three writes that each change the stock read before): the order is placed with no line and zero totals and the unit leaves the cart | answer a failure after the rollback, changing nothing | high, not executed | CheckoutFindings.ExhaustedRetriesStillPlace | CheckoutFindings.ExhaustedRetriesRefused, CheckoutProofs.CorrectedCasCommit |
| apps/goods/views.py:157-158 (and apps/user/views.py:244-245) | with fewer than five pages the links are range(1, num_pages), missing the last page | three pages: the links are 1 and 2; one page: no link at all | range(1, num_pages + 1), every page | high, not executed | Paging.WindowOmitsLastPage | Paging.WindowOfFew |
