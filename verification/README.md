# Verified model of the shop backend

A Dafny model of the shop's server (`backend/`, Go) and of its catalog filters
(`frontend/src/lib/productFilters.ts`), with proofs about whole runs. `dafny verify dfyconfig.toml`
checks everything.

## How it is organised

| part | modules |
|---|---|
| token-bucket rate limiter with eviction | `RateLimiter`, `RateWindows` |
| order lifecycle: rows, inventory, coupons, checkout, label job, request handlers | `Orders`, `Stock`, `Coupons`, `Checkout`, `LabelJobs`, `Backend` |
| order lifecycle: steps, what each does, invariants, promises over runs, inventory, sweep schedule, short runs that matter | `Shop`, `ShopEffects`, `ShopInvariants`, `ShopRuns`, `ShopStock`, `LabelSweeps`, `ShopScenarios` |
| shipping: consolidation, quote keys, quote cache | `Packages`, `QuoteKeys`, `QuoteCache` |
| text: SQL placeholders, base64url, signed tokens, BRL prices, `X-Forwarded-For` | `SqlDialect`, `SqlMeaning`, `Base64Url`, `Tokens`, `Prices`, `ClientIp` |
| catalog filters, accounts | `ProductFilters`, `Accounts` |
| shared: options and results, 64-bit integers, sequences, Go string functions | `Wrappers`, `Int64`, `Sequences`, `GoStrings` |

Code that updates state is a class whose methods follow the source statement by statement and are
proved to compute a specification function; the lemmas are about those functions and about arbitrary
sequences of them. `Backend` holds the two stores and one method per request handler; each is proved
to perform exactly one step of `Shop`. `ShopEffects` says column by column what each step does, and
what `ShopRuns` and `ShopStock` prove of every sequence of steps holds of every sequence of handler
calls. Beside the tables the state counts, per order, the payments confirmed, the additions to the
carrier's cart, the writes lost after them, the shipping quoted and, for each line an operator
added, the payments confirmed before it; and it logs every line asked of the inventory with its
order. No step decides anything by these counters.

Conventions: a string is a string of bytes; instants are integer nanoseconds (real seconds in the
limiter); token counts, weights, dimensions and insured values are reals; 64-bit wrap-around is written
out where the source can reach it. A handler, a store statement and a mutex section are atomic. The
answers of upstream services, lost writes and the order of equal rows are inputs of a step, and a run
may choose them freely.

## What the code does not promise

Where the code and its comments or obvious expectations part, the model follows the code, and a lemma
gives the exact condition or a witness:

- The comment in `backend/internal_jobs.go:108-110` says the query's cutoff only holds back freshly
  attempted rows. It hides a row that is already due exactly when the row has no recorded failure and was
  touched less than two minutes ago (`LabelJobs.CutoffHidesExactly`), and a redelivered payment reaches
  that state (`ShopScenarios.DueRowIsHidden`).
- The stock decrement is not once per order: the lines of an unedited order are taken exactly once if and
  only if exactly one payment of it is confirmed (`ShopStock.OrderAsksWhatItOwes`), and a redelivered
  payment takes every line again (`ShopScenarios.RedeliveryTakesTwice`).
- Cart adds outgrow payments and recorded failures exactly by the jobs that lose a write after their cart
  add (`ShopInvariants.JobUncoversExactly`); a checkout and one payment are enough
  (`ShopScenarios.LostWriteUncovers`).
- Under autopay an order can be shipped without a tracking code, exactly when the carrier's order
  information yields none (`ShopInvariants.JobFacts`).
- An operator's add-item has no quantity cap, so an edited order may no longer be packable; it is exactly
  while it has at most 50 lines of at most 20 units (`ShopRuns.UneditedOrdersPack`).
- `cacheKey` is ambiguous exactly for product ids that spell out a field, `text:number|text`
  (`QuoteKeys.KeyAmbiguousExactly`). The quote endpoint accepts such ids, and then answers other, plain
  requests with the wrong quotes (`QuoteCache.WrongHit`).
- Evicting idle rate-limit buckets is unobservable, and the window bound survives it, only if fifteen
  minutes refill a bucket (`RateLimiter.EvictionInvisibleExactly`, `RateWindows.WindowBoundExactly`); the
  deployed 60 tokens at 1 per second satisfy that.
- Rebinding numbers a query's placeholders $1..$n only if no `?` and no `$` is directly followed by a
  digit (`SqlDialect.PlaceholdersAreOneToN`), and keeps its meaning only if no `?` is followed by a digit
  and no `$` by a number other than zero (`SqlMeaning.RebindPreservesMeaningExactly`).
- An operator's added line moves the totals by a 64-bit product; the ledger counts its true worth exactly
  when no line overflows (`ShopRuns.LedgerBalances`).
- A price with more digits than 64-bit cents hold is read modulo 2^64, and what follows the second
  fraction digit is ignored (`Prices.DecimalIsReadTruncated`). `moneyBRL` of the least 64-bit integer
  never returns, so the printer excludes it.
- An order token's lifetime is counted from the whole second it was issued in; an id containing a dot, or
  one the parser would trim, cut or refuse, never round-trips (`Tokens.OrderTokenRoundTrip`). A session
  for a username containing `:` never verifies (`Tokens.SessionRoundTrip`).
- A coupon with a minimum can make a larger cart cheaper than a smaller one checked out without it, exactly
  when it takes more than one cent off a cart that just meets the minimum
  (`Checkout.FillingUpUndercutsExactly`).

## Model

| member | source | states |
|---|---|---|
| RateLimiter.Limiter.Allow | backend/main.go:156-173 | one call leaves the bucket map of the step relation, decides as it does, and keeps every stored count in [0, capacity] |
| RateLimiter.Limiter.Gc | backend/main.go:141-154 | a collection forgets exactly the buckets idle for more than fifteen minutes |
| RateLimiter.LevelLater | backend/main.go:160-167 | lazy refill composes: the level at a later time is the capped trickle on top of the level now, and stays in [0, capacity] |
| RateLimiter.StepLevel | backend/main.go:141-173 | a step costs an address one token exactly when it admits one of its calls; a safe sweep costs nobody anything |
| RateLimiter.RunKeepsBuckets | backend/main.go:156-173 | over any run every stored token count stays in [0, capacity] |
| RateLimiter.WindowBound | backend/main.go:156-173 | over any run without sweeps, or with sweeps when fifteen minutes refill a bucket, the calls of one address admitted in a window never exceed capacity + refill * length |
| RateWindows.WindowBoundExactly | backend/main.go:141-173 | over all runs, sweeps included, every window keeps that bound exactly when fifteen minutes refill a bucket (or the capacity admits no call) |
| RateWindows.SweepBreaksWindow | backend/main.go:141-173 | otherwise an address beats the bound by spending all, sleeping through a sweep and spending all again |
| RateLimiter.DeletedEventsAreFree | backend/main.go:141-173 | in a run without sweeps, or with them when fifteen minutes refill a bucket, deleting any denied calls, any calls of other addresses and any sweeps changes no remaining decision |
| RateLimiter.EvictionUnobservable | backend/main.go:141-173 | with sweeps interleaved anywhere, every decision is that of a limiter that never evicts, if fifteen minutes refill a bucket |
| RateLimiter.EvictionInvisibleExactly | backend/main.go:141-173 | that condition is necessary too (unless the capacity admits no call at all) |
| RateLimiter.SweepShows | backend/main.go:141-173 | when the condition fails there is a run on which a sweep changes a decision |
| Orders.OrderStore.Create | backend/store.go:91-143 | refuses a missing or taken id; otherwise stores the row with lines numbered from 1 and touches no other |
| Orders.OrderStore.ByPaymentIntent | backend/store.go:173-199 | finds some order with the intent, and none only if none has it or it is empty |
| Orders.OrderStore.SetPaymentIntent | backend/store.go:202-211 | changes that one column of that one row, and nothing when the row is missing |
| Orders.OrderStore.SetStatus | backend/store.go:216-225 | overwrites the status whatever it was, and nothing else |
| Orders.OrderStore.SetTracking | backend/store.go:231-245 | stores the shipment, clears the last error, stamps the attempt, keeps the attempt count |
| Orders.OrderStore.MarkAwaitingShipment | backend/store.go:253-268 | moves the row to awaiting shipment under its carrier id and clears the last error |
| Orders.OrderStore.RecordTrackingFailure | backend/store.go:274-292 | one more attempt, with its error and time |
| Orders.OrderStore.AddItem | backend/store.go:304-350 | refuses a non-positive quantity or missing order; otherwise appends one line after the highest number and moves the totals, only when asked, by the 64-bit product of price and quantity |
| Orders.WorthIsExact | backend/store.go:331-339 | that computed worth of lines is never more than their true worth, and equals it exactly when no line overflows |
| Orders.AddedItem | backend/store.go:304-350 | adding an item keeps lines numbered 1, 2, 3, ... and moves both totals by exactly what the lines' worth grows |
| Orders.MaxLineIsHighest | backend/store.go:314-318 | the number after which a line is added is the highest there is, or 0 |
| Orders.OrderStore.ListPendingLabels | backend/store.go:358-400 | returns distinct paid, untracked, not exhausted rows past the cutoff, fewest attempts then oldest first, and leaves one out only for the limit and only if all returned ones precede it |
| Orders.OrderStore.FirstOf | backend/store.go:374-378 | the row that comes first in the query's order |
| Orders.PendingListIsListing | backend/store.go:358-400 | the query's answer by its columns: paid, untracked, under the limit of attempts, not after the cutoff, fewest attempts then oldest first, as many as the limit allows |
| Orders.OrderStore.DeleteOrder | backend/store.go:466-487 | removes that row or reports it missing |
| LabelJobs.LabelBackoff | backend/label_job.go:281-295 | the doubling loop computes min(2^k, 60) minutes, and 0 before the first failure |
| LabelJobs.BackoffMonotone | backend/label_job.go:281-295 | the delay never shrinks as failures grow |
| LabelJobs.CutoffHidesExactly | backend/store.go:372-378 | the query hides a due row exactly when it has no failures and was touched less than two minutes ago |
| LabelJobs.WrapAndRecord | backend/label_job.go:265-275 | stamps the failure on the row, unless that write is lost, and returns the failed stage either way |
| LabelJobs.RunLabelJob | backend/label_job.go:82-253 | performs the job on the row and reports its error, or that labels are not configured, the id is empty or the order is missing |
| LabelJobs.JobBeforeCart | backend/label_job.go:86-200 | an unconfigured job, or one whose order is unpaid or tracked, leaves the row alone; otherwise the first of loading, packing, address, sender and cart that fails is recorded and ends it |
| LabelJobs.FinishLabel | backend/label_job.go:205-252 | the stages after the order is in the carrier's cart |
| LabelJobs.JobAfterCart | backend/label_job.go:205-252 | after the cart add: without autopay the order awaits shipment if that is saved; with autopay the first of buying, generating, printing and saving that fails is recorded, and only if all go well is the shipment stored and the order shipped |
| LabelJobs.JobShipsExactly | backend/label_job.go:205-252 | a job ships an order exactly with autopay, a label bought, generated, printed and saved, and the flip written; it leaves it awaiting exactly without autopay and with that saved |
| Stock.ProductsStore.DecrementStockBySize | backend/products_store.go:120-178 | takes what the shelf can give, never below zero, and returns the rest; a per-size row never falls back to the total |
| Stock.ProductsStore.DecrementLines | backend/payments.go:388-397 | takes the lines one after another, in order |
| Stock.LinesAreOneBatch | backend/products_store.go:120-178 | after any lines each shelf holds max(0, start - asked), the remainders sum to max(0, asked - start), nothing is negative and no size or row kind changes |
| Stock.TotalFollowsSizes | backend/products_store.go:148-165 | the total column falls by exactly what the sizes do, and stays their sum once it is |
| Stock.LineOrderIrrelevant | backend/products_store.go:120-178 | any permutation of the lines leaves the same row |
| Stock.ProductsAreIndependent | backend/payments.go:382-398 | a product ends as if only its own lines had been taken; no product appears or disappears |
| Stock.NormalizeStockBySize | backend/products_store.go:274-287 | the loop builds one clamped entry per listed size, and no other |
| Stock.NormalizeIsProjection | backend/products_store.go:274-287 | exactly the listed sizes, values in range kept and others moved to 0 or 10000, normalising again changes nothing, and a map is unchanged exactly when it already has those keys and range |
| Coupons.Draft.Validate | backend/coupons.go:76-108 | trims and normalises the draft's fields in place, or reports the first rule it breaks |
| Coupons.ValidatedIsValid | backend/coupons.go:76-108 | an accepted draft satisfies every coupon rule and validating it again changes nothing |
| Coupons.ValidatedExactly | backend/coupons.go:76-108 | a draft is accepted exactly when its code normalises and its value, minimum, limit, window and note are in range; only code and a free-shipping value change |
| Coupons.EligibleExactly | backend/coupons.go:113-127 | a coupon is usable exactly when active, within its window and not used up, and otherwise refused for the first of these |
| Coupons.ApplyCoupon | backend/coupons.go:132-164 | the discount of each kind in Go's 64-bit arithmetic, or the error |
| Coupons.CouponConserves | backend/coupons.go:132-164 | applies exactly when the minimum is met; then discount and charge are non-negative and split subtotal, shipping and total exactly, a percentage is rounded down, a fixed amount is capped by the subtotal, free shipping touches only shipping, and nothing overflows |
| Coupons.ChargeIsMonotone | backend/coupons.go:132-164 | from the minimum on, a larger subtotal is never charged less, rounding included |
| Checkout.FillingUpUndercutsExactly | backend/main.go:863-898 | below its minimum a coupon is refused; filling a cart up to the minimum never costs less than a smaller cart without the coupon exactly when the coupon takes at most one cent off a cart that just meets the minimum |
| Checkout.PriceCart | backend/main.go:787-845 | prices the lines in order and adds them up, or gives the refusal of the first bad line |
| Checkout.PricedIfServable | backend/main.go:787-845 | a cart is priced exactly when every line can be served, and refused for its first line that cannot |
| Checkout.PricedLines | backend/main.go:832-844 | every line of an accepted cart keeps the customer's product, size, color and quantity, under the catalog's name, at its Pix price for Pix and its full price for card |
| Checkout.CheckLine | backend/main.go:790-831 | the checks of one line, in order |
| Checkout.RefusedExactly | backend/main.go:790-831 | a line is refused exactly for a quantity outside 1 to 20, an unknown product, a size the product does not come in, or too little stock of that size or in all |
| Checkout.ChargeCart | backend/main.go:863-898 | charges in full without a coupon, refuses an unusable coupon, otherwise charges what it leaves |
| Checkout.PlaceOrder | backend/main.go:715-933 | builds the pending order row, or the first refusal |
| Checkout.PlacedExactly | backend/main.go:715-933 | checkout accepts exactly 1 to 50 servable lines with a shipping price up to 500000 cents and, if one is asked for, a coupon that is usable and whose minimum is met; the pending order carries what was asked for and what the coupon leaves of subtotal and shipping |
| Checkout.PricedExactly | backend/main.go:787-845 | for a valid catalog the 64-bit total is the true worth of the lines, and every line is in range |
| Checkout.PlacedOrderBalances | backend/main.go:787-933 | amount = total + shipping; total + shipping + discount = worth of the lines + quoted shipping; all are non-negative; the order can be packed |
| Checkout.PackableExactly | backend/shipping.go:452-464 | stored lines pack exactly when there are at most 50 of at most 20 units |
| Backend.Backend.Enqueue | backend/label_job.go:61-74 | one label job on one order, its error not propagated |
| Backend.Backend.DecrementOrderStock | backend/payments.go:382-398 | takes all stored lines of the order from the inventory |
| Backend.Backend.Settle | backend/admin_orders.go:630-642 | paid, then stock, then label, in that order |
| Backend.Backend.HandleCheckout | backend/main.go:702-950 | performs the checkout step: a new pending order, or nothing changes |
| ShopEffects.CheckoutEffect | backend/main.go:702-950 | an accepted order is stored under its new id with lines numbered from 1; a refused one, or one without a new id, changes nothing |
| Backend.Backend.HandlePaymentsIntent | backend/payments.go:199-229 | refuses a missing or already paid order and reports a failing provider; otherwise links the intent, unless that write is lost |
| ShopEffects.IntentEffect | backend/payments.go:199-229 | each refusal under exactly its condition; only the intent of that row changes |
| Backend.Backend.ApplyOrderStatus | backend/payments.go:405-446 | finds the order by metadata, else by intent; links a missing intent; overwrites the status |
| Backend.Backend.HandlePaymentsWebhook | backend/payments.go:356-373 | performs the webhook step for each event kind, redelivered or not |
| ShopEffects.WebhookEffect | backend/payments.go:356-446 | an ignored event or one about no order does nothing; else a missing intent is linked and, if the status can be written, a failed or canceled payment leaves that row failed and otherwise as it was, and a successful one settles it |
| ShopEffects.PaidEffect | backend/payments.go:356-371 | a settled order is paid, its lines leave the inventory, its label job runs on the paid row, and no other order changes |
| ShopEffects.ResolvesExactly | backend/payments.go:405-431 | an event is about the order its metadata names, else one with its payment intent, else none |
| ShopEffects.FailedExactly | backend/payments.go:369-370 | over any run that does not delete it an order is failed exactly if a failed or canceled payment of it was written and nothing since confirmed a payment of it or shipped it |
| Backend.Backend.AdminMarkPaid | backend/admin_orders.go:599-652 | settles pending Pix orders only |
| ShopEffects.MarkPaidEffect | backend/admin_orders.go:599-652 | each refusal under exactly its condition; pending Pix orders are settled |
| Backend.Backend.FindSize | backend/admin_orders.go:740-753 | the catalog's spelling of the first size that matches |
| ShopEffects.FirstMatch | backend/admin_orders.go:740-753 | the spelling of the first size that folds to the requested one, and none exactly if no size does |
| Backend.Backend.AdminAddOrderItem | backend/admin_orders.go:676-789 | refuses in the source's order of checks; otherwise adds the line at the right price and takes it from the inventory |
| ShopEffects.AddItemRefused | backend/admin_orders.go:676-753 | each refusal under exactly its condition, and then nothing changes |
| ShopEffects.AddItemEffect | backend/admin_orders.go:740-789 | one line more, named and spelled by the catalog, free as a gift and otherwise at the Pix price for a Pix order that has one and the full price for others; totals grow by its cost and its units leave the inventory |
| Backend.Backend.PersistItem | backend/admin_orders.go:774-782 | the line is stored, then its units leave the inventory |
| Backend.Backend.AdminRefreshTracking | backend/admin_orders.go:434-518 | ships the order once the carrier has issued a code, and otherwise changes nothing |
| ShopEffects.RefreshEffect | backend/admin_orders.go:434-518 | each answer under exactly its condition; only a newly issued and saved code changes the row, to tracked and, if written, shipped |
| Backend.Backend.AdminMarkShipped | backend/admin_orders.go:529-583 | ships an order under a non-empty code |
| ShopEffects.MarkShippedEffect | backend/admin_orders.go:529-583 | each answer under exactly its condition; a saved code makes the row tracked and, if written, shipped |
| Backend.Backend.AdminDelete | backend/admin_orders.go:331-343 | removes the order |
| ShopEffects.DeleteEffect | backend/admin_orders.go:331-343 | that row is gone and every other is as it was |
| Backend.Backend.HandleProcessLabels | backend/internal_jobs.go:111-140 | performs the sweep step over rows the query may return; scanned = succeeded + failed + skipped, skipped counts the rows cooling down and succeeded lists the rows whose job reports no error |
| ShopEffects.SweepEffect | backend/internal_jobs.go:121-139 | a sweep runs the job of exactly the picked rows whose own delay has passed, on the row the query saw; every other row stays as it was |
| ShopEffects.SucceededExactly | backend/internal_jobs.go:121-139 | a picked row is listed as succeeded exactly if it was not cooling down and its job reports no error |
| Backend.Backend.VisitRow | backend/internal_jobs.go:124-139 | skips a row that is cooling down, else runs its job; other rows are untouched |
| ShopInvariants.JobFacts | backend/label_job.go:100-252 | a label job leaves the sale alone, adds to the cart exactly when nothing stops it before, covers that add by leaving paid, a recorded failure or a lost write, keeps a tracking code, and ships without a code exactly as an autopay job told none |
| ShopInvariants.JobUncoversExactly | backend/label_job.go:196-252 | one job makes cart adds outgrow payments and failures exactly when it loses a write after its cart add |
| ShopInvariants.StepKeeps | backend/store.go:91-487 | every step keeps every order's cover, ledger, lines and carrier id in order, and moves surviving rows only forward |
| ShopRuns.OrdersOnlyEvolve | backend/store.go:202-350 | over any run an undeleted order stays, keeps its terms, and never loses a line, an attempt or a tracking code nor returns to pending payment |
| ShopRuns.CartAddsAreCovered | backend/label_job.go:100-252 | in every reachable state, autopay on or off at each job: cart adds + (1 if paid) <= paid events + failed attempts + writes lost after a cart add |
| ShopRuns.CartAddsArePaidFor | backend/label_job.go:100-252 | over any run in which no job loses a write after its cart add: cart adds + (1 if paid) <= paid events + failed attempts |
| ShopScenarios.LostWriteUncovers | backend/label_job.go:196-252 | after any accepted checkout and one payment the bound is broken exactly when the label job loses a write after its cart add: a failure record, or an autopay flip |
| ShopRuns.LedgerBalances | backend/store.go:304-350 | in every reachable state the charged amount is items plus shipping, and with the discount it is the computed worth of the stored lines plus the quoted shipping, which is the true worth exactly when no line overflows; lines are numbered 1, 2, 3, ... |
| ShopRuns.UneditedOrdersPack | backend/label_job.go:344-350 | every reachable order not edited by an operator can be packed; an edited one exactly within 50 lines of 20 units |
| ShopRuns.StatusesAreBacked | backend/label_job.go:210-242 | in every reachable state awaiting shipment has a carrier id; and, unless an autopay job shipped without being told a code, shipped has a tracking code |
| ShopStock.StepAsks | backend/payments.go:356-398 | every step asks the inventory for the stored lines of an order whose payment it confirms, or for the one line it appends to an order, and otherwise for nothing; it counts a payment exactly when it confirms one |
| ShopStock.OrderAsksWhatItOwes | backend/payments.go:382-398 | over any run, what was asked for an undeleted order is, if unedited, its stored lines once per confirmed payment, so exactly once if and only if one was confirmed; if edited, each checkout line once per payment and each added line once more than the payments after it |
| ShopStock.StockAfterRun | backend/payments.go:382-398 | after any run each shelf holds max(0, opening - units asked), nothing is negative, products are the same and balanced totals still balance |
| ShopStock.ShelvesHoldWhatIsNotDue | backend/payments.go:382-398 | after any run without deletions each shelf holds max(0, opening - the sum over all orders of what their lines are due by their counts of confirmed payments) |
| ShopScenarios.RedeliveryTakesTwice | backend/payments.go:356-368 | after any accepted checkout, a payment delivered twice takes every line of the order twice, and there is at least one |
| LabelSweeps.RowsWaitUntouched | backend/internal_jobs.go:121-139 | a row a sweep has not reached is as the query saw it |
| LabelSweeps.SweepWaitsForBackoff | backend/internal_jobs.go:111-140 | a sweep does anything for a once-attempted row with k failures, in the row or in the carrier's cart, only min(2^k, 60) minutes after the last attempt, and picks only paid, untracked rows with fewer than eight |
| LabelSweeps.SweepScheduleHolds | backend/internal_jobs.go:111-140 | over any sequence of sweeps an order's failures are spaced by their backoffs and stop at eight; the eighth comes at least 182 minutes after the first |
| LabelSweeps.RedeliveryHidesDueRow | backend/internal_jobs.go:108-116 | a payment redelivered to an order awaiting shipment leaves a row that is due but hidden |
| ShopScenarios.DueRowIsHidden | backend/internal_jobs.go:108-116 | the shop reaches that row from its opening: checkout, payment with a label job, and the payment again |
| Packages.BuildPackages | backend/shipping.go:452-480 | the map-and-order loop yields the consolidated packages, or the error of the first bad line |
| Packages.FirstErrorAt | backend/shipping.go:458-464 | the reported error is the one of the earliest bad line |
| Packages.PackedExactly | backend/shipping.go:452-464 | accepted exactly are 1 to 50 lines of 1 to 20 units that name their products; each other cart gets the error of its count or of its first bad line |
| Packages.PresetTable | backend/shipping.go:434-448 | the sides, weight and insured value of each preset product and of any other |
| Packages.MergeVolumes | backend/shipping.go:486-507 | each side of the box is the largest of the packages' same sides, and weight and insurance are the sums over all units |
| Packages.MergedBox | backend/shipping.go:486-507 | the same of the merged shipment of any list |
| Packages.ConsolidationPreservesShipment | backend/shipping.go:452-507 | consolidating gives one package per product, in first-appearance order with summed quantities, and ships the same weight, box and insurance as the separate lines and as any permutation of them |
| QuoteKeys.CacheKey | backend/shipping.go:769-778 | the builder writes zips, then every package's id and quantity, in order |
| QuoteKeys.KeyInjective | backend/shipping.go:769-778 | for digit-only zips and ids that spell out no field (text, colon, number, bar), equal keys mean equal zips and equal (id, quantity) lists |
| QuoteKeys.KeyAmbiguousExactly | backend/shipping.go:769-778 | a package's key is also the key of another list exactly when its id spells out a field |
| QuoteKeys.CollidingCarts | backend/shipping.go:452-507 | every cart of two products shares its key with a cart of one product that the packaging accepts too, and the two never ship the same |
| QuoteCache.Cache.Get | backend/shipping.go:413-421 | answers exactly an entry no older than the lifetime |
| QuoteCache.Cache.Store | backend/shipping.go:423-427 | replaces one entry, stamped now |
| QuoteCache.Cache.Collect | backend/shipping.go:394-411 | drops exactly the expired entries |
| QuoteCache.Cache.HandleQuote | backend/shipping.go:641-664 | answers from the cache when it can; otherwise asks for the merged shipment and stores the answer under its key; the items stay what the calls so far leave |
| QuoteCache.AnswerOutcome | backend/shipping.go:641-664 | a cart that does not pack is refused with the packaging's error; else an entry no older than the lifetime answers; else the carrier, asked for the zips and the merged box |
| QuoteCache.CollectionUnobservable | backend/shipping.go:394-421 | collections anywhere in a run change no lookup |
| QuoteCache.HitIsCorrect | backend/shipping.go:384-427 | however lookups, stores and collections interleave, with ids that spell out no field a hit was answered at most one lifetime ago, as the latest under its key, to a request with the same zips, packages, volume and insurance |
| QuoteCache.CachedAnswersAreTheCarriers | backend/shipping.go:641-664 | over any sequence of quote requests and collections, with such ids, every cached answer is the carrier's own, at most one lifetime earlier, for the same zips and merged shipment |
| QuoteCache.WrongHit | backend/shipping.go:641-664 | a request for an id that spells out a field makes the next request for the two products it reads as, plain ones included, get its quotes from the cache although they ship differently |
| SqlDialect.Rb | backend/sqldialect.go:29-50 | the byte loop renumbers the placeholders for Postgres and leaves other dialects and unmarked queries alone |
| SqlMeaning.RebindPreservesMeaningExactly | backend/sqldialect.go:29-50 | binding any arguments to the numbered placeholders gives the text of binding them to the question marks in order, exactly when no `?` is directly followed by a digit and no `$` by a number other than zero |
| SqlMeaning.RebindPreservesMeaning | backend/sqldialect.go:29-50 | so it does for every query with no `?` and no `$` directly before a digit |
| SqlDialect.PlaceholdersAreOneToN | backend/sqldialect.go:29-50 | the placeholders read back as $1..$n in order exactly when no `?` and no `$` is directly followed by a digit |
| SqlDialect.RebindIdempotent | backend/sqldialect.go:29-50 | rebinding twice is rebinding once |
| Base64Url.DecodeOfEncode | backend/tokens.go:45-46 | unpadded base64url (sections 5 and 3.2 of RFC 4648) decodes back to the bytes encoded |
| Base64Url.SymbolTable | backend/tokens.go:45-46 | the URL-safe alphabet in its order (section 5 of RFC 4648) |
| Base64Url.BlockIsBase64 | backend/tokens.go:45-46 | three bytes are written as one 24-bit number in base 64, highest digit first |
| Base64Url.EncodedLength | backend/tokens.go:45-46 | blocks are written one after another and a short last one without padding (section 3.2 of RFC 4648) |
| Base64Url.ForeignByteRejected | backend/tokens.go:58-70 | text with a byte outside the alphabet, line ends aside, never decodes |
| Tokens.OrderTokenRoundTrip | backend/tokens.go:39-91 | an order token parses back to its id exactly for dot-free trimmed `ord_` ids of at most 64 bytes, from one hour before to 180 days after the second of issue |
| Tokens.AcceptedTokenIsGenuine | backend/tokens.go:51-91 | an accepted order token is a payload and the keyed hash of that very payload, naming the order and a second within the lifetime |
| Tokens.GenuineTokenIsAccepted | backend/tokens.go:51-91 | and every such token is accepted exactly within that lifetime |
| Tokens.SessionRoundTrip | backend/admin_login.go:82-120 | a session verifies to its username exactly for colon-free names until its expiry second |
| Tokens.AcceptedSessionIsGenuine | backend/admin_login.go:94-120 | an accepted session carries the keyed hash of its own name, expiry and user, and has not expired |
| Tokens.GenuineSessionIsAccepted | backend/admin_login.go:94-120 | and every such session is accepted exactly until it expires |
| Prices.ParseBRLCents | backend/shipping.go:544-600 | the loops compute the price reading of JSON numbers and strings |
| Prices.ParsePriceText | backend/shipping.go:555-600 | sign, separator, whole part and fraction are handled as in the source |
| Prices.PriceTextExactly | backend/shipping.go:559-600 | exactly the non-empty texts of an optional minus, digits, and optionally a separator with the end or digits in the next two places are prices |
| Prices.DecimalIsReadTruncated | backend/shipping.go:544-600 | every [-]digits[.,digits] is read, quoted or not, as the sign times the truncation of 100 times its value, exactly when that fits 64 bits, and modulo 2^64 otherwise |
| Prices.PrintedPriceReadsBack | backend/email.go:372-377 | parsing the quoted `moneyBRL(c)` yields c, negatives and amounts under one real included |
| ClientIp.ClientIP | backend/main.go:235-266 | a peer that does not parse or is not trusted is billed whatever the header says; behind a trusted peer the rightmost entry that is neither blank nor trusted is billed, trimmed, and the peer itself if that entry is malformed or there is none |
| ClientIp.BilledExactly | backend/main.go:235-266 | the same of the address as a function of peer and header |
| ClientIp.RightmostDecides | backend/main.go:249-265 | the client is the rightmost entry that is neither blank nor trusted; the walk gives up exactly when that entry is malformed, and finds none exactly when all are skipped |
| ClientIp.PrependedTextIsIgnored | backend/main.go:235-266 | once an entry decides, prepending any text and a comma changes nothing; otherwise the prepended text decides |
| ProductFilters.DeriveFilterBounds | frontend/src/lib/productFilters.ts:24-44 | the loop computes the catalog's bounds |
| ProductFilters.BoundsAreTight | frontend/src/lib/productFilters.ts:24-44 | the options are exactly those some product has, without repetition; the price range is attained at both ends and holds every positive price |
| ProductFilters.OptionsInOrder | frontend/src/lib/productFilters.ts:24-44 | options are listed in the order they are first met |
| ProductFilters.ActiveFilterCount | frontend/src/lib/productFilters.ts:79-94 | one for each of a size, a color, a price below the catalog's maximum and stock being asked for |
| ProductFilters.FilteredExactly | frontend/src/lib/productFilters.ts:55-77 | kept, in order and as often as listed, are exactly the products of a wanted size and color, within both price limits, and in stock where that is wanted |
| ProductFilters.ZeroCountIsIdentity | frontend/src/lib/productFilters.ts:55-94 | with bounds of the full catalog, a zero count filters nothing out of any part of it |
| ProductFilters.PruningIsHarmless | frontend/src/lib/productFilters.ts:55-112 | pruning stale options changes the result exactly when it empties a non-empty selection and some product shown matches the pruned filter |
| Accounts.UserStore.CreateUser | backend/auth_store.go:46-80 | inserts the account or reports the uniqueness rule it breaks; addresses and subjects stay unique |
| Accounts.UserStore.GetUserByEmail | backend/auth_store.go:85-95 | finds the one account with the folded address |
| Accounts.UserStore.GetUserByGoogleSub | backend/auth_store.go:109-118 | finds the one account linked to the subject |
| Accounts.UserStore.LinkGoogleSub | backend/auth_store.go:124-140 | reports a missing account, else refuses a subject another account holds, else links it |
| Accounts.UserStore.FindOrCreateGoogleUser | backend/auth_google.go:233-261 | performs the resolution below and keeps addresses and subjects unique |
| Accounts.LoginEffect | backend/auth_google.go:233-261 | the account linked to the subject as it is; else the one with the address, linked and verified unless it is linked to another; else a new one with what is claimed; and when the login is refused |
| Accounts.RunKeeps | backend/auth_store.go:46-140 | over any run of signups and Google logins addresses and subjects stay unique, accounts stay and a linked subject never changes |
| Accounts.RepeatedLoginSameAccount | backend/auth_google.go:134-261 | logging in again with the same claims, whatever happened in between, gives the same account and changes nothing |

## Left out

- HTTP and JSON plumbing, CORS, logging, emails, settings, migrations and the contact-field validators.
- Upstream services (payments, carrier, address lookup, Google keys) beyond their answers, which are inputs; what a label request sends is not modelled beyond its packages.
- Interleaving inside a handler: handlers are atomic steps, only the limiter and the cache interleave; concurrent label jobs are outside the model.
- Database failures outside the label job and the two shipping handlers; rows whose reading fails.
- Floating-point rounding: token counts, weights and insured values are reals.
- RateLimiter.Limiter.Allow: buckets are values in a map, so aliasing between them is not modelled.
- Orders.OrderStore.AddItem: the database's own addition to the total columns is unbounded.
- Accounts.UserStore.LinkGoogleSub: the empty subject, which no caller passes, is excluded because it stands for NULL here.
- Orders.OrderStore.RecordTrackingFailure: keeps the failed stage in place of the truncated error text.
- LabelJobs.RunLabelJob: the address overrides of the retry endpoint only matter through whether an address resolves.
- Tokens.OrderTokenRoundTrip: the keyed hash is an arbitrary function and nothing is claimed about forging; instants so far off that seconds or nanoseconds overflow are limited as `time.Sub` saturates.
- Prices.ParseBRLCents: JSON strings with escapes go through an arbitrary decoder passed as a parameter.
- Prices.PrintedPriceReadsBack: excludes the least 64-bit integer, on which the printer never returns.
- Accounts.UserStore.CreateUser: lower-casing is an arbitrary function; password hashes and timestamps are not modelled.
- Coupons.Draft.Validate: the normaliser of coupon codes is an arbitrary function.
- ClientIp.ClientIP: parsing addresses and membership in a trusted network are arbitrary functions.
- The coupon use counter, which is incremented outside the order's transaction and is only a soft limit.
- `decrementStock` (backend/products_store.go:184), which has no caller, the event log, and the listing queries of the admin and account pages.
