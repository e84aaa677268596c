# OltinPay: verified model of the money edge and the feeds around it

A Dafny model of the parts of OltinPay where money, prices or history can go wrong, with the proofs
that they do not, and the exact condition wherever a promise only holds under one.
`dafny verify dfyconfig.toml` checks everything.

**The bank protocol** (`Bank*.dfy`). Filing, confirming and rejecting a withdrawal, a fiat deposit, a
reserve attestation, an exchange rate post and the welcome claim run at once, any number of each. Each
writing role has a signer, and roles may share one. `BankModel` is a transition
system: one program counter and one set of local reads per request, and shared between them the
committed tables, one lock table (per-user advisory locks, row locks, in-flight unique keys, signer
locks), the nonce counters and an adversarial chain that may mine, revert or drop a transaction at any
later time. Each SQL statement, lock wait, broadcast, receipt, commit and rollback of the Python code
is one step; every step has its own predicate, which holds its guard and its whole effect. Statements
read under READ COMMITTED (section 13.2.1 of the PostgreSQL 16 manual): each SUM has its own snapshot,
and a guarded UPDATE checks its condition again after a row wait. Advisory locks last to the end of the
transaction (section 13.3.5). `BankInvariant` states the invariant and what a request may rely on while
the others move; `BankLocks`, `BankSums`, `BankRely`, `BankSteps`, `BankChainSteps` and `BankCommits`
prove it step by step; `BankSafety`, `BankMoney`, `BankOnce`, `BankWallets`, `BankAddresses`,
`BankNonces`, `BankProgress` and `BankDrips` draw the conclusions for every run. `BankOutcomes` and
`BankSends` say, over every interleaving and both ways, what each operation decides, commits and sends: in
terms of what the request was asked and of the states its own earlier statements saw, which `BankStory`
traces. `BankWitness`, with the parts in `BankReach`, builds the runs that show bounds and conditions to be
exact and outcomes to be reached.

The environment assumptions sit in the step relation, nowhere else:

- a send that ends without a hash was not accepted by the node;
- nothing stops a request between its broadcast and its commit;
- nobody else broadcasts with a signer's key; the node says "nonce too low" exactly for a nonce below
  its count, and that count only grows;
- a receipt tells truthfully whether the transaction succeeded or reverted;
- the advisory key is any function of the user, so a collision only serializes more;
- primary keys and transaction hashes are new when they are made.

**Around it**: `ReceiptWait` (the poll loop behind a receipt), `Exchange` (integer trades and the
slippage floor), `Proposals` and `Keeper` (what the keepers
propose to the price and reserve feeds, and the relay guard), `Heartbeat` (the timer
that keeps them fresh), `ReplayGuard` (nonces and timestamps of bank requests), `Indexer` (the event
poller against a plain scan of the chain), `History` (what the wallet shows against what the ledger
did) and `IndexedHistory` (the two put together: from the ledger over its logs and the store to the screen).
`Sums` holds sums over finite maps, `Decimals` decimal text, `Common` optional
values and truncating division.

What a reader of the source may not expect:

- Burned wei may exceed minted wei: a deposit whose mint timed out counts towards the cap.
  `BankMoney.Conservation` has the allowance, `BankWitness.BurnedMayExceedMinted` runs that use it to
  the last wei, and `BankWitness.BurnedIsMintedExactly` the exact condition for doing without it.
- A gas drip that timed out may be repeated (`BankWitness.DripMayRepeat`), and nothing else makes two
  drips overlap (`BankDrips.DripsOverlapExactly`).
- A positive MIN_DELTA lets a heartbeat past the relay guard (`Keeper.GuardHoldsExactly`). Positivity of
  the feeds does not rest on the guard at all: every keeper refuses to propose anything else
  (keeper-uzs.ts:89, keeper-lib.ts:270, keeper-xau.ts:141), and `Keeper.StaysPositive` needs no more.
- The shipped timer may be a minute late, which leaves posts 241 seconds to land and not 301
  (`Heartbeat.ShippedTimerLeaves`).
- A captured bank request can be accepted a second time if its timestamp was far enough ahead of the
  clock the first time (`ReplayGuard.ReplayExactly`).
- That burns reach only what deposits minted to the same address rests on the rule that a user's wallet
  is bound once (`BankAddresses.AddressConservation`, `BankWitness.RebindingReachesOthers`).
- The indexer loses events for good when the head jumps by more than lookback + 1 before anything is
  stored (`Indexer.JumpLosesAnEvent`, `Indexer.LostForGood`).
- The history hides a plain burn that shares transaction, token and amount with a mint
  (`History.MixedBurnIsHidden`).

## Model

| member | source | states |
|---|---|---|
| `BankSafety.InvStep` | oltinpay/oltinpay-api/src/bank/service.py:162-389 | every step of every request kind and of the environment keeps the invariant: lock table and program counters agree, reads stay valid under interference, every live transaction is recorded or still held by its request, rows match the chain, sums are covered |
| `BankSafety.InvRun` | oltinpay/oltinpay-api/src/bank/service.py:162-389 | so it holds in every state of every interleaving |
| `BankMoney.BurnsAreDeposited` | oltinpay/oltinpay-api/src/bank/service.py:255-353 | for every user, burns that mined and burns that may still mine long after their caller gave up never exceed 10^18 times the committed deposits, even with pending rows inserted past the filing cap |
| `BankMoney.OutstandingIsDeposited` | oltinpay/oltinpay-api/src/withdrawals/service.py:45-124 | in every state of every run a user's pending, confirmed and reconcile withdrawals exceed the user's deposits at most by what was inserted for this user past create_withdrawal (so never, when nothing was), although deposits and rejects take no user lock |
| `BankMoney.ConfirmNeverRefuses` | oltinpay/oltinpay-api/src/bank/service.py:293-318 | the solvency guard at confirm never turns down a row of a user whose rows all came through create_withdrawal, whatever was inserted for other users |
| `BankWitness.InsertedMayBeRefused` | oltinpay/oltinpay-api/src/bank/service.py:313-318 | for every user and amount a run in which the guard refuses an inserted row and the bound of OutstandingIsDeposited is met with equality |
| `BankWitness.ConfirmPassesExactly` | oltinpay/oltinpay-api/src/bank/service.py:293-318 | every confirm of a user in every run passes the guard if and only if nothing was inserted for the user past create_withdrawal |
| `BankMoney.Conservation` | oltinpay/oltinpay-api/src/bank/service.py:177-224 | burned wei is at most deposit-minted wei plus 10^18 times the committed deposits whose mint has not mined, and each of those was given up on by its caller |
| `BankMoney.BurnedIsMinted` | oltinpay/oltinpay-api/src/bank/service.py:278-313 | with every recorded mint of the user mined, burned is at most minted |
| `BankWitness.BurnedIsMintedExactly` | oltinpay/oltinpay-api/src/bank/service.py:202-216 | for every user and n: in all states of all runs where the user's deposits with an unmined mint add up to n, burned is at most minted, if and only if n is 0 |
| `BankWitness.BurnedMayExceedMinted` | oltinpay/oltinpay-api/src/bank/service.py:202-216 | for every user and every positive amount, and any lock keys and signers, a run without inserted rows that burns the amount while nothing was minted, meeting the bound of Conservation with equality |
| `BankOnce.GrowsRun` | oltinpay/oltinpay-api/src/withdrawals/models.py:3-6 | along every run rows and transactions are only added and settled ones never change |
| `BankOnce.WithdrawalMovesOnce` | oltinpay/oltinpay-api/src/withdrawals/models.py:3-22 | a withdrawal keeps owner and amount, leaves pending at most once and then never changes; its wei are 10^18 times its UZD |
| `BankOnce.OneBurn` | oltinpay/oltinpay-api/src/bank/service.py:262-276 | once a burn of a withdrawal mined, no other burn of it is or ever will be mined or able to mine |
| `BankOnce.RejectedNeverBurns` | oltinpay/oltinpay-api/src/bank/service.py:364-389 | from its rejection on, no burn of a rejected withdrawal is mined or can mine |
| `BankOnce.ConfirmedIsBurned` | oltinpay/oltinpay-api/src/bank/service.py:320-361 | a confirmed row has exactly one live burn: the mined one its tx_hash names, of its user and amount |
| `BankOnce.OneEffectPerKey` | oltinpay/oltinpay-api/src/bank/models.py:92 | for every bankTxId, auditRef, claim and withdrawal, over any calls and retries, at most one transaction is mined or can still mine |
| `BankOnce.KnownFailureIsClean` | oltinpay/oltinpay-api/src/bank/service.py:199-219 | at a rollback nothing sent for the key can still take effect; the database is as before and the key is free for a retry |
| `BankOnce.RecordedKeyIsFinal` | oltinpay/oltinpay-api/src/bank/service.py:202-223 | a committed key, outcome known or not, keeps its transaction for ever and nothing is sent for it again |
| `BankOnce.GiftFollowsClaim` | oltinpay/oltinpay-api/src/welcome/service.py:211-218 | a gift exists on chain only for a committed claim of its own request whose mint mined |
| `BankOnce.OneGift` | oltinpay/oltinpay-api/src/welcome/service.py:104-136 | at most one gift per user is ever sent, whatever becomes of it |
| `BankDrips.DripIsGated` | oltinpay/oltinpay-api/src/welcome/service.py:44-101 | before every drip its request read, at a step of the run that is given, a balance below the threshold, and held the user's lock in every state since; every drip of the user on chain at the broadcast was on chain at that read and had then settled or been given up on |
| `BankDrips.DripsOverlapExactly` | oltinpay/oltinpay-api/src/welcome/service.py:60-67 | when a drip is accepted another drip of the user can still mine if and only if one that timed out can |
| `BankWitness.DripMayRepeat` | oltinpay/oltinpay-api/src/welcome/service.py:86-101 | for every user, a run in which a second drip is accepted while the first, timed out, can still mine |
| `BankWallets.TargetWasBound` | oltinpay/oltinpay-api/src/bank/service.py:248-251 | every mint, burn, gift and drip ever accepted acts on a wallet that its user had bound at some earlier point of the run |
| `BankWallets.BurnIsFiled` | oltinpay/oltinpay-api/src/bank/service.py:242-253 | every burn ever accepted is of a committed withdrawal, for that row's user and exact wei |
| `BankAddresses.AddressConservation` | oltinpay/oltinpay-api/src/withdrawals/service.py:8-19 | in every run that binds no user a second wallet, the wei burned from an address are at most what deposits minted to that address plus 10^18 times its committed deposits with an unmined mint, for every address, shared ones included: no burn reaches anybody else's tokens |
| `BankWitness.RebindingReachesOthers` | oltinpay/oltinpay-api/src/users/router.py:110-119 | one rebinding undoes that: for every user, amount and second address, a run in which the amount is burned from an address nothing was or will be minted to |
| `BankNonces.NoncesRun` | oltinpay/oltinpay-api/src/infrastructure/signer_pool.py:217-310 | in every reachable state each signer's counter lies above all nonces it used, and no request in the critical section finds it missing |
| `BankNonces.NoncesIncrease` | oltinpay/oltinpay-api/src/infrastructure/signer_pool.py:217-310 | accepted nonces of a key strictly increase, by one except after a reload of the counter; no two accepted transactions share a nonce |
| `BankNonces.OneBroadcastAtATime` | oltinpay/oltinpay-api/src/infrastructure/signer_pool.py:221-246 | at most one request at a time is between reading and advancing a key's counter |
| `BankProgress.RankOrder` | oltinpay/oltinpay-api/src/infrastructure/db_lock.py:28-40 | in every reachable state, whoever the lock table names as holder of a lock and waits for another waits for one of higher rank: advisory, then row or unique key, then signer |
| `BankProgress.SignerNeverWaits` | oltinpay/oltinpay-api/src/infrastructure/signer_pool.py:242-246 | in every reachable state the holder of a signer lock is not waiting for a receipt, nor for any lock |
| `BankProgress.NoDeadlock` | oltinpay/oltinpay-api/src/bank/service.py:255-276 | in every reachable state with a request in flight some request in flight can step |
| `BankProgress.StepMoves` | oltinpay/oltinpay-api/src/bank/service.py:162-389 | every step of a request brings it closer to its end and moves no other request |
| `BankProgress.RequestIsBounded` | oltinpay/oltinpay-api/src/bank/service.py:162-389 | in every run every request makes at most 26 steps of its own, whatever other requests and the chain do in between |
| `BankProgress.DrainIsBounded` | oltinpay/oltinpay-api/src/bank/service.py:162-389 | from any state on, whatever the scheduler, the chain and the environment do, the requests make at most the steps that those in flight have left and 26 for each new arrival |
| `BankProgress.AllRequestsCanFinish` | oltinpay/oltinpay-api/src/infrastructure/signer_pool.py:217-246 | from every reachable state their own steps alone can bring all requests to their end |
| `BankOutcomes.AdmittedExactly` | oltinpay/oltinpay-api/src/bank/service.py:242-250 | every kind of request is let in if and only if it is admissible at its first reads (a wallet, a positive amount or rate, a row that exists and is pending); otherwise it is over and nothing changed |
| `BankOutcomes.TermsAreRead` | oltinpay/oltinpay-api/src/bank/service.py:248-253 | at every later moment a request acts on what it was asked when it arrived and on the user, wallet, UZD and wei of its first reads, at steps that are given |
| `BankOutcomes.ClaimsExactly` | oltinpay/oltinpay-api/src/bank/service.py:262-276 | the claiming UPDATE of a confirm or reject wins if and only if the row is still pending once it is free; the winner holds the row, the loser changes nothing |
| `BankOutcomes.ReservesExactly` | oltinpay/oltinpay-api/src/bank/service.py:178-191 | the unique insert of a deposit, attestation or claim passes if and only if no row with its key is committed once the key is free; the winner holds the key and goes on to its send |
| `BankOutcomes.SumsAreRead` | oltinpay/oltinpay-api/src/bank/service.py:293-312 | what a request compares at its check are the deposits and withdrawals of its user in two earlier states, those of its own two statements, which are given |
| `BankOutcomes.FilesExactly` | oltinpay/oltinpay-api/src/withdrawals/service.py:101-112 | a filing of u passes the cap if and only if its amount and what was outstanding at the second sum fit into the deposits at the first |
| `BankOutcomes.FileAddsOneRow` | oltinpay/oltinpay-api/src/withdrawals/service.py:114-124 | a filing that passed adds exactly one row, pending, for the user and the amount asked; what is outstanding rises by it for that user and for nobody else |
| `BankOutcomes.RowsAreFiled` | oltinpay/oltinpay-api/src/withdrawals/service.py:114-124 | every withdrawal there ever is was filed by a request of its user for its amount, or inserted so, at a step that is given |
| `BankOutcomes.ConfirmsExactly` | oltinpay/oltinpay-api/src/bank/service.py:313-325 | a confirm goes on to burn if and only if its row and what counted as burned at the second sum fit into the deposits at the first; otherwise it is over and the row is as it was |
| `BankOutcomes.SettledSend` | oltinpay/oltinpay-api/src/infrastructure/signer_pool.py:242-246 | a commit records the transaction its own request broadcast as its main send; the request saw the receipt or gave up, exactly one of them, and only for that transaction |
| `BankOutcomes.ConfirmSettles` | oltinpay/oltinpay-api/src/bank/service.py:329-361 | a settling confirm leaves its row confirmed if and only if it saw the receipt of the burn it sent, and reconcile if and only if it gave up on it, with that hash, and changes nothing else |
| `BankOutcomes.RejectReleases` | oltinpay/oltinpay-api/src/bank/service.py:372-389 | after the commit of a rejection its row is rejected in every later state and otherwise as it was; no other row changes, its owner has its amount less outstanding and nobody else any change, and no burn of it is live from then on |
| `BankOutcomes.DepositSettles` | oltinpay/oltinpay-api/src/bank/service.py:193-224 | a deposit commits exactly its one row, for the user and amount asked and the mint it sent, whether that was seen to mine or given up on, and raises the deposits of that user alone by that amount |
| `BankOutcomes.AttestationSettles` | oltinpay/oltinpay-api/src/bank/service.py:76-106 | an attestation commits exactly its one row, with the grams asked and the hash of the post of these grams |
| `BankOutcomes.ClaimSettles` | oltinpay/oltinpay-api/src/welcome/service.py:187-218 | a claim commits exactly its one row, whether it saw its mint or gave up on it, and goes on to the gift if and only if it saw it |
| `BankOutcomes.DripsExactly` | oltinpay/oltinpay-api/src/welcome/service.py:69-95 | a drip is sent if and only if the balance could be read and lies below the threshold; otherwise the claim goes on without it |
| `BankSends.BroadcastIsAsked` | oltinpay/oltinpay-api/src/infrastructure/signer_pool.py:420-431 | every broadcast of every operation is the transaction that was asked for: the row, key, grams or rate of the request, with user, wallet and wei as its first reads had them, signed with the key of its role |
| `BankSends.NonceIsCurrent` | oltinpay/oltinpay-api/src/infrastructure/signer_pool.py:224-258 | every accepted transaction carries the nonce that the last setting of its signer's counter calls for, at a step that is given: the node's count read there, retry included, or one more than the nonce accepted there |
| `BankSends.SendEndsExactly` | oltinpay/oltinpay-api/src/infrastructure/signer_pool.py:217-246 | a send ends at a receipt, a timeout or a known failure (no key, no nonce, refused, too low for the second time, reverted) and at nothing else; a main send then fails exactly on a known failure and is parked exactly on a timeout, a drip leads to the reservation and a gift or rate to the end whatever became of it |
| `BankWitness.WithdrawalsEndConfirmedOrParked` | oltinpay/oltinpay-api/src/bank/service.py:329-361 | for every user and amount, a run that deposits, files and confirms it and ends with the row confirmed, and one that ends with it parked, with the hash of its burn |
| `BankWitness.WithdrawalsEndRejected` | oltinpay/oltinpay-api/src/bank/service.py:364-389 | and one that files and rejects it, after which the whole deposit can be withdrawn again |
| `BankWitness.GiftsMine` | oltinpay/oltinpay-api/src/welcome/service.py:211-218 | for every user, a run whose claim ends with a gift that mined |
| `ReceiptWait.WaitForReceipt` | oltinpay/oltinpay-api/src/infrastructure/signer_pool.py:334-383 | whatever errors and missing receipts occur, the verdict is that of the first poll that ends the wait: success exactly on a receipt with status 1, revert on one with any other status that can be read, timeout exactly when no poll within the limit brought one; there are at most 31 polls |
| `ReceiptWait.OutcomeMeaning` | oltinpay/oltinpay-api/src/infrastructure/signer_pool.py:343-349 | with a truthful node success and revert are final facts about the chain, and a timeout is exactly the absence of any receipt |
| `ReceiptWait.BoundIsTight` | oltinpay/oltinpay-api/src/infrastructure/signer_pool.py:64-66 | a node that never answers is polled exactly 31 times |
| `Exchange.TradeKeepsBacking` | contracts/scripts/seed-demo.ts:112-119 | a floored buy or sell keeps the treasury worth at least the whole supply |
| `Exchange.TradeNeverGains` | contracts/scripts/seed-demo.ts:112-119 | no trader's holdings are worth more after a trade than before |
| `Exchange.TradeLosesOnlyRounding` | contracts/scripts/seed-demo.ts:112-119 | and none loses more than the rounding: a buyer less than the price of one wei of OLTIN, a seller less than one wei of UZD, everybody else nothing |
| `Exchange.OunceSellsAtTheFeeds` | oltinpay/oltinpay-api/src/por/service.py:116-121 | the unit of the price: 31.1034768 OLTIN, a troy ounce, sell for the ounce's dollars over the dollars of one sum, to the wei |
| `Exchange.BackedPays` | contracts/scripts/seed-demo.ts:116-119 | a backed treasury can pay for any part of the supply, and for all of it |
| `Exchange.TraceIsSound` | oltinpay/oltinpay-api/src/por/service.py:171-183 | along any trace of trades: backing, payment of any redemption, conservation of UZD between treasury and traders, and no trader ever gains |
| `Exchange.RoundTrip` | contracts/scripts/seed-demo.ts:112-119 | buying with x and selling it all returns r <= x with (x - r - 1) * GRAMS * uzs < xau * 1e8 |
| `Exchange.FloorIsMet` | oltinpay/oltinpay-webapp/src/lib/format.ts:58-72 | an execution rate within the tolerance meets the floor derived from the floored quote, for every amount |
| `Exchange.FloorIsMissed` | oltinpay/oltinpay-webapp/src/lib/format.ts:58-72 | a rate outside the tolerance misses the floor on an amount that is given |
| `Exchange.BuyFloorIsExact` | oltinpay/oltinpay-api/src/por/service.py:171-177 | buys meet computeMinOut's floor for all amounts if and only if the exact rate fell by no more than the tolerance |
| `Exchange.SellFloorIsExact` | oltinpay/oltinpay-api/src/por/service.py:178-183 | the same for sells |
| `Exchange.MinOutIsLargest` | oltinpay/oltinpay-webapp/src/lib/format.ts:58-72 | the floor is the largest whole number of wei within the tolerance of the estimate, for every estimate and tolerance, and there is none exactly when there is no positive estimate or the tolerance leaves less than one wei |
| `Keeper.GuardIsExact` | contracts/scripts/keeper-lib.ts:64-65 | the floored guard passes exactly the changes below maxJumpBps + 1 basis points |
| `Keeper.PriceDecidesExactly` | contracts/scripts/keeper-lib.ts:46-81 | when a price keeper posts, skips and refuses, in exact arithmetic, for all integers |
| `Keeper.ReserveDecidesExactly` | contracts/scripts/keeper-lib.ts:105-141 | when the reserve keeper posts, skips and refuses, in exact arithmetic, for all integers, negative answers included |
| `Keeper.FeedFollows` | contracts/scripts/keeper-lib.ts:46-141 | in every relay a round puts the proposed value onto a positive answer if and only if the change is within the guard, a due heartbeat or confirmed by hand, and otherwise leaves the answer |
| `Decimals.NumberRoundTrip` | contracts/scripts/keeper-lib.ts:264-274 | reading the decimal text of a number gives the number back |
| `Decimals.DecimalInjective` | contracts/scripts/keeper-lib.ts:127 | two values with the same decimal text are equal |
| `Keeper.OneConfirmationOneValue` | contracts/scripts/keeper-lib.ts:126-139 | one RESERVE_CONFIRM lets at most one value beyond the guard through, the one it spells |
| `Keeper.GuardHoldsExactly` | contracts/scripts/keeper-lib.ts:49-77 | everything a price feed posts onto a positive answer, heartbeats within minDelta included, moves it by less than maxJumpBps + 1 basis points if and only if minDelta is not positive or minDelta * 10000 < (maxJumpBps + 1) * answer |
| `Keeper.StaysPositive` | contracts/scripts/keeper-lib.ts:46-141 | for every guard, minDelta and confirmation: from any start the answer is positive as soon as a keeper posted, and from a positive start always |
| `Keeper.OneFirstPost` | contracts/scripts/keeper-lib.ts:80 | the first-post branch, which no guard covers, is taken at most once in the life of a feed |
| `Keeper.BareIsSafeExactly` | contracts/scripts/keeper-lib.ts:46-81 | of decidePost alone, asked about any integer as no keeper does: it posts only positive values onto a positive answer if and only if the guard is at most 9999 basis points and the answer exceeds minDelta |
| `Keeper.BareIsSafeEverywhere` | contracts/scripts/keeper-lib.ts:46-81 | the same for all positive answers: if and only if the guard is at most 9999 and minDelta not positive |
| `Keeper.FeedDrift` | contracts/scripts/keeper-lib.ts:105-141 | for every guard B, over any rounds of price and reserve feeds, none confirmed by hand and each with a minDelta that the guard covers, a positive feed stays positive and after n posts lies within the n-th powers of max(0, 10000 - B - 1)/10000 and (10000 + B + 1)/10000 of its start |
| `Proposals.UzsIsNearest` | contracts/scripts/keeper-uzs.ts:88-92 | the UZS keeper proposes the integer nearest to 10^16 / rate, and proposes at all exactly for positive rates up to 2 * 10^16 |
| `Proposals.ReserveRoundTrip` | contracts/scripts/keeper-reserve.ts:61 | every positive reserve figure can be proposed, by its decimal text |
| `Proposals.DecideGoldPrice` | contracts/scripts/keeper-lib.ts:343-408 | which quotes count, the median of those that do, and which of the three refusals otherwise |
| `Proposals.MedianIsMiddle` | contracts/scripts/keeper-lib.ts:391-394 | the median is the middle value of any ascending order of the quotes, and of an even number half the sum of the middle two, rounded toward zero |
| `Proposals.MedianIsRobust` | contracts/scripts/keeper-lib.ts:391-394 | with fewer than half of the values outside a range, the median lies inside |
| `Proposals.MedianWithstandsExactly` | contracts/scripts/keeper-lib.ts:391-394 | whatever k of n values are wild, the median stays in the range of the others, if and only if k is less than half of n |
| `Proposals.GoldIsSane` | contracts/scripts/keeper-xau.ts:137-151 | the gold price the XAU keeper proposes lies between 100 and 100000 dollars |
| `Heartbeat.Run` | ops/oltinpay-keeper/keeper.py:206-241 | every feed is handled whatever happened to the others: posted, its last answer and nothing else, exactly when due, readable, positive, sendable and not a dry run, otherwise skipped or failed as the row says; the exit code is 1 exactly when some feed failed |
| `Heartbeat.AgeIsBounded` | ops/oltinpay-keeper/keeper.py:103-105 | at every instant of every schedule the answer is unchanged and the age below heartbeat + period + delay |
| `Heartbeat.FreshnessIsExact` | ops/oltinpay-keeper/keeper.py:63-65 | no schedule reaches a given age if and only if heartbeat + period + delay is at most that age |
| `Heartbeat.WorstSchedule` | ops/oltinpay-keeper/keeper.py:63-65 | a schedule that reaches the bound less one second |
| `Heartbeat.AcceptanceIsExact` | contracts/contracts/Exchange.sol:190-203 | the consumers, to whom an age of exactly maxAge is still fresh, accept the feed at every instant of every schedule if and only if heartbeat + period + delay <= maxAge + 1 |
| `Heartbeat.ShippedFeedsStayFresh` | ops/oltinpay-keeper/keeper.py:66-70 | with the shipped heartbeats and limits all three feeds are accepted at all times if and only if the longest time between runs and the longest landing of a post add up to at most 2101 seconds |
| `Heartbeat.ShippedTimerLeaves` | ops/oltinpay-keeper/oltinpay-keeper.timer:8-10 | so posts have 301 seconds to land under a timer of exactly 30 minutes, and 241 under the shipped one, which may be a minute late |
| `ReplayGuard.NonceReplayGuard.CheckAndStore` | oltinpay/oltinpay-api/src/bank/deps.py:51-60 | true exactly when no unexpired entry has the nonce; afterwards exactly the unexpired entries are kept, with the nonce among them |
| `ReplayGuard.RequireBankAuth` | oltinpay/oltinpay-api/src/bank/deps.py:68-102 | the answer for every kind of request, and that only an authentic one touches the store |
| `ReplayGuard.SecondAcceptanceNeedsExpiry` | oltinpay/oltinpay-api/src/bank/deps.py:51-60 | whatever the clock does, a nonce is accepted again only after some authentic request read a clock at which its entry had expired |
| `ReplayGuard.ReplayOnlyNearTheEdge` | oltinpay/oltinpay-api/src/bank/deps.py:91-102 | if no body takes longer than wait seconds to arrive between the clock read and the store, the same timestamp and nonce is accepted twice only in the last wait seconds before 2 * skew after the first |
| `ReplayGuard.ReplayOnlyAtTheEdge` | oltinpay/oltinpay-api/src/bank/deps.py:91-102 | with clock readings in the order of the store, only exactly 2 * skew apart |
| `ReplayGuard.EdgeReplay` | oltinpay/oltinpay-api/src/bank/deps.py:63-65 | and at that one instant it is accepted twice |
| `ReplayGuard.SlowBodyReplay` | oltinpay/oltinpay-api/src/bank/deps.py:91-101 | for any two clock readings in a timestamp's window that this bound allows, a run that accepts the same request at both |
| `ReplayGuard.ReplayExactly` | oltinpay/oltinpay-api/src/bank/deps.py:63-102 | for every skew and wait: no run whose bodies arrive within wait accepts twice a request that was first accepted with its timestamp ahead of the clock by lead, if and only if lead < skew - wait |
| `Indexer.EventTable.RecordEvent` | oltinpay/oltinpay-api/src/indexer/service.py:30-67 | stores an event once under its key, leaves an existing one alone, says which |
| `Indexer.EventTable.RecordLog` | oltinpay/oltinpay-api/src/indexer/poller.py:90-128 | stores a watched log under its key as the event it describes, unless the key is there, and nothing for a log that is malformed or not watched |
| `Indexer.EventDescribes` | oltinpay/oltinpay-api/src/indexer/poller.py:90-128 | what a log is stored as, if anything, is exactly the event it describes: a mint to its topic, a burn from it, a transfer from the first to the second, with the word as amount, or the answer that is congruent to the word and fits 256 bits with sign, each as the last monitor of its first topic has it |
| `Indexer.EventTable.MaxBlock` | oltinpay/oltinpay-api/src/indexer/poller.py:82-87 | the highest stored block, none exactly when nothing is stored |
| `Indexer.EventTable.RecordLogs` | oltinpay/oltinpay-api/src/indexer/poller.py:151-163 | one reply is added in full: every decodable log under its key once, nothing else, older rows kept, new rows counted |
| `Indexer.EventTable.PollOnce` | oltinpay/oltinpay-api/src/indexer/poller.py:131-163 | one poll adds the replies of all contracts, from the block after the highest stored one or the lookback to the head |
| `Indexer.ScansJoin` | oltinpay/oltinpay-api/src/indexer/poller.py:82-87 | recording a range that leaves no gap turns a scan up to one block into a scan up to a later one |
| `Indexer.PollExtends` | oltinpay/oltinpay-api/src/indexer/poller.py:131-163 | a committed poll extends the scan to its head |
| `Indexer.FirstPoll` | oltinpay/oltinpay-api/src/indexer/poller.py:82-87 | the first committed poll scans exactly its lookback |
| `Indexer.StoreIsAScan` | oltinpay/oltinpay-api/src/indexer/poller.py:82-163 | over every run with rollbacks anywhere the store is exactly a plain scan from the first poll's lower bound to the last committed head, each well-formed watched log once |
| `Indexer.JumpLosesAnEvent` | oltinpay/oltinpay-api/src/indexer/poller.py:82-87 | every larger jump of the head before the first stored event leaves an event of the scan out of the store |
| `Indexer.LostForGood` | oltinpay/oltinpay-api/src/indexer/poller.py:82-163 | in every run a log that is not stored when a poll starts above its block is in no later store |
| `History.PrepareHistory` | oltinpay/oltinpay-webapp/src/lib/history.ts:56-83 | the rows are the feed in order without the zero-address transfers whose mint or burn event is anywhere in it |
| `History.CollapsedMeans` | oltinpay/oltinpay-webapp/src/lib/history.ts:59-67 | a key is collapsed exactly when the ledger holds a mint or admin burn of the wallet with that transaction, token and amount |
| `History.HistoryAddsUp` | oltinpay/oltinpay-webapp/src/lib/history.ts:29-83 | for every ledger and any order of its feed the signed sum shown is the wallet's net change plus exactly the hidden burns |
| `History.HistoryIsExact` | oltinpay/oltinpay-webapp/src/lib/history.ts:29-83 | it equals the net change if and only if no transaction mixes a mint or admin burn of the wallet with a plain burn of the same token and positive amount |
| `History.MixedBurnIsHidden` | oltinpay/oltinpay-webapp/src/lib/history.ts:69-73 | such a transaction, for every token and amount: its history shows the amount for a balance that did not change |
| `History.HistoryIsTheLedger` | oltinpay/oltinpay-webapp/src/lib/history.ts:29-83 | for every ledger and any order of its feed the history is the ledger row by row: one row for each mint, burn, receipt, sending and own transfer of the wallet, of that kind, token and amount, and no other; only the mixed burns are missing |
| `IndexedHistory.FeedIsLedger` | oltinpay/oltinpay-api/src/indexer/service.py:70-110 | a store that scanned the blocks of a ledger, among any other logs, gives every wallet exactly the feed of that ledger: each of its events once, with its direction, and no other |
| `IndexedHistory.PolledHistoryIsTheLedger` | oltinpay/oltinpay-api/src/indexer/poller.py:49-163 | end to end: after any run of the poller without a jump, rollbacks included, what a wallet is shown is its ledger row by row and adds up to its net change plus exactly the hidden burns |

## Left out

- The bank services are steps of a transition system over values, not methods of classes: what matters is how the statements of different requests interleave, and a sequential method cannot say that. Object identity and aliasing inside one ORM session are not captured.
- Process crashes, request cancellation and chain reorganisations: the code does not handle them either.
- The reconciler of parked rows that the comments announce: not implemented in the repository.
- The Solidity contracts: mint, burn, transfer and postAnswer are abstract effects; the exchange follows the integer formulas repeated in the scripts and the API.
- Token and ETH balances on chain: a burn may revert for any reason; a wallet's ETH balance is any number, together with the drips it counts.
- HTTP, JSON-RPC, ORM and session plumbing, the connection pool, ABI encoding and transaction signing: their outcomes are nondeterministic replies.
- HMAC, scrypt, AES-GCM, BIP39 and JWT: whether a signature is valid is an input.
- ReplayGuard.RequireBankAuth: a sequential method; that other requests run while it awaits its body is in the runs of ReplayGuard, which order requests by when they reach the store and leave their clock readings in any order.
- ReceiptWait.WaitForReceipt: the bound of 31 polls assumes that every sleep lasts at least the poll period.
- Deletion of users with their rows, and the bounds of the BigInteger columns.
- The arithmetic of post_fx, the coverage ratio in get_por and the price shown with a quote: floating point. The send of post_fx is modelled, for any answer; the integer under the price is ExpectedSell of one OLTIN.
- The conversion of decimal amounts to wei in get_quote: amounts are wei here.
- The limit and the paging of the transaction feed: the history is that of a complete feed.
- The parsers of price sources and the age checks of the gold and central bank quotes: they decide whether there is a proposal, and the results about feeds hold for every positive one.
- Transaction building in the heartbeat keeper, and the listings of withdrawals and attestations: they only format or select what the modelled state holds.
- Web pages, hooks, stores, translations, the bot, deployment and migration scripts.
