# Order execution core: a verified model

This project models the order execution core of the trading backend and proves what it is
meant to guarantee, in Dafny. `dafny verify dfyconfig.toml` checks all of it.

**Basket coordinator** (`Orders`, `Coordinator`, `LedgerRows`, `Baskets`). A basket of N legs is
submitted, waited for, retried, and otherwise reversed or latched as critical. The broker is
adversarial: between any two coordinator steps it may do whatever `Orders.TableEvolves` allows.
That predicate is the assumption made about it: fills only grow and stay within an order's
quantity, and nothing lands on an order that is filled, cancelled, rejected or in a real error.
`Orders.Chain` is the invariant of both loops: every order of a leg asks for exactly what the
leg's earlier orders left unfilled, and those are settled. It holds at every point of the retry
loop, and `NeverOverOrdered` follows from it. What the clock, the kill switch, the risk engine and
a failing submission say is an input (`Conditions`), so every way a run ends has to be justified by
it (`StopJustified`, `RoundsTried`, `Unwound`, `Faithful`).

**Broker adapter** (`OmsOrders`, `Adapter`, `AdapterRuns`, `AdapterEvents`, `AdapterOutcomes`,
`AdapterConfluence`, `FillConfluence`, `IbkrAdapter`). The callbacks are steps on the adapter's
tables; the class updates the tables in place and is proved against the steps. `AdapterOutcomes`
says what each callback does over the orders' and the callback's own fields: which order it is
about, what its text, codes and quantities make of that order, what listeners are told. Over every
run of callbacks in any order: orders move only forward, fills are never claimed falsely if status
reports account for whole orders, nothing is cancelled or rejected unless a callback said so,
listeners see an orderly sequence of events, the id maps are exact inverses, and executions and
commissions are confluent; filled quantities and statuses are so under an exact condition.
`MovesAreEvolution` shows that the adapter is a broker view the coordinator may rely on.

**Position ledger** (`Ledger`, `ManualLedger`, `ManualOutcomes`, `ManualListener`). Average-cost
accounting with open, add, reduce, close and flip; its cash-flow identity and where it books profit;
splitting; and the live listener, whose stored positions equal the replay of its stored execution
rows. `ManualOutcomes` says which order a callback belongs to and what it leaves, over the rows.

**Smaller cores.** `Persistence`: single-flight, coalescing writes. `ChangeStream`,
`StreamOutcomes`: the position stream whose records fold to the snapshot, and what each poll tells.
`Text`, `Segments`, `RejectReason`, `RejectOutcomes`: scanning, printing and merging of
account-tagged reject reasons. `CriticalLatch`, `CriticalRecovery`: the latch of critical baskets
and its release. `ContractKey`: contract identity keys. `Migration`: the two-phase rekeying of
signal jobs.

Quantities, prices and times are exact reals; dictionaries are maps, or sequences where their
order is seen.

## What the proofs found

Each of these is the code's behaviour, kept in the model. The lemmas named say exactly when it
happens; for several a concrete case stands beside them.

- A manual execution whose side is unknown or not its order's leaves stored rows and position apart;
  of unknown side, the row is stored and the position never sees it
  (`ManualLedger.ReplayKeptIffSideAgrees`).
- A manual fill split in two is refused in its second half exactly when the first half closes the
  lot (`ManualLedger.LiveSplitMattersIffFirstPieceCloses`); the replay has no such case.
- A buffered commission is lost exactly if the execution callback that takes it is not accepted
  (`ManualLedger.BufferedCommissionReachesRowIffAccepted`).
- The reversals already placed are missing from the result exactly when one of them is refused on
  placing: the code raises before the list is returned (`Coordinator.BasketCoordinator.Reverse`).
- A compensated basket may keep up to the fill tolerance per order open
  (`Coordinator.ToleranceStaysOpen`). A leg is exactly flat if and only if it was reversed in full
  (`Coordinator.ExactlyFlatIff`), which fills in lots larger than the tolerance ensure
  (`Coordinator.LotFillsReverseExactly`). And a basket can be flat without counting as compensated:
  exactly when some reversal does not read as filled or leaves more than the tolerance, or the kill
  switch forbade reversals and an order filled (`Coordinator.FlatIncompleteIff`, one case in
  `Coordinator.FilledReversalMayReadCancelled`).
- The database check and the in-memory check of completeness differ exactly when a leg within the
  fill tolerance was never submitted (`LedgerRows.RowCheckAgrees`).
- A status report makes an order falsely filled exactly when it says Filled, some but not all is
  filled, and nothing is reported as remaining (`OmsOrders.FalseFillIff`).
- The adapter's average price is not confluent (`AdapterConfluence.AverageIsNotConfluent`); the
  condition under which it stays the derived one is `OmsOrders.AverageStaysDerivedIff`.
- How much an order counts as filled, and its status, can depend on the order in which its executions
  arrive. It does not exactly when none of them lacks a cumulative quantity, or all recorded shares
  come to no more than the filled quantity at the start, the largest cumulative quantity, and the
  shares recorded before with those of the executions without one (`FillConfluence.DeliveriesAgreeIff`,
  over runs `FillConfluence.SettledFillsAreConfluent`; cases in
  `FillConfluence.MixedFillsAreNotConfluent` and `FillConfluence.ConsistentFillsAreNotConfluent`).
- A write that raises loses the kinds it had taken up (`Persistence.FailedKindsAreGone`) and strands
  those reported meanwhile until the order's next callback, exactly when the order is left dirty
  (`Persistence.StrandedIffDirty`, `Persistence.NextCallbackRescues`).
- Adopting an order in place of one that stays filed under another broker id leaves two orders of
  one internal id behind (`Adapter.AdoptConsistentIff`).
- A change of a leg's profit and loss alone is marked as told although no record carries it, exactly
  when another leg of the trade with a lesser symbol changes too and the trade is not throttled
  (`ChangeStream.SwallowedIff`, `ChangeStream.SiblingPnlIsSwallowed`).
- A reject reason that ends in white space once semicolons are taken off does not survive a merge
  (`RejectReason.MergeOverridesIff`, `RejectReason.MergeLosesLineBreak`).
- A reader of a merged reject reason can read a sibling's reason: exactly when nothing is under its
  own name and a label is its account id in digits (`RejectReason.ReadsAnotherIff`,
  `RejectReason.SiblingIsRead`).
- A critical row can end up unlatched, in exactly three ways: a failing basket is stored after a
  clearing of the pair discarded its mark, a discard comes after a new critical row, or a reaper
  escalates a row of an unmarked pair (`CriticalLatch.StepCoveredIff`,
  `CriticalLatch.CoveredAlongIff`; one case each in `CriticalLatch.ClearOvertakesFail`,
  `CriticalLatch.DiscardOvertakesStore`, `CriticalLatch.ReapedIsUnmarked`). None occurs if clearing a
  pair and latching it take turns (`CriticalLatch.CriticalMeansBlocked`).
- A signal shares its key with another that jobs can have exactly when its strategy or its action can
  be cut at a colon into trimmed pieces, or its signal id has a colon where the piece before it can
  join the strategy, being lower case and not ending in white space, or the piece behind it can join
  the action, being upper case and not starting with white space (`Migration.RawKeyUniqueIff`). Of two
  such signals in the table the migration dead-letters the later (`Migration.ColonCollides`).
- Contract id 0 does not print, so it does not come back (`ContractKey.KeyRoundTripIff`).

## Model

| member | source | states |
|---|---|---|
| Ledger.StepMovesCash | backend/scripts/repair_manual_mismatched_executions.py:147-178 | One fill moves the position by its signed quantity and the book value by exactly what it cost, commission included, in every case |
| Ledger.StepBooksProfit | backend/scripts/repair_manual_mismatched_executions.py:147-178 | A fill that does not trade against the position books its commission alone and averages the costs; one that reduces or closes it leaves the average alone and books the profit on the shares it closes; a flip starts over at its price |
| Ledger.NothingClosedNothingBooked | backend/scripts/repair_manual_mismatched_executions.py:138-178 | While no fill trades against the position, realized profit is minus the commissions and the position stands at what was paid for it |
| Ledger.OneSidedNeverOpposed | backend/scripts/repair_manual_mismatched_executions.py:138-178 | Fills of one side never trade against the position they build |
| Ledger.CashFlowIdentity | backend/scripts/repair_manual_mismatched_executions.py:138-178 | After any fills the quantity is the sum of the signed fills and realized equals minus cash paid minus commissions plus quantity times average cost |
| Ledger.AverageStaysBetween | backend/scripts/repair_manual_mismatched_executions.py:147-178 | A fill that does not trade against the held shares keeps the average within any bounds of the old average and its price |
| Ledger.AverageWithinCarriedPrices | backend/scripts/repair_manual_mismatched_executions.py:138-178 | The average cost of an open position lies between the lowest and highest price of the fills it still carries, those since it last opened or flipped |
| Ledger.FoldAppend | backend/scripts/repair_manual_mismatched_executions.py:138-178 | Replaying two lists one after the other is replaying their concatenation |
| Ledger.SplitStep | backend/scripts/repair_manual_mismatched_executions.py:147-178 | Two fills of one side and price that add up to a third have its effect on every position, across and onto zero included |
| Ledger.SplittingDoesNotMatter | backend/scripts/repair_manual_mismatched_executions.py:138-178 | Splitting any fill anywhere in a history leaves quantity, average cost and realized unchanged |
| Ledger.LateCommission | backend/scripts/repair_manual_mismatched_executions.py:138-178 | Adding commission to any fill of a history lowers realized by it and changes nothing else |
| Ledger.Replay | backend/scripts/repair_manual_mismatched_executions.py:135-178 | The replay loop computes the fold of the accounting step; its shares and cash balance, and fills of one side leave realized at minus the commissions and the position at what was paid |
| ManualLedger.CorrelationIsSound | backend/app/services/manual_callbacks.py:345-507 | An execution is attached only to an order it names, of its own contract, account and permanent id |
| ManualLedger.CommissionKeepsReplay | backend/app/services/manual_callbacks.py:732-758 | A late commission keeps every stored position equal to the replay of its rows |
| ManualLedger.BookFillKeepsReplay | backend/app/services/manual_callbacks.py:532-625 | Recording a fill and applying it to its lot keeps every stored position equal to the replay |
| ManualLedger.ExecutionKeepsReplay | backend/app/services/manual_callbacks.py:345-711 | An execution callback keeps every stored position equal to the replay of its rows whenever it is not accepted or its side is the order's |
| ManualLedger.ReplayKeptIffSideAgrees | backend/app/services/manual_callbacks.py:509-585 | An accepted execution with shares keeps replay equality if and only if its side is the order's |
| ManualLedger.WrongSideBreaksReplay | backend/app/services/manual_callbacks.py:509-585 | An accepted execution with shares and another or an unknown side leaves stored rows and position apart |
| ManualLedger.BufferedCommissionReachesRowIffAccepted | backend/app/services/manual_callbacks.py:345-552 | A commission that came first reaches its row if and only if the execution that takes it is accepted |
| ManualLedger.LiveEqualsReplay | backend/app/services/manual_callbacks.py:171-770 | After any run of callbacks, repeated and reordered, commissions before or after, in which accepted executions have their order's side, each stored position is the fold of the accounting step over its stored rows |
| ManualLedger.StepKeepsReplay | backend/app/services/manual_callbacks.py:171-770 | Every single callback keeps replay equality when sides agree |
| ManualLedger.ClosedLotStaysClosed | backend/app/services/manual_callbacks.py:509-567 | Over any run a closed lot stays closed, gains no fill, and only its realized profit can change, by late commissions |
| ManualLedger.ClosedLotRefusesFills | backend/app/services/manual_callbacks.py:509-530 | An execution never changes the position or the fills of a closed lot |
| ManualLedger.LiveSplitMattersIffFirstPieceCloses | backend/app/db/repositories/manual_repository.py:380-546 | Live, two halves of a fill do what the whole does if and only if the first half does not close the lot |
| ManualLedger.BookedStatus | backend/app/services/manual_callbacks.py:584-625 | Once an execution is booked its order is filled exactly when its rows cover the quantity, whatever status reports said; otherwise cancelled, rejected and errored orders keep their status |
| ManualLedger.ReportsKeepTerminal | backend/app/services/manual_callbacks.py:205-343 | Status reports, open-order reports and errors never move a terminal manual order and touch neither rows nor positions |
| ManualOutcomes.CorrelatesIff | backend/app/services/manual_callbacks.py:427-507 | An execution is attached to an order exactly if it is the newest row of the reference with its account, contract and permanent id; else the newest with the permanent id; else the newest with the order id under the same matches; and of the callback's account. To none exactly if there is no such row |
| ManualOutcomes.AcceptsIff | backend/app/services/manual_callbacks.py:453-552 | The order an execution is booked on is the one it names, if its id is new and the lot takes fills |
| ManualOutcomes.LotTakesFill | backend/app/db/repositories/manual_repository.py:380-546 | A fill moves its lot's shares by its own, books profit as the accounting step does, leaves other lots alone, and closes the lot exactly when it comes back to nothing |
| ManualOutcomes.NamedExecutionIsBooked | backend/app/services/manual_callbacks.py:453-625 | An execution naming an order, with a new id and a known side on a lot that takes fills, gets its row with the buffered commission and moves the lot; the order changes in status and in learning its permanent id alone |
| ManualOutcomes.RowInsertedIff | backend/app/services/manual_callbacks.py:453-552 | A row is inserted if and only if the id is new and the execution names an order whose lot takes fills; otherwise no position moves |
| ManualOutcomes.FilledIsOwnTotal | backend/app/services/manual_callbacks.py:584-588 | What counts as filled on an order is the total of its own rows |
| ManualOutcomes.CommissionWaits | backend/app/services/manual_callbacks.py:725-740 | A commission without a row waits for one |
| ManualOutcomes.CommissionReaches | backend/app/services/manual_callbacks.py:742-760 | Otherwise it is written to its row and comes off the lot's realized profit alone, unless another than zero stands there |
| ManualOutcomes.MappedFollows | backend/app/services/manual_callbacks.py:38-50 | The status a text makes of an order, blanks and letter case aside: cancelled, rejected and filled exactly for their words, never back from a partial fill to submitted, and a terminal status stays |
| ManualOutcomes.StatusReportOutcome | backend/app/services/manual_callbacks.py:205-287 | A status report moves the newest order of its id, else of its permanent id, by its text and teaches it the permanent id; otherwise nothing changes |
| ManualOutcomes.OpenOrderOutcome | backend/app/services/manual_callbacks.py:289-343 | An open-order report moves the newest order of its reference, else id, else permanent id, by its text if it has one, and teaches it both ids |
| ManualOutcomes.ErrorOutcome | backend/app/services/manual_callbacks.py:150-197 | An error rejects exactly the newest order of its id, if that is live and the code is neither a warning nor pacing |
| ManualListener.ManualExecutionListener.constructor | backend/app/services/manual_callbacks.py:57-70 | A new listener works on the stored tables, with nothing buffered |
| ManualListener.ManualExecutionListener.HandleExecDetails | backend/app/services/manual_callbacks.py:345-711 | The handler has exactly the effect of the execution step, returns exactly the order the execution names, and says whether it was booked |
| ManualListener.ManualExecutionListener.ApplyExecution | backend/app/db/repositories/manual_repository.py:380-546 | The repository's eight transitions equal the accounting step: the lot alone changes, takes the fill's shares, books profit only on shares closed, and closes exactly when it comes back to nothing |
| ManualListener.ManualExecutionListener.HandleCommissionReport | backend/app/services/manual_callbacks.py:713-770 | Buffers, applies or ignores the commission exactly as the commission step, and says which |
| ManualListener.ManualExecutionListener.HandleOrderStatus | backend/app/services/manual_callbacks.py:205-287 | Has exactly the effect of the status step |
| ManualListener.ManualExecutionListener.HandleOpenOrder | backend/app/services/manual_callbacks.py:289-343 | Has exactly the effect of the open-order step |
| ManualListener.ManualExecutionListener.HandleError | backend/app/services/manual_callbacks.py:171-197 | Rejects the live order it names, warnings aside, and nothing else |
| Orders.FilledEvolves | backend/app/oms/coordinator.py:622-627 | A leg's fills never go down, and stand still once its orders are settled |
| Orders.CompleteStaysComplete | backend/app/oms/coordinator.py:629-634 | A complete basket stays complete whatever the broker does |
| Orders.ChainEvolves | backend/app/oms/coordinator.py:714-902 | The chain of a basket's orders survives anything the broker may do |
| Orders.ChainExtends | backend/app/oms/coordinator.py:714-902 | An order for exactly the unfilled remainder of a settled leg extends the chain |
| Orders.NeverOverOrdered | backend/app/oms/coordinator.py:714-902 | At every point of the retries a leg's fills plus all that still works on it stay within the quantity asked for |
| LedgerRows.BasketCompleteFromDbOrders | backend/app/oms/coordinator.py:600-620 | The loop over order rows computes the row-wise completeness check |
| LedgerRows.TargetIsLegQuantity | backend/app/oms/coordinator.py:612-614 | The largest row quantity of a leg is the leg's quantity |
| LedgerRows.RowCheckAgrees | backend/app/oms/coordinator.py:600-634 | The row check holds if and only if the in-memory check does and every leg has an order |
| LedgerRows.RowCheckAgreesForPositiveLegs | backend/app/oms/coordinator.py:600-634 | With leg quantities above the tolerance both checks give the same answer |
| LedgerRows.CompensationRowsIgnored | backend/app/oms/coordinator.py:605-607 | Reversal rows do not change the row check |
| Coordinator.BasketCoordinator.CancelWorking | backend/app/oms/coordinator.py:692-712 | Succeeds only with every order settled after asking to cancel each one still working, and fails only if one was not settled at the start and either a request was refused or one is not settled afterwards |
| Coordinator.BasketCoordinator.Working | backend/app/oms/coordinator.py:700-700 | The orders still waited for: pending, submitted, partially filled, or in error while parked; none exactly when all are settled |
| Coordinator.BasketCoordinator.SubmitRemainder | backend/app/oms/coordinator.py:783-879 | Places one order for what the leg lacks and keeps the chain, leaving other legs settled |
| Coordinator.BasketCoordinator.RetryRound | backend/app/oms/coordinator.py:781-893 | Each leg gets at most one order for exactly what it lacks, only where the risk check passes and never refused it before and its key was not used; a leg without one is covered, refused, already retried under its key or failed to place |
| Coordinator.BasketCoordinator.RetryRoundAndWait | backend/app/oms/coordinator.py:781-902 | The round's account of every leg still holds after its wait, and the chain is kept |
| Coordinator.BasketCoordinator.RetryIncomplete | backend/app/oms/coordinator.py:714-902 | At most maxRetries rounds and legs times rounds orders, which are exactly the rounds' orders, each round accounting for every leg and a refused leg staying refused; the chain is kept; the loop stops only for a reason the conditions or the orders give |
| Coordinator.BasketCoordinator.CompensateFilled | backend/app/oms/coordinator.py:934-1036 | One reversal per filled leg, opposite side, for the leg's whole fill, in leg order; refused exactly if the last came back rejected or in error |
| Coordinator.BasketCoordinator.FailCritical | backend/app/oms/coordinator.py:1038-1049 | Adds the pair of a known account to the latch, keeps every other pair, and stores the row as critical, leaving every other row |
| Coordinator.BasketCoordinator.SubmitLegs | backend/app/oms/coordinator.py:294-361 | Submits the legs in order for their whole quantity and stops after the first that comes back rejected or failed |
| Coordinator.BasketCoordinator.Reverse | backend/app/oms/coordinator.py:469-494 | Done if and only if no reversal was refused on placing and all read as filled afterwards, and then the basket is flat; the result lists the reversals placed, and none of them if and only if one was refused |
| Coordinator.BasketCoordinator.Unwind | backend/app/oms/coordinator.py:434-518 | Ends compensated only when flat, critical only when an order could not be settled or a reversal failed, having asked to cancel whatever still worked before reversing; the basket's own row takes the outcome, its pair is latched exactly if it is critical, and other rows and pairs are as they were |
| Coordinator.BasketCoordinator.CompleteByRetrying | backend/app/oms/coordinator.py:394-405 | Retries exactly when incomplete, keeps the chain and the bound on orders |
| Coordinator.BasketCoordinator.Execute | backend/app/oms/coordinator.py:223-518 | Every run ends parked, open or closed with every leg filled, compensated and flat, or critical and blocked for opening, each justified by what happened; its own row is stored with the outcome and its pair latched exactly if it is critical, other rows and pairs being as they were; orders stay within legs times (1 + maxRetries) |
| Coordinator.CompletedReversalsFlatten | backend/app/oms/coordinator.py:636-651 | When the completeness check of reversals passes, every leg is flat up to the tolerance per order |
| Coordinator.IncompleteMeansFilled | backend/app/oms/coordinator.py:636-651 | When that check fails, some leg holds a fill beyond the tolerance |
| Coordinator.FlatEvolves | backend/app/oms/coordinator.py:496-518 | A flat basket stays flat whatever the broker does |
| Coordinator.DoneMeansFilled | backend/app/oms/coordinator.py:407-432 | An open or closed basket holds each leg's quantity, never more and short by no more than the tolerance |
| Coordinator.OutcomeIff | backend/app/oms/coordinator.py:386-520 | A run stays executing exactly with an order parked after the first wait; otherwise it ends opened or closed, by its action, exactly with every leg filled up to the tolerance when that is decided, and unwound if not |
| Coordinator.ExactlyFlatIff | backend/app/oms/coordinator.py:487-518 | A flat basket has exactly nothing left on a leg if and only if the leg's reversal filled its whole quantity or, without one, nothing filled |
| Coordinator.ToleranceStaysOpen | backend/app/oms/coordinator.py:636-645 | A basket that counts as compensated and keeps half the tolerance open |
| Coordinator.FlatIncompleteIff | backend/app/oms/coordinator.py:636-651 | A flat basket fails the completeness check if and only if some reversal does not read as filled or leaves its leg open beyond the tolerance, or the kill switch forbade reversals and some order filled |
| Coordinator.FilledReversalMayReadCancelled | backend/app/oms/coordinator.py:646-651 | A basket that is flat and does not count as compensated, its reversal filled in full but reading cancelled |
| Coordinator.LotFillsReverseExactly | backend/app/oms/coordinator.py:487-518 | With fills in lots larger than the tolerance can add up to, a compensated basket is exactly flat on every leg |
| OmsOrders.ExecutionsWeightedAverage | backend/app/oms/models.py:96-106 | The loop computes notional over quantity of the positive executions, or nothing |
| OmsOrders.ExecutionsCommissionTotal | backend/app/oms/models.py:109-115 | The loop computes the total of the known commissions |
| OmsOrders.AverageWithinPrices | backend/app/oms/models.py:96-106 | The derived average lies between the lowest and highest execution price |
| OmsOrders.AverageIsPaid | backend/app/oms/models.py:96-108 | At the derived average the shares cost what was paid for them, and there is one exactly if some execution has shares |
| OmsOrders.AverageStaysDerivedIff | backend/app/oms/ibkr_adapter.py:973-1034 | The average stays the derived one if and only if the callback records something, reports no average, or reports that one |
| OmsOrders.StatusReportMoves | backend/app/oms/ibkr_adapter.py:772-844 | A status report never lowers fills, loses records or moves a terminal order |
| OmsOrders.ExecutionMoves | backend/app/oms/ibkr_adapter.py:944-1052 | Nor does an execution report |
| OmsOrders.CommissionMoves | backend/app/oms/ibkr_adapter.py:1084-1108 | Nor does a first commission report |
| OmsOrders.ErrorMoves | backend/app/oms/ibkr_adapter.py:1125-1153 | Nor does an error, and no error text makes an order look parked |
| OmsOrders.ParkThenUnpark | backend/app/oms/ibkr_adapter.py:1221-1245 | Closing and restoring the connection returns a live order to Submitted and leaves terminal ones |
| OmsOrders.StatusReportHonest | backend/app/oms/ibkr_adapter.py:714-756 | A status report that accounts for the whole order keeps filled plus remaining at least the quantity and Filled truthful |
| OmsOrders.ExecutionHonest | backend/app/oms/ibkr_adapter.py:981-1000 | An execution report keeps both |
| OmsOrders.OtherCallbacksHonest | backend/app/oms/ibkr_adapter.py:881-1245 | Open-order reports, errors and the connection keep both |
| OmsOrders.FalseFillIff | backend/app/oms/ibkr_adapter.py:714-756 | A status report makes a live order falsely Filled exactly when it says Filled with something filled short of the quantity and nothing remaining |
| OmsOrders.EmptyFilledDoesNotPromote | backend/app/oms/ibkr_adapter.py:749-754 | A Filled report, with a quantity of nothing or without one, leaves an unfilled order live and unfilled |
| OmsOrders.MovesAreEvolution | backend/app/oms/ibkr_adapter.py:714-1245 | A single callback is a step the coordinator's broker assumption allows, if the broker does not overfill or fill settled orders |
| Adapter.BindConsistent | backend/app/oms/ibkr_adapter.py:489-496 | Binding an order to an unused id keeps the id maps exact inverses |
| Adapter.ResolveTouchesOnlyTarget | backend/app/oms/ibkr_adapter.py:530-600 | Resolving an id changes no other order's binding and files the target under the id |
| Adapter.GuessIffUnique | backend/app/oms/ibkr_adapter.py:558-585 | An unknown id is matched by contract, side and quantity if and only if there is exactly one unmapped live candidate |
| AdapterOutcomes.CandidateIff | backend/app/oms/ibkr_adapter.py:498-574 | A candidate is exactly a live order that carries no id, of the contract and side and within a millionth of the quantity |
| AdapterOutcomes.TargetIff | backend/app/oms/ibkr_adapter.py:530-600 | A callback is about an order exactly if the order carries the id; else if it is the first with the permanent id; else if it alone is live, without an id, of the contract, side and quantity |
| AdapterOutcomes.AboutNobody | backend/app/oms/ibkr_adapter.py:772-1052 | A report or an execution about no order changes nothing |
| Adapter.SubmitConsistent | backend/app/oms/ibkr_adapter.py:416-438 | Submitting under a fresh id keeps the maps consistent |
| Adapter.AdoptConsistentIff | backend/app/oms/ibkr_adapter.py:481-496 | Adopting an order whose broker id is nobody else's keeps the maps consistent if and only if it does not replace one that stays filed under another id |
| Adapter.StepConsistent | backend/app/oms/ibkr_adapter.py:435-600 | Every submission, adoption and callback keeps the two id maps and the ids orders carry in exact agreement, so no order sits under two ids |
| AdapterRuns.StepOrderwise | backend/app/oms/ibkr_adapter.py:714-1245 | A callback does to each order one of the known transitions or nothing |
| AdapterRuns.StepMoves | backend/app/oms/ibkr_adapter.py:714-1245 | Every step moves every order only forward |
| AdapterRuns.StepTotals | backend/app/oms/ibkr_adapter.py:1016-1107 | Every step keeps each order's commission the total over its records |
| AdapterRuns.RunMoves | backend/app/oms/ibkr_adapter.py:714-1245 | Over any run fills never go down, records are never lost, filled, cancelled and rejected never change, and commissions are totals |
| AdapterRuns.ParkedUntilRestored | backend/app/oms/ibkr_adapter.py:1221-1245 | A parked order stays parked under every callback but a restored connection, which unparks it |
| AdapterRuns.StepHonest | backend/app/oms/ibkr_adapter.py:714-1245 | One step keeps every order honest |
| AdapterRuns.RunHonest | backend/app/oms/ibkr_adapter.py:714-1245 | If status reports account for whole orders, then over any run filled plus remaining covers the quantity and Filled means filled |
| AdapterRuns.RunIsEvolution | backend/app/oms/ibkr_adapter.py:714-1245 | Over any run of a broker that neither overfills nor fills settled orders, what the coordinator sees of the orders evolves as its broker assumption says |
| AdapterEvents.UnbrokenIsOrderly | backend/app/oms/ibkr_adapter.py:846-879 | The phase automaton says exactly: one acknowledgement, before any fill event, one fill event, no partial fill after it |
| AdapterEvents.AnnounceTells | backend/app/oms/ibkr_adapter.py:853-879 | Telling the events due after a callback keeps tables and log in step |
| AdapterEvents.StepDisciplined | backend/app/oms/ibkr_adapter.py:846-926 | Every step keeps the event discipline |
| AdapterEvents.RunDisciplined | backend/app/oms/ibkr_adapter.py:846-926 | Every run keeps the event discipline |
| AdapterEvents.ListenersSeeOrderlyEvents | backend/app/oms/ibkr_adapter.py:846-879 | In every run listeners see orderly events, and FILL was told exactly for the orders that are Filled |
| AdapterConfluence.ExecuteTracks | backend/app/oms/ibkr_adapter.py:973-1030 | An execution leaves the tables a function of what was delivered |
| AdapterConfluence.CommissionTracks | backend/app/oms/ibkr_adapter.py:1084-1108 | So does a commission, before or after its execution, once or repeatedly |
| AdapterConfluence.RunTracks | backend/app/oms/ibkr_adapter.py:944-1108 | After any run the records, commissions, pending and seen sets are determined by the sets delivered |
| AdapterConfluence.SameRecordsSameSums | backend/app/oms/models.py:96-115 | Two lists of the same records have the same commission total, quantity and notional |
| AdapterConfluence.DeliveriesAreConfluent | backend/app/oms/ibkr_adapter.py:944-1108 | Two runs delivering the same executions and commissions in any order and repetition, with anything in between, leave the same records, commission, derived average and pending commissions |
| AdapterConfluence.AverageIsNotConfluent | backend/app/oms/ibkr_adapter.py:992-993 | A repeated execution overwrites the derived average |
| FillConfluence.ExecutionQuantities | backend/app/oms/ibkr_adapter.py:981-1000 | What one execution, new or repeated, makes of filled, remaining, status and records |
| FillConfluence.TalliesOneMore | backend/app/oms/ibkr_adapter.py:973-1000 | One more execution keeps filled, remaining, status and recorded shares a function of the executions delivered so far |
| FillConfluence.TalliedBetween | backend/app/oms/ibkr_adapter.py:981-989 | Whatever the order and repetition of delivery, filled lies between two bounds that depend on the set delivered alone |
| FillConfluence.TallyIff | backend/app/oms/ibkr_adapter.py:981-989 | Any two orders of delivery come to the same filled quantity if and only if the executions are settled; executions without a cumulative quantity give the least when first and the most when last |
| FillConfluence.DeliveriesAgreeIff | backend/app/oms/ibkr_adapter.py:973-1000 | All deliveries of an order's executions leave the same filled, remaining and status if and only if none lacks a cumulative quantity, or all recorded shares are at most the largest of initial filled, largest cumulative quantity, and shares recorded before with those of the executions without one |
| FillConfluence.StepTallies | backend/app/oms/ibkr_adapter.py:944-1108 | An execution or commission callback of the adapter keeps an order's quantities as tallied |
| FillConfluence.SettledFillsAreConfluent | backend/app/oms/ibkr_adapter.py:944-1108 | Two runs of the same executions, in any order and repetition and with commissions between, leave the same quantities and status on every order whose executions are settled |
| FillConfluence.FillsAreConfluent | backend/app/oms/ibkr_adapter.py:981-1000 | So whenever each execution carries its cumulative quantity |
| FillConfluence.ShareFillsAreConfluent | backend/app/oms/ibkr_adapter.py:981-1000 | And whenever none carries one: the recorded shares add up in any order |
| FillConfluence.MixedFillsAreNotConfluent | backend/app/oms/ibkr_adapter.py:981-989 | 5 shares at a cumulative 1 and 1 share without a cumulative quantity: filled is 1 or 6 by the order of delivery |
| FillConfluence.ConsistentFillsAreNotConfluent | backend/app/oms/ibkr_adapter.py:981-989 | 1 share at a cumulative 1, which agrees with it, and 5 shares without one: filled is 6 or 5 by the order of delivery |
| IbkrAdapter.IbkrExecutionAdapter.constructor | backend/app/oms/ibkr_adapter.py:69-117 | A new adapter has empty, consistent tables |
| IbkrAdapter.IbkrExecutionAdapter.BindTwsId | backend/app/oms/ibkr_adapter.py:489-496 | Rebinds the order in both maps and drops its old id |
| IbkrAdapter.IbkrExecutionAdapter.FindByPermId | backend/app/oms/ibkr_adapter.py:544-556 | The first order with the permanent id |
| IbkrAdapter.IbkrExecutionAdapter.FindCandidates | backend/app/oms/ibkr_adapter.py:498-574 | Exactly the live unmapped orders that match, in order |
| IbkrAdapter.IbkrExecutionAdapter.ResolveOrder | backend/app/oms/ibkr_adapter.py:530-600 | Finds the target and rebinds it, touching nothing if there is none |
| IbkrAdapter.IbkrExecutionAdapter.ApplyMappedStatus | backend/app/oms/ibkr_adapter.py:714-756 | Changes the one order as the status rules say |
| IbkrAdapter.IbkrExecutionAdapter.EmitCallbackEvents | backend/app/oms/ibkr_adapter.py:846-879 | Tells the acknowledgement and fill events that are due |
| IbkrAdapter.IbkrExecutionAdapter.OnOrderStatus | backend/app/oms/ibkr_adapter.py:772-844 | The callback has exactly the effect of its step and keeps the maps consistent |
| IbkrAdapter.IbkrExecutionAdapter.OnOpenOrder | backend/app/oms/ibkr_adapter.py:881-942 | Has exactly the effect of its step on orders, tables and told events, and keeps the id maps consistent |
| IbkrAdapter.IbkrExecutionAdapter.OnExecDetails | backend/app/oms/ibkr_adapter.py:944-1052 | Has exactly the effect of its step on orders, tables and told events, and keeps the id maps consistent |
| IbkrAdapter.IbkrExecutionAdapter.RecordExecution | backend/app/oms/ibkr_adapter.py:973-1052 | Counts the report and records the execution once, with its buffered commission |
| IbkrAdapter.IbkrExecutionAdapter.CountShares | backend/app/oms/ibkr_adapter.py:981-989 | Filled from the cumulative quantity, else from the recorded shares, never down |
| IbkrAdapter.IbkrExecutionAdapter.OnCommissionReport | backend/app/oms/ibkr_adapter.py:1058-1108 | Buffers or applies the commission once, with exactly the effect of its step |
| IbkrAdapter.IbkrExecutionAdapter.OnError | backend/app/oms/ibkr_adapter.py:1155-1219 | Attaches the first error text, moves only a live order, with exactly the effect of its step |
| IbkrAdapter.IbkrExecutionAdapter.OnConnectionClosed | backend/app/oms/ibkr_adapter.py:1221-1234 | Parks every live order |
| IbkrAdapter.IbkrExecutionAdapter.OnConnectionRestored | backend/app/oms/ibkr_adapter.py:1236-1245 | Unparks every parked order |
| IbkrAdapter.IbkrExecutionAdapter.SubmitOrder | backend/app/oms/ibkr_adapter.py:416-438 | Files a new order under its id, refuses a known internal id |
| IbkrAdapter.IbkrExecutionAdapter.AdoptOrder | backend/app/oms/ibkr_adapter.py:481-496 | Registers an existing order under the id it carries, in place of one with its internal id; the maps stay consistent exactly unless that one stays filed under another id |
| Text.SpellsIff | backend/app/oms/ibkr_adapter.py:699-699 | A text spells a word, blanks and letter case aside, exactly when it is the word once in upper case and without blanks |
| AdapterOutcomes.MappedFollows | backend/app/oms/ibkr_adapter.py:697-756 | The status a text leaves on a live order, blanks and letter case aside: cancelled exactly for Cancelled or ApiCancelled, rejected exactly for Inactive or Rejected, and otherwise by the quantities first and by the word if they say nothing; a terminal order keeps status and quantities |
| AdapterOutcomes.StatusReportOutcome | backend/app/oms/ibkr_adapter.py:772-844 | A status report changes one order alone: its status by the text and quantities, filled never down, remaining as reported, the average derived, else reported, else the limit price, and the ids it learns |
| AdapterOutcomes.OpenOrderOutcome | backend/app/oms/ibkr_adapter.py:881-942 | An open-order report with a text changes one order's status and ids alone; one without changes nothing |
| AdapterOutcomes.ExecutionOutcome | backend/app/oms/ibkr_adapter.py:944-1052 | An execution changes one order alone: filled by the cumulative quantity, else by all shares recorded; remaining, status, prices and commission with it; and is recorded on its first delivery with the commission that waited |
| AdapterOutcomes.CommissionWaits | backend/app/oms/ibkr_adapter.py:1084-1092 | A commission without a recorded execution waits, unusable ones as 0 |
| AdapterOutcomes.CommissionReaches | backend/app/oms/ibkr_adapter.py:1092-1108 | Otherwise it is written to its record once, the order's total follows, and listeners are told |
| AdapterOutcomes.ErrorOutcome | backend/app/oms/ibkr_adapter.py:1110-1219 | An error gives an order its first text and ends a live one: cancelled by 202, rejected by 200, 201, 10147, 10148 and 10243, in error otherwise; pacing and warnings change nothing |
| AdapterOutcomes.ErrorOfNobody | backend/app/oms/ibkr_adapter.py:1170-1219 | An error of an id nobody carries changes nothing |
| AdapterOutcomes.ConnectionOutcome | backend/app/oms/ibkr_adapter.py:1221-1245 | Losing the connection parks exactly the live orders; restoring it unparks exactly the parked |
| AdapterOutcomes.SubmitOutcome | backend/app/oms/ibkr_adapter.py:416-438 | A submitted order is appended and filed under its id, unless its internal id is known |
| AdapterOutcomes.AdoptNewOutcome | backend/app/oms/ibkr_adapter.py:481-496 | An adopted order of a new internal id is appended and filed under the id it carries |
| AdapterOutcomes.AdoptInPlaceOutcome | backend/app/oms/ibkr_adapter.py:481-496 | One of a known internal id takes the place of the order that had it |
| AdapterOutcomes.AnnounceOutcome | backend/app/oms/ibkr_adapter.py:846-879 | The acknowledgement is told unless it was, the fill of a filled order unless it was, a partial fill for a new execution or for a status report of more than was told on an order without executions, and nothing else |
| AdapterOutcomes.StatusReportTells | backend/app/oms/ibkr_adapter.py:772-879 | So after a status report |
| AdapterOutcomes.OpenOrderTells | backend/app/oms/ibkr_adapter.py:846-942 | So after an open-order report |
| AdapterOutcomes.ExecutionTells | backend/app/oms/ibkr_adapter.py:846-1052 | So after an execution |
| AdapterOutcomes.StepEndsAsSaid | backend/app/oms/ibkr_adapter.py:714-1245 | A step makes an order cancelled or rejected only by a text or an error code that says so |
| AdapterOutcomes.RunEndsAsSaid | backend/app/oms/ibkr_adapter.py:714-1245 | Over any run no order is cancelled or rejected unless a report or an error said so |
| Persistence.NothingWaitingMeansTakenUp | backend/app/oms/coordinator.py:1242-1268 | A kind that no longer waits was taken up by a write that started after its report, whether or not that write succeeded |
| Persistence.WaitingWasReported | backend/app/oms/coordinator.py:1242-1268 | A kind that waits was reported and taken up by no later write |
| Persistence.StartKeeps | backend/app/oms/coordinator.py:1254-1261 | Starting a write takes up exactly what waits, never the fallback |
| Persistence.StepKeeps | backend/app/oms/coordinator.py:1242-1268 | Every step keeps the tables in agreement with what happened |
| Persistence.NothingIsLost | backend/app/oms/coordinator.py:1242-1268 | In every interleaving at most one write per order runs, each takes up exactly what was reported and not taken up, and at rest everything was taken up later and the tables are empty |
| Persistence.StrandedIffDirty | backend/app/oms/coordinator.py:1266-1268 | Kinds wait exactly when the order is marked dirty, also after failed writes |
| Persistence.WaitingIsSinceStart | backend/app/oms/coordinator.py:1242-1261 | What waits is exactly what was reported since the order's last write started |
| Persistence.FailedKindsAreGone | backend/app/oms/coordinator.py:1254-1268 | Whenever a write in flight fails, exactly the kinds reported since it started are remembered, so those it had taken up are gone, and the order is left dirty if and only if there are any |
| Persistence.NextCallbackRescues | backend/app/oms/coordinator.py:1242-1261 | The next callback takes stranded kinds along |
| Persistence.TwoWritesSettle | backend/app/oms/coordinator.py:1254-1268 | Without further callbacks at most two finished writes bring an order to rest |
| Persistence.PersistQueue.TakeKinds | backend/app/oms/coordinator.py:1256-1259 | Takes the remembered kinds and forgets them |
| Persistence.PersistQueue.OnBrokerCallback | backend/app/oms/coordinator.py:1242-1261 | Starts a write of all that waits unless one runs, and then only remembers |
| Persistence.PersistQueue.OnWriteFinished | backend/app/oms/coordinator.py:1260-1268 | Writes again exactly when something waits, otherwise rests |
| Persistence.PersistQueue.OnWriteRaised | backend/app/oms/coordinator.py:1266-1268 | Only releases the order |
| ChangeStream.ObserveAgrees | backend/demo_streaming/publisher.py:165-210 | Comparing one leg keeps reader and tables in agreement with the snapshot read so far |
| ChangeStream.PollAgrees | backend/demo_streaming/publisher.py:133-261 | After one poll the folded records have exactly the keys and structural fields of the snapshot |
| ChangeStream.RestoreAgrees | backend/demo_streaming/publisher.py:106-131 | After the baseline the bridge agrees with a reader who holds it |
| ChangeStream.StreamRefinesSnapshot | backend/demo_streaming/publisher.py:106-261 | Over any run of polls the reader's view has the last snapshot's keys and agrees with it in status, closing flag and details |
| ChangeStream.PnlRecordsAreSpaced | backend/demo_streaming/publisher.py:212-230 | Over any run, whatever the clock does, profit-and-loss records of one trade are at least the interval apart |
| ChangeStream.TellsOpenAndCloseOnce | backend/demo_streaming/publisher.py:163-261 | A poll tells one closing per disappeared key and one opening per key never seen, and none else |
| ChangeStream.PnlToldIff | backend/demo_streaming/publisher.py:205-222 | A trade's profit and loss is told on its own if and only if it alone changed on some leg and the interval has passed |
| ChangeStream.SwallowedIff | backend/demo_streaming/publisher.py:202-235 | For every poll: a leg whose profit and loss alone changed is marked as told without any record carrying it if and only if its trade is not throttled and another leg of it with a lesser symbol changed likewise |
| ChangeStream.SiblingPnlIsSwallowed | backend/demo_streaming/publisher.py:219-230 | A poll of two such legs: one record, for the lesser symbol, and both marked as told |
| ChangeStream.PositionBridge.RestoreBaseline | backend/demo_streaming/publisher.py:120-126 | Remembers every leg and tells nobody |
| ChangeStream.PositionBridge.WatchLegs | backend/demo_streaming/publisher.py:163-210 | The loop over legs equals the specified comparison |
| ChangeStream.PositionBridge.TellProfitAndLoss | backend/demo_streaming/publisher.py:212-230 | The throttled loop equals the specified telling |
| ChangeStream.PositionBridge.FindVanished | backend/demo_streaming/publisher.py:232-234 | Exactly the keys that were open and are gone, in the order first seen |
| ChangeStream.PositionBridge.CloseVanished | backend/demo_streaming/publisher.py:235-259 | Closes each vanished key from its reloaded or last payload |
| ChangeStream.PositionBridge.PollOnce | backend/demo_streaming/publisher.py:163-261 | The poll emits exactly the specified records and leaves the specified state |
| Text.LessIff | backend/demo_streaming/publisher.py:209-210 | Symbols are compared by code points: a proper prefix is less, and otherwise the first difference decides |
| StreamOutcomes.ChangedIsTold | backend/demo_streaming/publisher.py:163-204 | A leg that is new or differs in key, status, closing flag or details is told, as an opening if it was never seen, as a partial close if a close is under way, else as an update |
| StreamOutcomes.UnchangedIsNotTold | backend/demo_streaming/publisher.py:163-230 | A leg that differs in nothing from what was told of it is in no record of the poll |
| StreamOutcomes.PnlAloneToldIff | backend/demo_streaming/publisher.py:205-230 | A leg whose profit and loss alone changed is told if and only if the interval has passed and no such leg of its trade has a lesser symbol |
| StreamOutcomes.GoneIsClosed | backend/demo_streaming/publisher.py:232-259 | Every leg that is gone is told as closed, from its reloaded row or else from what was last read of it |
| RejectReason.ReasonLength | backend/app/services/account_reject_reason.py:31-34 | The lazy reason ends at the first place where a header, a separator before one, or the end follows |
| RejectOutcomes.HeaderIff | backend/app/services/account_reject_reason.py:31-34 | The word Account in any letter case, white space, a label without white space and the first colon behind its first character are read as that label's header |
| RejectOutcomes.HeaderIsSome | backend/app/services/account_reject_reason.py:31-34 | And nothing else is read as a header |
| RejectOutcomes.NoMatchIff | backend/app/services/account_reject_reason.py:31-34 | There is no match exactly if there is no header |
| RejectOutcomes.FirstMatchIs | backend/app/services/account_reject_reason.py:31-44 | The first match starts at the first header and its reason runs from behind the white space after it up to the first end |
| RejectOutcomes.LastSpeaks | backend/app/services/account_reject_reason.py:43-48 | A label's reason is that of its last match with something left once tidied |
| RejectOutcomes.NobodySpeaks | backend/app/services/account_reject_reason.py:43-48 | A label without such a match has none |
| RejectOutcomes.TidyIs | backend/app/services/account_reject_reason.py:46-46 | Tidying takes white space off both ends and then blanks and semicolons off the end |
| RejectOutcomes.UntaggedOutcome | backend/app/services/account_reject_reason.py:55-106 | A text without a header is every account's reason, and tagging puts the account's name in front, or else its id |
| RejectReason.ParseAccountRejectSegments | backend/app/services/account_reject_reason.py:37-48 | The loop over matches computes the parse |
| RejectReason.NoHeaderAcross | backend/app/services/account_reject_reason.py:31-34 | No header starts in a reason and ends behind it |
| RejectReason.FormatMatches | backend/app/services/account_reject_reason.py:31-137 | Scanning printed segments finds them again |
| RejectReason.ParseScanned | backend/app/services/account_reject_reason.py:37-48 | Whatever the text, what is parsed can be printed: labels without spaces, reasons without headers, sorted and unique |
| RejectReason.FormatLookup | backend/app/services/account_reject_reason.py:37-137 | Parsing printed segments gives every account its own reason, tidied |
| RejectReason.PrintThenParseIff | backend/app/services/account_reject_reason.py:37-137 | Parsing undoes printing if and only if no reason ends in white space |
| RejectReason.MergeOverridesIff | backend/app/services/account_reject_reason.py:109-137 | For all texts, parsing a merge is the old map overridden by the new one if and only if the text is passed through or no merged reason ends in white space |
| RejectReason.MergeIsIdempotent | backend/app/services/account_reject_reason.py:109-137 | Merging the same text twice gives the same text, tagged or not, if no reason ends in white space |
| RejectReason.MergesCommute | backend/app/services/account_reject_reason.py:109-137 | News for different accounts gives the same text in either order |
| RejectReason.ScopeReadsNewest | backend/app/services/account_reject_reason.py:55-137 | After a merge an account reads its newest reason and every other reader its own; a reader with neither falls back to the label that is its account id in digits |
| RejectReason.ReadsAnotherIff | backend/app/services/account_reject_reason.py:55-86 | A reader gets what is not under its own name if and only if nothing is and a label is its account id in digits |
| RejectReason.SiblingIsRead | backend/app/services/account_reject_reason.py:76-86 | The reason of an account called 7 is read by another account with id 7 |
| RejectReason.MergeLosesLineBreak | backend/app/services/account_reject_reason.py:45-45 | A reason followed by a line break and a semicolon is read with the line break and loses it in a merge |
| Segments.OverrideSorted | backend/app/services/account_reject_reason.py:129-131 | Overriding keeps labels sorted and unique, and looks up the newer reason where there is one |
| Segments.SameLookups | backend/app/services/account_reject_reason.py:134-137 | Two sorted lists with the same lookups are the same, so printing is determined by the map |
| CriticalLatch.StepCoveredIff | backend/app/oms/coordinator.py:116-159 | A step leaves a critical row neither latched nor about to be if and only if it stores after its mark was discarded, discards after a critical row came up, or reaps an unmarked pair |
| CriticalLatch.CoveredAlongIff | backend/app/oms/coordinator.py:116-221 | In any run every critical row is guarded at every point if and only if none of the three hazards occurs on the way |
| CriticalLatch.ClearOvertakesFail | backend/app/oms/coordinator.py:155-156 | A run in which clearing one basket unlatches another that is just failing |
| CriticalLatch.DiscardOvertakesStore | backend/app/oms/coordinator.py:155-156 | A run in which the discard of a clearing comes after another basket of the pair was stored as critical |
| CriticalLatch.ReapedIsUnmarked | backend/app/db/repositories/basket_repository.py:145-174 | A reaped basket of a pair that was never marked is critical and not blocked |
| CriticalLatch.SafeStep | backend/app/oms/coordinator.py:116-159 | If clearing a pair keeps out of the way of failing and escalating it, one step keeps every critical row guarded and meets no hazard, however many baskets of the pair fail at once |
| CriticalLatch.CriticalMeansBlocked | backend/app/oms/coordinator.py:116-221 | Under that discipline, in every run every critical row is guarded at every point, and its pair is latched whenever nothing is under way |
| CriticalLatch.ClearReleasesIff | backend/app/oms/coordinator.py:129-156 | Clearing recovers its row alone and goes on to release the pair if and only if no other row of the pair is critical |
| CriticalLatch.ReleaseOutcome | backend/app/oms/coordinator.py:155-156 | Releasing takes the pair out of the latch and no other |
| CriticalLatch.CriticalRegistry.FailCritical | backend/app/oms/coordinator.py:1046-1048 | Marks the pair before the row is stored |
| CriticalLatch.CriticalRegistry.PersistCritical | backend/app/oms/coordinator.py:1049-1049 | Stores the critical row |
| CriticalLatch.CriticalRegistry.PersistEscalated | backend/app/oms/coordinator.py:568-577 | Stores the escalated row before the pair is marked |
| CriticalLatch.CriticalRegistry.MarkCritical | backend/app/oms/coordinator.py:121-124 | Marks the pair |
| CriticalLatch.CriticalRegistry.CommitRecovered | backend/app/oms/coordinator.py:129-154 | Recovers the row and sees exactly whether another of the pair is critical |
| CriticalLatch.CriticalRegistry.DiscardLatch | backend/app/oms/coordinator.py:155-156 | Discards the mark |
| CriticalLatch.CriticalRegistry.HydrateCriticalFromDb | backend/app/oms/coordinator.py:213-219 | The loop latches exactly the pairs with a critical row, and leaves the rows alone |
| CriticalRecovery.CollectLeftoverLegs | backend/app/services/critical_recovery.py:293-317 | The loop collects the contract ids of filled legs, each once |
| CriticalRecovery.LeftoversAre | backend/app/services/critical_recovery.py:293-317 | An id is collected if and only if some non-compensation row with more than the tolerance filled carries it; each once |
| CriticalRecovery.BrokerFlatFor | backend/app/services/critical_recovery.py:412-425 | Flat exactly if each id is missing from the snapshot or within a millionth of nothing |
| CriticalRecovery.RecoverOnce | backend/app/services/critical_recovery.py:198-291 | Releases exactly when it may, also when writing the event raises after that; asks for another attempt exactly when it raised or found the basket not clearable with an attempt left |
| CriticalRecovery.RunRecovery | backend/app/services/critical_recovery.py:162-196 | At most two attempts, the second only if the first asks for it; releases if and only if an attempt that is made may release |
| CriticalRecovery.ReleaseIff | backend/app/services/critical_recovery.py:198-425 | A basket is released if and only if it is still critical, its account and coordinator are known, nothing failed before it was judged, and no filled non-compensation row carries a contract id or both snapshots came and the later shows all that do as missing or flat |
| ContractKey.KeyRoundTripIff | backend/app/instruments/models.py:41-43 | Parsing a printed key gives back every field if and only if the contract id is not 0 |
| ContractKey.DecimalParses | backend/app/services/critical_recovery.py:45-50 | Every printed contract id parses back |
| ContractKey.SplitOnce | backend/app/services/critical_recovery.py:51-51 | Splitting at a dash takes off exactly the dash-free first part |
| ContractKey.SplitJoined | backend/app/services/critical_recovery.py:51-51 | Splitting at dashes undoes joining |
| ContractKey.JoinSplit | backend/app/services/critical_recovery.py:51-51 | Joining undoes splitting, so every text is joined of its parts |
| ContractKey.ParseOutcome | backend/app/services/critical_recovery.py:41-59 | Of any key: the id is the number behind the last colon if it is one, the fields are the first four parts in front of it, and with fewer than four the symbol with STK, SMART and USD |
| ContractKey.NumberIff | backend/app/services/critical_recovery.py:47-50 | An id is read if and only if the text is digits behind at most one sign, white space aside |
| ContractKey.LeadingZero | backend/app/services/critical_recovery.py:48-48 | A leading zero does not change the number |
| Migration.StagesDiffer | backend/alembic/versions/a4c7e2f10938_normalize_strategy_id_keys.py:85-116 | Any two rows have different keys in any mixture of stages the migration passes through |
| Migration.StagedKeysDistinct | backend/alembic/versions/a4c7e2f10938_normalize_strategy_id_keys.py:85-116 | So all keys are distinct at every intermediate state |
| Migration.EarliestKeepsPlainKey | backend/alembic/versions/a4c7e2f10938_normalize_strategy_id_keys.py:58-116 | Of the rows with one new key exactly the earliest holds it plain with its status, all others are dead-lettered, and no row is lost |
| Migration.OnePlainRowPerSignal | backend/alembic/versions/a4c7e2f10938_normalize_strategy_id_keys.py:32-116 | Without digest collisions between rows of the table, the plain key goes to exactly one row of a logical signal, the earliest, if the signal is unambiguous or no strategy and action has a colon |
| Migration.NormalizedIs | backend/alembic/versions/a4c7e2f10938_normalize_strategy_id_keys.py:32-59 | The strategy id is the text without outer white space and in lower case, or the default if nothing is left; the action likewise in upper case |
| Migration.RowOutcome | backend/alembic/versions/a4c7e2f10938_normalize_strategy_id_keys.py:58-98 | A row keeps everything but its strategy id, which is normalized, and its key, which is the digest of its signal if no earlier row got that |
| Migration.DuplicateOutcome | backend/alembic/versions/a4c7e2f10938_normalize_strategy_id_keys.py:62-116 | A later row is parked behind the first of the same key: suffixed key, dead-lettered, and a note naming that job |
| Migration.KeyOutcome | backend/alembic/versions/a4c7e2f10938_normalize_strategy_id_keys.py:37-60 | A row's key is the digest of its normalized strategy id, signal id and action |
| Migration.RawKeyInjective | backend/alembic/versions/a4c7e2f10938_normalize_strategy_id_keys.py:37-39 | Two signals share a raw key if and only if they are one signal, when strategies and actions have no colon |
| Migration.RawKeyUniqueIff | backend/alembic/versions/a4c7e2f10938_normalize_strategy_id_keys.py:32-39 | Some job of another signal gets a job's raw key if and only if its normalized strategy or action can be cut at a colon into pieces that normalizing leaves alone, or its signal id has a colon whose one side can join the strategy or whose other side can join the action |
| Migration.ColonCollides | backend/alembic/versions/a4c7e2f10938_normalize_strategy_id_keys.py:37-39 | With a colon in the strategy a different signal is dead-lettered |
| Migration.SignalJobs.Plan | backend/alembic/versions/a4c7e2f10938_normalize_strategy_id_keys.py:54-80 | The loop splits the rows into plain and colliding ones, each with what it will get |
| Migration.SignalJobs.ParkAll | backend/alembic/versions/a4c7e2f10938_normalize_strategy_id_keys.py:85-89 | Parking keeps keys distinct after every row |
| Migration.SignalJobs.Rewrite | backend/alembic/versions/a4c7e2f10938_normalize_strategy_id_keys.py:91-116 | Each further update keeps keys distinct |
| Migration.SignalJobs.Upgrade | backend/alembic/versions/a4c7e2f10938_normalize_strategy_id_keys.py:42-116 | The table ends as specified and all keys were distinct after every single row update |

## Left out

- Orders as heap objects: the order table is a sequence and orders are known by their index, so aliasing of two order objects with one internal id is not captured.
- Other baskets changing the latch while one basket executes; `CriticalLatch` models those interleavings on their own.
- Exceptions raised by persistence inside `execute`, and the exception path of `submit_order` that forces ERROR.
- What-if probes, pacing, account validation and the futures waited on: a wait is any broker behaviour followed by a look at the orders.
- Rounding of stored order rows to the database's numeric scale; rows mirror the in-memory quantities exactly.
- Non-finite quantities, and white space or letters outside ASCII in texts.
- `int()` accepting underscores and other digit forms in a contract id.
- Recovery's flatten orders themselves: an attempt is judged by the snapshots before and after.
- Signal records of the change stream; only position records are modelled.
- `collect_fanout_reject_reasons`, `resolve_reject_source` and the generic fallbacks: plain uses of tagging and merging.
- Executions recorded on an order that an adopted one replaces: their later commissions go by the replaced object in the code, by its place in the model. Runs of callbacks assume that adopted orders are new.
- A crash between the two halves of a step other than by a restart that reloads the latch.
- Audit events, the trade book mirror, live profit and loss of manual positions, logging and timestamps.
- Margin checks, allocation limits, size increments, routes, schemas and the user interface.
- A second await between taking a buffered manual commission and storing its row: a handler's transaction is one step.
