# Julius, verified

A Dafny model of the money engines of Julius, with proofs of what they promise. `dafny verify dfyconfig.toml`
checks everything.

**The investment ledger** (`Ledger`, `Acceptance`, `Retroactive`, `CostBasis`, `Transfers`, `CustodyMoves`, `Openings`).
The stored state of a manual account is a list of dated operations; cash, quantities, cost and valuations are derived by
replaying it in the order of day, creation and id. A mutation may be dated in the past and commits only if every account
it touched still replays. The replay is modelled twice: as the mutable ledger the program runs, and as a function; and it
is characterised a third time without replaying at all, by prefix sums. From that characterisation follow the exact
conditions under which a backdated operation of any kind, a deletion, a transfer or the deletion of one commits.

**The book** (`Tables`, `Mutations`, `Store`, `BookInvariants`, `Committed`, `Accepted`, `Runs`). `Mutations` says what each request makes of the
tables; `Store.Database` is the transaction that writes them step by step and puts them back when it is refused. One
invariant (`BookSound`) holds in every book that any sequence of requests can reach from a sound one: no prefix of any
manual history overdraws cash or a position, transfers are atomic pairs, links respect their caps and signs. `Committed` says, field by
field, what each request leaves in the tables, `Accepted` exactly which requests commit,
and `Refusals` what each refusal means.

**Reconciliation** (`Reconciliation`, `LinkInvariants`, `LinkEffects`, `BulkUnlink`, `Reporting`). Bank lines and provider movements are
split into parcels over operations. A movement reached without naming an operation gets a derived operation, its pivot,
which is created with its first parcel, keeps the movement id on exactly one parcel, and goes with its last one. That
guarantee has one exception, stated exactly: it holds throughout a run if and only if no accepted request attaches a
movement to a synced operation by name, and a two-request run shows the exception.

**The yield engine** (`Quotes`, `Yield`, `ManualYield`, `SyncedYield`, `PositionList`, `Valued`). Values come from one-pass checkpoints,
binary search, a quantity timeline and quantities rebuilt backwards; each is proved equal to its slow definition, replaying or
summing only through the day asked about. `YieldOver` and `DailyOver` work on any `ValueSeries`, as the program's interface
does, and the daily figures telescope to the period's.

**Market data** (`SingleFlight`, `SingleFlightRuns`, `Limiter`). Both are lock-based protocols, modelled as machines whose steps are the program's
critical sections and channel operations; a run is any interleaving. The classes beside them are the sections themselves.

**Net worth and payables** (`Backfill`, `Payables`), and **the table order of the migration tool** (`TableOrder`).

`Decimals`, `Sequences`, `Sorting`, `Domain` and `Wrappers` are the vocabulary.

## Readings

- Amounts are exact reals. `Decimals.Div` stands for the decimal library's division, which is not part of this model: it is
  assumed to round half away from zero at sixteen places, and cent rounding likewise at two.
- Days are integers and an instant is an integer; identifiers are naturals, zero being the empty string. Time zones, trimming
  of text and parsing are not modelled: inputs arrive parsed.
- A table is a sequence or a map, in the order its queries ask for; a query is a function of it. A transaction is one method
  that restores the saved tables on refusal. Ids and times drawn by a request are parameters, and `FreshFor` says the ids are new.
- Where the prose of the program and its code differ, the code is followed. The comment above `Backfill` says an ignored
  transaction is never reversed; the query it calls reverses it (`internal/networth/backfill.go:201-207`). The comment above
  `defaultPenalty` speaks of any 429 without a wait; `Observe` itself pauses nothing then, and its caller does
  (`internal/marketdata/httpclient.go:152`). `orderedTables` is said to list application tables; it also lists a referenced table
  that is not among them.
- A Retry-After above 9223372036 seconds overflows the duration it is multiplied into and is not honoured;
  `Limiter.RetryAfterExactly` states the exact bound, and the first value past it reads as no pause at all.
- The attachment of a movement to a named synced operation is accepted by the code and breaks the pivot rule; see
  `Runs.PivotsStaySoundExactly`.

## Model

| member | source | states |
|---|---|---|
| Decimals.Div | internal/investments/ledger.go:36 | the library quotient lies within half a unit of the sixteenth place of the exact one (stated assumption) |
| Decimals.Prorate | internal/investments/ledger.go:49 | an exact product then one division: within half a unit of the exact share, and never negative for non-negative parts |
| Decimals.Round2 | internal/investments/yield.go:404 | cent rounding moves a value by at most half a cent |
| Ledger.PositionLedger.AddCost | internal/investments/ledger.go:218-221 | units and cost are added exactly |
| Ledger.PositionLedger.RemoveUnits | internal/investments/ledger.go:89-96 | the remaining units keep the proportional cost, none when nothing remains |
| Ledger.PositionLedger.Value | internal/investments/ledger.go:274-285 | a valuation records total, quantity priced and day, and moves no units or cost |
| Ledger.AccountLedger.Position | internal/investments/ledger.go:111-118 | the holding of a position is found or opened empty; every other holding object is the same one as before |
| Ledger.AccountLedger.AddCost | internal/investments/ledger.go:218-221 | changes the view at that position only |
| Ledger.AccountLedger.RemoveUnits | internal/investments/ledger.go:250-253 | refuses exactly when fewer units are held; otherwise changes that position only |
| Ledger.AccountLedger.Value | internal/investments/ledger.go:274-285 | refuses exactly when no unit is held; otherwise changes that position only |
| Ledger.AccountLedger.MoveCash | internal/investments/ledger.go:223-286 | cash moves by the signed effect of the operation's kind |
| Ledger.AccountLedger.MoveUnits | internal/investments/ledger.go:223-286 | units, cost and valuation move at the operation's own position, with the error of each kind |
| Ledger.AccountLedger.ApplyOperation | internal/investments/ledger.go:208-291 | one operation in place computes the same ledger or the same error as the pure step |
| Ledger.ReplayRows | internal/investments/ledger.go:192-205 | the loop over the rows reaches the ledger of the whole history, or stops with its first error |
| Ledger.ReplayPrefix | internal/investments/ledger.go:192-205 | a history fails with the error of its first failing prefix |
| Acceptance.ApplyEffect | internal/investments/ledger.go:208-291 | exactly which operations a ledger accepts, and what they add to cash and to every position |
| Acceptance.ReplayAcceptsExactlyAdmissible | internal/investments/ledger.go:171-291 | a replay succeeds if and only if every prefix sum of cash and of every position is non-negative and every valuation falls on held units; the ledger it reaches is those sums |
| Acceptance.SpliceExactly | internal/investments/operations.go:140-166 | any operation spliced into an accepted history at any slot stands if and only if it could stand there last and every later balance, holding and valuation absorbs it |
| Acceptance.RemovalExactly | internal/investments/operations.go:369-394 | any operation taken out of an accepted history leaves it standing if and only if every later balance, holding and valuation survives without it |
| Acceptance.SpliceCash | internal/investments/operations.go:140-166 | a cash operation spliced into an accepted history stands exactly when every later balance absorbs it |
| Acceptance.UnspliceCash | internal/investments/operations.go:369-394 | a cash operation taken out of an accepted history leaves it standing exactly when every later balance survives |
| Acceptance.RetroactiveOutflow | internal/investments/operations.go:140-166 | a retroactive withdrawal, fee or tax of a replays exactly when every balance from its slot on is at least a |
| Acceptance.RetroactiveInflow | internal/investments/operations.go:140-166 | a retroactive deposit or income always replays |
| Acceptance.RetroactiveRemoval | internal/investments/operations.go:369-394 | removing an outflow always replays; removing an inflow of a replays exactly when every later balance is at least a |
| Acceptance.RetroactiveSale | internal/investments/operations.go:140-166 | a retroactive sale replays exactly when from its slot on the units are there, every balance takes its net proceeds and every valuation keeps some units |
| Acceptance.RetroactivePurchase | internal/investments/operations.go:140-166 | a retroactive purchase replays exactly when every balance from its slot on covers its cost with fees and taxes |
| Acceptance.RetroactiveTransferOut | internal/investments/operations.go:187-248 | a retroactive outgoing half replays exactly when from its slot on the units are there and every valuation keeps some |
| Acceptance.RetroactiveTransferIn | internal/investments/operations.go:187-248 | a retroactive incoming half always replays |
| Retroactive.SlotSplitsHistory | internal/investments/operations.go:29 | a new row enters its account's history at the one slot the replay order gives it |
| Retroactive.BackdatedExactly | internal/investments/operations.go:252-301 | against the whole book: a single backdated operation of any kind commits if and only if its account's past takes it and its future absorbs it |
| Retroactive.BackdatedOutflow | internal/investments/operations.go:252-301 | against the whole book: a withdrawal, fee or tax commits if and only if every balance from its moment on covers it |
| Retroactive.BackdatedInflow | internal/investments/operations.go:252-301 | against the whole book: a backdated deposit or income always commits |
| Retroactive.BackdatedSale | internal/investments/operations.go:252-301 | against the whole book: a backdated sale commits if and only if from its moment on the units are there, every balance takes its net proceeds and every valuation keeps some units |
| Retroactive.BackdatedPurchase | internal/investments/operations.go:252-301 | against the whole book: a backdated purchase commits if and only if every balance from its moment on covers its whole cost |
| Retroactive.DeletingExactly | internal/investments/operations.go:369-394 | against the whole book: deleting an unlinked operation of any kind outside transfers commits if and only if every later moment survives without it |
| Retroactive.DeletingCash | internal/investments/operations.go:369-394 | against the whole book: exactly which deletions of cash operations commit |
| CustodyMoves.TransferExactly | internal/investments/operations.go:187-248 | a transfer between acceptable positions commits if and only if its units were held at the end of its day and can leave the source from its moment on |
| CustodyMoves.DeletingTransferExactly | internal/investments/operations.go:396-425 | a transfer can be deleted if and only if what it brought can leave the destination again |
| CostBasis.ReplayedHoldingsSound | internal/investments/ledger.go:208-291 | no accepted history leaves a negative quantity or cost, a cost on an empty holding, or a valuation without a priced quantity |
| CostBasis.NextRowMovesCash | internal/investments/ledger.go:223-286 | what one more accepted row of each kind does to cash |
| CostBasis.NextRowMovesHolding | internal/investments/ledger.go:223-286 | what it does to the units and cost of its own position, and that no other moves |
| CostBasis.RemovalDrift | internal/investments/ledger.go:89-96 | one removal adds at most half a unit to the distance from the exact share |
| CostBasis.CostDrift | internal/investments/ledger.go:42-96 | over any accepted stretch of sales, outgoing transfers and valuations, n removals drift at most n half-units from the exact share |
| CostBasis.SplitConserves | internal/investments/operations.go:213-229 | the cost that leaves and the cost that stays add up to the whole within two half-units, exactly when all units leave |
| Tables.InsertRowOrdered | internal/investments/operations.go:29 | a new row takes its place in replay order without disturbing the others |
| Tables.OrderedListingIsUnique | internal/investments/operations.go:29 | the replay order leaves no freedom: two ordered listings of the same rows are equal |
| Tables.HistoryOfInsert | internal/investments/operations.go:265-282 | a new row changes its own account's history only, at its slot |
| Transfers.TransferIsOnePair | internal/investments/operations.go:187-248 | a transfer id names exactly one outgoing and one incoming half, equal in units, cost and day, on two accounts holding one asset; no other row has a transfer kind |
| Transfers.TransfersConserveUnits | internal/investments/operations.go:187-248 | as of any day, an asset's units over all accounts are what the operations outside transfers add up to |
| Transfers.DayReplays | internal/investments/ledger.go:171-206 | a sound book replays as of every day |
| Transfers.TransferConservesCost | internal/investments/operations.go:213-229 | a committed transfer that is last on its day in its two accounts moves exactly its units and conserves source plus destination cost within two half-units, exactly for a whole holding |
| Openings.OpeningMeaning | internal/investments/positions.go:426-438 | the four ways an opening is stated, its unit count, and total against unit price times quantity within half a unit per unit |
| Openings.OpeningHolds | internal/investments/positions.go:357-420 | a committed opening holds exactly the stated quantity and cost, with no valuation |
| Openings.OpeningMovesNothingElse | internal/investments/positions.go:357-420 | a committed opening moves neither the account's cash nor any other position |
| LinkInvariants.RemoveLinkSound | internal/investments/reconciliations.go:428-441 | removing a link keeps caps, signs, distinct pairs and the rows links point to |
| LinkInvariants.HandOffMarksOne | internal/investments/reconciliations.go:451-466 | the movement id passes to exactly one remaining parcel of the pivot, when there is one |
| LinkInvariants.RemoveLinkKeepsPivots | internal/investments/reconciliations.go:428-466 | after a removal each movement still has at most one pivot and each pivot exactly one parcel carrying the movement |
| LinkInvariants.PivotNeverExceedsItsMovement | internal/investments/reconciliations.go:475-551 | a movement has at most one pivot, exactly one parcel carries it, and its parcels never exceed the movement |
| LinkInvariants.PivotFacesItsMovement | internal/investments/reconciliations.go:475-551 | a derived pivot takes its movement's whole amount as capacity, and the bank line explaining it runs the other way |
| LinkInvariants.AddParcelSound | internal/investments/reconciliations.go:298-365 | an accepted parcel keeps every link invariant |
| LinkInvariants.CreateLinkSound | internal/investments/reconciliations.go:277-383 | an accepted link request, with or without a derived pivot, keeps every link invariant |
| LinkInvariants.CreateLinkKeepsPivotsExactly | internal/investments/reconciliations.go:277-383 | it keeps the pivots if and only if it does not put a movement on a named synced operation |
| LinkEffects.NamedLinkRecorded | internal/investments/reconciliations.go:277-383 | a link on a named operation: one link more, with exactly the line, movement and amount asked for; the totals of those ids grow by it and no other does |
| LinkEffects.ReusedLinkRecorded | internal/investments/reconciliations.go:298-383 | a link on a movement that has a pivot: one plain link more, on the earliest pivot |
| LinkEffects.DerivedLinkRecorded | internal/investments/reconciliations.go:475-551 | a link on a movement without a pivot: one operation more, the movement's own day, amount and kind, and one link on it carrying the movement and the line |
| LinkEffects.ParcelAcceptedExactly | internal/investments/reconciliations.go:298-365 | a parcel is accepted if and only if its operation moves cash and has room, the pair is new, and the line and movement face it and have room |
| LinkEffects.NamedLinkAcceptedExactly | internal/investments/reconciliations.go:277-365 | exactly which requests naming an operation commit |
| LinkEffects.ReusedLinkAcceptedExactly | internal/investments/reconciliations.go:298-365 | exactly which requests on a movement with a pivot commit |
| LinkEffects.DerivedLinkAcceptedExactly | internal/investments/reconciliations.go:475-551 | exactly which requests on a movement without a pivot commit |
| LinkEffects.EditAllowedExactly | internal/investments/reconciliations.go:197-228 | exactly which edits the links of an operation allow |
| LinkEffects.OnlyOneLinkGoes | internal/investments/reconciliations.go:428-466 | a removal takes exactly one link; every other stays the same parcel, and only the oldest plain sibling of a pivot's parcel takes the movement id over |
| LinkEffects.TotalsAfterRemoval | internal/investments/reconciliations.go:428-441 | the totals of its operation and line fall by exactly its amount, and no other does |
| LinkEffects.OnlyAnOrphanGoes | internal/investments/reconciliations.go:428-441 | no row goes but a synced one that lost its last link |
| LinkEffects.UnlinkTakesOnlyTheLine | internal/investments/reconciliations.go:412-423 | a bulk unlink takes exactly the line's links: every other parcel and every manual row stays, and an operation's total falls by what the line gave it |
| BulkUnlink.ReadOnceIsEnough | internal/investments/reconciliations.go:412-423 | the list read beforehand stays valid while its links are removed one by one, whatever the hand-offs do |
| BulkUnlink.UnlinkLineSound | internal/investments/reconciliations.go:412-423 | after a bulk unlink no link of the line remains and all invariants hold |
| BulkUnlink.IgnoreLineSound | internal/investments/reconciliations.go:412-423 | excluding a bank line unlinks it and keeps all invariants |
| BulkUnlink.ConsiderLineSound | internal/transactions/inclusion.go:115-187 | an excluded line carries no link, so taking it back keeps all invariants |
| BulkUnlink.EditSound | internal/investments/operations.go:318-367 | an edit that passes the link check keeps caps, signs and pairs |
| BulkUnlink.EditKeepsPivots | internal/investments/operations.go:318-367 | editing a manual operation never touches a pivot |
| Store.OutcomeKeepsSound | internal/investments/operations.go:145-166 | whatever a transaction answers, a sound book stays sound and a refusal leaves it unchanged |
| Store.Database.ReplayAccount | internal/investments/ledger.go:171-206 | the verdict on one account: unknown, integrated, or the replay's |
| Store.Database.ReplayTouched | internal/investments/operations.go:155-164 | each touched account is replayed once; the first failure in order is the answer |
| Store.Database.SumReconciliations | internal/investments/reconciliations.go:171-191 | the loop adds up exactly the links carrying the id in the column |
| Store.Database.ValidateOperationLinks | internal/investments/reconciliations.go:197-228 | the same verdict as checking kind, evidence, signs and total of all links |
| Store.Database.EnsureIntegratedAccounts | internal/investments/storage.go:64-78 | every source with holdings gets its custody account; accounts there are stay as they are |
| Store.Database.EnsureSyncedPivot | internal/investments/reconciliations.go:475-551 | reuses the linked pivot or inserts one in its custody account, created if it is missing; refuses a movement that cannot stand as an operation |
| Store.Database.InsertParcel | internal/investments/reconciliations.go:230-383 | every check of a parcel in order, then its row |
| Store.Database.LinkInTransaction | internal/investments/reconciliations.go:277-383 | the whole link request inside a transaction |
| Store.Database.CreateReconciliation | internal/investments/reconciliations.go:261-275 | commits the requested book or refuses with nothing changed |
| Store.Database.KeepPivotReachable | internal/investments/reconciliations.go:451-466 | the hand-off in place |
| Store.Database.RemoveLinkRow | internal/investments/reconciliations.go:428-441 | deletion, hand-off and removal of an orphan pivot |
| Store.Database.DeleteReconciliation | internal/investments/reconciliations.go:390-404 | commits the requested book or refuses with nothing changed |
| Store.Database.UnlinkTransactionIfPresent | internal/investments/reconciliations.go:412-423 | the loop over the pre-read list equals removing link by link, keeps all invariants and leaves no link of the line |
| Store.Database.IgnoreTransaction | internal/transactions/inclusion.go:115-215 | a line newly excluded loses its links in the same transaction; one already excluded is left as it is; an unknown one is refused |
| Store.Database.ConsiderTransaction | internal/transactions/inclusion.go:115-215 | a line is taken back, or refused when unknown |
| Store.Database.InsertRowJudged | internal/investments/operations.go:258-279 | a row is inserted exactly when account, shape and position are accepted |
| Store.Database.InsertBatch | internal/investments/operations.go:258-281 | rows are judged and inserted one by one, stopping at the first refusal |
| Store.Database.CreateOperations | internal/investments/operations.go:252-301 | a batch and its link commit together or not at all |
| Store.Database.UpdateOperation | internal/investments/operations.go:318-367 | commits the edited book or refuses with nothing changed |
| Store.Database.DeleteOperation | internal/investments/operations.go:369-394 | commits the smaller book or refuses with nothing changed |
| Store.Database.SourceHolding | internal/investments/operations.go:213-221 | the source holding as of the transfer's own day |
| Store.Database.CreateTransfer | internal/investments/operations.go:187-248 | both halves commit or neither does |
| Store.Database.DeleteTransfer | internal/investments/operations.go:396-425 | both halves go or neither does |
| Store.Database.CreatePosition | internal/investments/positions.go:357-420 | the position and its opening row commit together or not at all |
| BookInvariants.CommitKeepsHistories | internal/investments/operations.go:145-166 | touched accounts are judged, untouched ones did not change: every manual history still replays |
| BookInvariants.CreateOperationsSound | internal/investments/operations.go:252-301 | a committed batch keeps the book sound |
| BookInvariants.UpdateOperationSound | internal/investments/operations.go:318-367 | a committed edit keeps the book sound, also when it moves accounts |
| BookInvariants.DeleteOperationSound | internal/investments/operations.go:369-394 | a committed deletion keeps the book sound |
| BookInvariants.CreateTransferSound | internal/investments/operations.go:187-248 | a committed transfer keeps the book sound |
| BookInvariants.DeleteTransferSound | internal/investments/operations.go:396-425 | a committed transfer deletion keeps the book sound |
| BookInvariants.CreatePositionSound | internal/investments/positions.go:357-420 | a committed opening keeps the book sound |
| Committed.CreatedAsAsked | internal/investments/operations.go:252-301 | a committed batch leaves one row for each input, field by field as asked, every old row, and no other |
| Committed.FreshIdNamesItsRow | internal/investments/operations.go:265-282 | the row a fresh id was drawn for is the one row carrying it |
| Committed.CreatedLinkAsAsked | internal/investments/operations.go:280-286 | the link of a batch is recorded on its first row, as asked |
| Committed.RowAcceptedExactly | internal/investments/operations.go:258-279 | exactly which inputs are accepted for insertion |
| Committed.UpdatedAsAsked | internal/investments/operations.go:318-367 | a committed edit leaves the row as asked under its old id and time, in place of a manual row, and every other row as it was |
| Committed.DeletedExactly | internal/investments/operations.go:369-394 | a committed deletion takes exactly the one manual, unlinked row |
| Committed.TransferredAsAsked | internal/investments/operations.go:187-248 | a committed transfer leaves two rows more, for the quantity and day asked, both carrying what the units cost at the end of that day |
| Committed.TransferConsideredExactly | internal/investments/operations.go:187-212 | exactly which transfers are considered |
| Committed.TransferDeletedExactly | internal/investments/operations.go:396-425 | deleting a transfer takes exactly its rows |
| Committed.AskedForAnew | internal/investments/positions.go:357-387 | a position is created by figures that are not negative, in an account without one of that asset |
| Committed.OpenedAsAsked | internal/investments/positions.go:357-420 | a committed creation leaves the position and, if an opening was stated, its one row with the units and total stated |
| Accepted.CommitsExactly | internal/investments/operations.go:145-166 | a write commits if and only if every account it touched stands with it |
| Accepted.CreationCommitsExactly | internal/investments/operations.go:252-301 | exactly which batches commit |
| Accepted.EditCommitsExactly | internal/investments/operations.go:318-367 | exactly which edits of a manual row commit |
| Accepted.OnlyManualRowsAreEdited | internal/investments/operations.go:318-394 | anything but a manual row outside every transfer is neither edited nor deleted |
| Accepted.DeletionCommitsExactly | internal/investments/operations.go:369-394 | exactly which deletions of a manual row commit |
| Accepted.OpeningCommitsExactly | internal/investments/positions.go:357-420 | a position is created if and only if it can be asked for: its opening never fails the replay |
| Committed.IgnoredAsAsked | internal/transactions/inclusion.go:115-215 | excluding a known line marks it and takes exactly its links |
| Committed.ConsideredAsAsked | internal/transactions/inclusion.go:115-215 | taking a known line back marks it so and does nothing else |
| Refusals.ReplayRefusal | internal/investments/ledger.go:208-291 | a history that does not replay has a first row that cannot stand, and the error names its reason |
| Refusals.RowRefusal | internal/investments/operations.go:258-279 | each refusal of an input means what it names |
| Refusals.EditRefusal | internal/investments/operations.go:318-394 | each refusal to edit or delete a row means what it names |
| Refusals.TransferRefusal | internal/investments/operations.go:187-212 | each refusal to consider a transfer means what it names |
| Refusals.OpeningRefusal | internal/investments/positions.go:357-390 | each refusal of a position means what it names |
| Refusals.ParcelRefusal | internal/investments/reconciliations.go:230-383 | each refusal of a parcel means what it names |
| Runs.CreateReconciliationSound | internal/investments/reconciliations.go:261-383 | a committed link keeps the book sound: pivots live in integrated custody, out of sight of manual histories |
| Runs.WithCustodiesSound | internal/investments/storage.go:64-78 | custody accounts created on the way to a pivot keep the book sound |
| Runs.IgnoreTransactionSound | internal/investments/reconciliations.go:412-423 | excluding a bank line keeps the book sound |
| Runs.ConsiderTransactionSound | internal/transactions/inclusion.go:115-187 | taking a bank line back keeps the book sound |
| Runs.NextKeepsBookSound | internal/investments/operations.go:145-166 | every request, accepted or refused, keeps the book sound |
| Runs.RunStaysSound | internal/investments/operations.go:145-166 | every book of every run is sound |
| Runs.NoPrefixEverOverdrawn | internal/investments/operations.go:140-166 | in every book of every run, every prefix of every manual history replays with cash and all quantities non-negative and valuations on held units |
| Runs.CapsHoldOverEveryRun | internal/investments/reconciliations.go:330-365 | over every run, links of an operation total at most its amount, links of a line at most its value, and signs match |
| Runs.EvidenceFacesOverEveryRun | internal/investments/reconciliations.go:109-165 | over every run, each link holds some money of a cash operation, and its line paid out for a deposit, fee or tax and in for a withdrawal or income |
| Runs.RowsCompleteOverEveryRun | internal/investments/ledger.go:120-162 | over every run, each row of a manual account is complete for its kind |
| Runs.HistoriesInOrderOverEveryRun | internal/investments/operations.go:29 | over every run, an account's history goes by day, creation and id |
| Runs.NextKeepsPivotsExactly | internal/investments/reconciliations.go:475-551 | one request keeps the pivots if and only if it is not an accepted attachment of a movement to a named synced operation |
| Runs.PivotsHoldOverEveryRun | internal/investments/reconciliations.go:475-551 | while no such attachment was accepted: one pivot per movement, one carrying parcel per pivot, parcels within the movement |
| Runs.PivotsStaySoundExactly | internal/investments/reconciliations.go:298-365 | the pivots stay sound throughout a run if and only if no request of it was such an attachment |
| Runs.NamedAttachmentBreaksPivots | internal/investments/reconciliations.go:298-365 | a concrete run of two accepted requests that leaves one pivot carrying two movements |
| Reporting.CollectOperations | internal/investments/reporting.go:106-141 | the pass lists each operation once, in order, with its bank-linked total |
| Reporting.JoinListsOperations | internal/investments/reporting.go:107-113 | the join loses no manual operation and repeats none |
| Reporting.JoinCountsLinks | internal/investments/reporting.go:107-113 | the join counts each link of an operation once |
| Reporting.ManualReportingEntries | internal/investments/reporting.go:106-199 | the two passes and the stable sort return the entries of each manual operation against its own links, by day and then by identifier |
| Reporting.ReportShowsEach | internal/investments/reporting.go:106-199 | the returned list holds, for each manual operation, exactly its own entries in order |
| Reporting.ReportShowsManualOnly | internal/investments/reporting.go:106-199 | every returned entry is one of a manual operation's |
| Reporting.RemainderIsExact | internal/investments/reporting.go:106-199 | for every manual deposit, withdrawal, income, fee or tax, what the returned list shows of it plus its bank-linked part is its amount exactly, with its sign |
| Reporting.CashReported | internal/investments/reporting.go:155-176 | exactly what the report shows of a manual cash operation |
| Reporting.TradeReported | internal/investments/reporting.go:177-190 | exactly what it shows of a trade: its fees and taxes as costs of its day |
| Reporting.NothingReported | internal/investments/reporting.go:155-190 | of an opening, valuation or transfer it shows nothing |
| Reporting.BankLinkedIsTheRest | internal/investments/reporting.go:126-141 | what bank lines explain is all links of the operation but those without a line |
| Reporting.LinkMovesReports | internal/investments/reporting.go:17-141 | one more link takes its amount out of ordinary reporting of its line, for a deposit or withdrawal, and out of what is left of its operation |
| Reporting.ReconciledTransactionAmounts | internal/investments/reporting.go:17-41 | one pass gives every line's part that moved money into or out of custody |
| Reporting.ReconciledTransactionAmount | internal/investments/reporting.go:46-70 | the single-line form gives the same figure, within the line's value |
| Reporting.TransferPartCapped | internal/investments/reporting.go:46-70 | never more than the line is worth is hidden from ordinary reporting |
| Quotes.FirstAfter | internal/investments/yield.go:210 | binary search over an ordered series cuts it exactly at the day |
| Quotes.CutIsFound | internal/investments/yield.go:210 | any cut of that kind is the one the search finds |
| Quotes.LatestQuoteOn | internal/investments/yield.go:209-215 | the quote found is on or before the day and no other such quote is later; none is found exactly when all are later |
| Quotes.LatestIsInForce | internal/investments/quotes.go:141-151 | from the last quote's day on, the latest quote is the one in force |
| Quotes.YieldCache.AssetQuotes | internal/investments/yield_cache.go:31-46 | a hit answers the prefix of the held series, a miss loads and replaces it, a failed load changes nothing |
| Quotes.AssetQuotes | internal/investments/yield_cache.go:31-46 | a missing cache loads every time |
| Quotes.SelectionIsPrefix | internal/investments/quotes.go:116-137 | the rows through a day are the prefix the search cuts |
| Quotes.LookupTransparent | internal/investments/yield_cache.go:31-46 | one lookup through a sound cache answers what the query would and leaves every entry the full series through its day |
| Quotes.CacheTransparent | internal/investments/yield_cache.go:31-46 | after any lookups in any order of days, the next answer is the uncached one |
| Yield.SumFlows | internal/investments/yield.go:192-200 | the loop sums exactly the money moved in (from, until] |
| Yield.QuantityAt | internal/investments/yield.go:379-387 | the backward loop subtracts exactly the units moved after the day |
| Yield.TimelineAt | internal/investments/yield.go:632-641 | the loop finds the step in force on the day |
| Yield.YieldOver | internal/investments/yield.go:100-134 | the period starts on the first priced day on or after the request, the in-loop exit is never taken, and the yield is end minus start minus flows; each refusal has its exact cause |
| Yield.DailyOver | internal/investments/yield.go:147-161 | lists exactly the days priced on both themselves and the day before |
| Yield.DailyTelescopes | internal/investments/yield.go:147-161 | over a fully priced period each day appears once, flows sum to the period flows, yields to its difference |
| Yield.EachDayListed | internal/investments/yield.go:147-161 | each day listed lies in the period with its own end value, flows and yield |
| Yield.PricedDaysListed | internal/investments/yield.go:147-161 | each day priced on itself and the day before is listed |
| Yield.DaysListedInOrder | internal/investments/yield.go:147-161 | no day is listed twice, oldest first |
| Yield.DaysSumToPeriod | internal/investments/yield.go:100-161 | the daily yields of a fully priced period sum to the period yield |
| Yield.PeriodsCompose | internal/investments/yield.go:100-134 | periods meeting on a priced day add up |
| Yield.SinceInceptionStartsAtZero | internal/investments/yield.go:100-134 | since inception: starts there, at zero, never partial |
| Yield.SyncedStartsAtZero | internal/investments/yield.go:389-414 | a complete provider series is worth nothing on its inception day |
| Yield.BackwardIsForward | internal/investments/yield.go:379-387 | between any two days the rebuilt quantities differ by the units moved between them |
| ManualYield.NewQuantityTimeline | internal/investments/yield.go:616-629 | the loop builds one step per day that moved |
| ManualYield.TimelineSums | internal/investments/yield.go:611-641 | its answer on any day is the sum of the units moved through it |
| ManualYield.CashIsExternalLessTrades | internal/investments/yield.go:518-536 | ledger cash and yield flows are two sides of the same trades |
| ManualYield.FlowIsCostAdded | internal/investments/yield.go:518-536 | a flow's units are what the ledger moves, an inflow's money what it adds to the cost |
| ManualYield.TakeCheckpoint | internal/investments/yield.go:491-502 | a checkpoint is taken exactly after the last row of a day, with the ledger's state |
| ManualYield.PassOver | internal/investments/yield.go:480-503 | one pass over the rows collects the flows and checkpoints of the position, or stops with the replay's error |
| ManualYield.LoadManualSeries | internal/investments/yield.go:480-512 | one pass yields all events, checkpoints and the timeline, or the replay's error |
| ManualYield.CheckpointsCut | internal/investments/yield.go:491-502 | the checkpoints through a day are those of the rows through that day |
| ManualYield.CheckpointIsReplay | internal/investments/yield.go:538-551 | the checkpoint the search finds is the account replayed only through the day |
| ManualYield.TimelineIsReplay | internal/investments/yield.go:611-641 | the timeline's quantity is that replay's |
| ManualYield.ManualValueIsReplay | internal/investments/yield.go:538-594 | on every day and with any quotes the series answers the worth of the account replayed only through that day |
| ManualYield.NothingBeforeInception | internal/investments/yield.go:598-605 | before its first inflow a valid ledger holds nothing of the position |
| ManualYield.ManualStartsAtZero | internal/investments/yield.go:598-605 | every manual series of a valid ledger starts at zero |
| ManualYield.SoundBookYields | internal/investments/yield.go:450-605 | both hold for every manual position of every sound book |
| ManualYield.PairFlowsCancel | internal/investments/yield.go:518-536 | what the halves of a transfer move into one holding they take out of the other |
| ManualYield.NoInflowNoInception | internal/investments/yield.go:598-609 | since inception, a position nothing ever went into has no history |
| ManualYield.InceptionIsDayBeforeFirst | internal/investments/yield.go:598-605 | a manual holding begins the day before the first row that put units into it |
| Valued.ValuationStands | internal/investments/ledger.go:272-285 | from an accepted valuation on the ledger remembers its amount, day and the units held at that moment |
| Valued.WorthByValuation | internal/investments/yield.go:538-594 | on any history, while no quote is newer than the last valuation the series answers its amount in proportion to the units held |
| Valued.WorthByQuote | internal/investments/yield.go:575-594 | a quote newer than every valuation prices the units held, in whole cents, for ten days and then nothing does |
| Valued.WorthUnstated | internal/investments/yield.go:538-573 | units nothing priced by that day have no known worth |
| Valued.WorthOfNothing | internal/investments/yield.go:538-594 | no units are worth nothing |
| SyncedYield.PlaceMovements | internal/investments/yield.go:274-316 | the loop places exactly the movements with direction, amount and day, and totals units bought and sold |
| SyncedYield.ReadMovement | internal/investments/yield.go:300-313 | one movement's signed event and the units it bought or sold |
| SyncedYield.AnyInflow | internal/investments/yield.go:322-325 | finds an inflow exactly when there is one |
| SyncedYield.FindFirstInflow | internal/investments/yield.go:357-363 | the first inflow in day order |
| SyncedYield.RestorePurchase | internal/investments/yield.go:320-338 | the missing purchase is put back exactly when no inflow came and the holding states one |
| SyncedYield.LoadSyncedSeries | internal/investments/yield.go:262-364 | events, completeness and first inflow of the holding |
| SyncedYield.RestoredQuantity | internal/investments/yield.go:326-338 | from its day on the purchase changes no quantity; before it, what remains is minus the units moved through that day |
| SyncedYield.RestoredForward | internal/investments/yield.go:326-338 | backward equals forward less the units of movements on or before the purchase, on every day |
| SyncedYield.RestoredFromNothing | internal/investments/yield.go:326-338 | with no movement on or before the purchase, nothing is held or worth anything earlier and backward is forward on every day |
| SyncedYield.CompleteStartsAtFirstInflow | internal/investments/yield.go:409-414 | a complete holding starts at zero the day before its earliest inflow |
| SyncedYield.QuantityFromMovements | internal/investments/yield.go:274-338 | the quantity of a day from the provider's own movements, restored purchase included |
| SyncedYield.FlowsFromMovements | internal/investments/yield.go:274-338 | the money moved in a period from the provider's own movements, restored purchase included |
| SyncedYield.CompleteExactly | internal/investments/yield.go:274-355 | exactly which histories account for their holding |
| SyncedYield.LoadedWell | internal/investments/yield.go:262-364 | every provider series is loaded in day order with its first inflow known, which is what the three facts below ask |
| SyncedYield.ProviderValue | internal/investments/yield.go:389-405 | on any day with units from the first inflow on, the units rebuilt for that day at its latest quote, in whole cents, if at most ten days old |
| SyncedYield.ProviderValueUnknown | internal/investments/yield.go:389-405 | a day has no value exactly when the quantity is unknown, or there are units and no quote recent enough |
| SyncedYield.ProviderValueZero | internal/investments/yield.go:389-405 | before the first inflow, or without units, a day is worth nothing |
| SyncedYield.IncompleteHasNoInception | internal/investments/yield.go:409-423 | why a holding its history does not account for has no yield since inception |
| Sorting.SortSorts | internal/investments/yield.go:320 | the stable sort orders the same elements |
| PositionList.Position.ApplyLedgerState | internal/investments/positions.go:217-250 | the listed fields for a replayed holding and quote; a position the ledger never met stays as it is |
| PositionList.TwoValuationsAgree | internal/investments/positions.go:217-250 | from the last operation and quote on, list and series value a holding alike whenever the series does, and exactly when it does not |
| Valued.ListShowsHolding | internal/investments/positions.go:217-250 | the list shows units, cost and average cost as replayed |
| Valued.ListByValuation | internal/investments/positions.go:217-250 | unless a newer quote prices units still held, the list shows the amount typed in proportion to them, its unit price and day |
| Valued.ListByQuote | internal/investments/positions.go:217-250 | a newer quote prices the units held, however old it is |
| Valued.ListAtCost | internal/investments/positions.go:217-250 | never valued and without a quote, the list shows the cost |
| SingleFlight.Service.Enter | internal/marketdata/service.go:109-121 | the critical section: cached, joined or leading |
| SingleFlight.Service.Settle | internal/marketdata/service.go:155-157 | the leader's writes: the outcome, and abandoned if and only if its context is gone and the outcome is that cancellation or wraps it, so never for a good quote |
| SingleFlight.Service.Publish | internal/marketdata/service.go:147-152 | the in-flight entry goes in the section that caches exactly a good quote not abandoned, and nothing else |
| SingleFlight.Service.CloseDone | internal/marketdata/service.go:153 | closing the channel, after and apart from the section |
| SingleFlight.FetchQuote | internal/marketdata/service.go:163-187 | providers are asked in order; the first good answer wins, a cancellation ends the asking at the failure it follows, and the chain fails only after all have; the outcome is what scanning the answers decides |
| SingleFlight.DecisionStands | internal/marketdata/service.go:163-187 | once the answers so far decide a lookup, no later answer changes it |
| SingleFlight.LeadKeeps | internal/marketdata/service.go:114-120 | a new lookup is its caller's alone |
| SingleFlight.AskKeeps | internal/marketdata/service.go:163-187 | a provider's answer: good, cancelled, exhausted, or on to the next |
| SingleFlight.PublishKeeps | internal/marketdata/service.go:146-152 | publication keeps a covered instrument covered |
| SingleFlight.WakeKeeps | internal/marketdata/service.go:126-137 | a woken waiter answers, retries or reports its own cancellation |
| SingleFlight.NextKeepsInv | internal/marketdata/service.go:107-187 | every atomic step keeps the protocol's invariant |
| SingleFlightRuns.AtMostOneLeader | internal/marketdata/service.go:107-139 | in any interleaving an instrument has at most one leader |
| SingleFlightRuns.AnswersAreGood | internal/marketdata/service.go:99-187 | every answer without error is a positive BRL quote of the instrument: cached less than ten minutes before, or the quote of the lookup led or waited for |
| SingleFlightRuns.CancellationStaysHome | internal/marketdata/service.go:126-159 | no waiter returns an abandoned outcome and nobody is told of another caller's cancellation |
| SingleFlightRuns.NeverMeetsAgain | internal/marketdata/service.go:126-138 | a retrying waiter never waits for the same abandoned lookup again |
| SingleFlightRuns.NeverNeither | internal/marketdata/service.go:141-154 | after a successful lookup its entry is in flight or a quote at least as recent is cached, so within ten minutes no other lookup starts |
| SingleFlightRuns.EveryWaitHasALeader | internal/marketdata/service.go:141-154 | nobody waits for a lookup no one is left to close, panics included |
| SingleFlightRuns.LeaderRunsFetchQuote | internal/marketdata/service.go:155-187 | in any interleaving, the outcome a leader judges is the one FetchQuote gives for the answers it met, whatever the providers not asked would have said |
| SingleFlightRuns.AbandonedExactly | internal/marketdata/service.go:145-159 | in any interleaving a judged lookup is abandoned if and only if its leader was found cancelled and the outcome is that cancellation or a failure wrapping it; its outcome never changes again |
| SingleFlightRuns.GoodQuoteIsCached | internal/marketdata/service.go:145-159 | a good quote is published whatever became of its leader: that section leaves exactly it cached and the lookup out of the in-flight table |
| SingleFlightRuns.FailuresAreNotCached | internal/marketdata/service.go:147-152 | a failure leaves the cache as it was |
| SingleFlightRuns.WaiterAnswers | internal/marketdata/service.go:126-138 | a waiter woken on a judged lookup answers its outcome, or, when that was the leader's own cancellation, asks again or reports its own |
| SingleFlightRuns.GoodQuoteReachesWaiters | internal/marketdata/service.go:126-159 | a good quote reaches every waiter, also when its leader was cancelled just after |
| SingleFlightRuns.PanicSendsWaitersBack | internal/marketdata/service.go:114-120 | a leader that panics leaves its waiters asking again |
| SingleFlightRuns.AnswersTheQuestion | internal/marketdata/service.go:107-139 | whatever it joined, led or retried, a caller's answer is about the instrument it asked for |
| SingleFlightRuns.EntersExactly | internal/marketdata/service.go:107-124 | under the lock: served a quote less than ten minutes old, or waiting for the instrument's lookup in flight, or leading a new one |
| SingleFlightRuns.LeaderAnswers | internal/marketdata/service.go:145-159 | a leader answers its own lookup's outcome and closes it |
| SingleFlightRuns.CancelledWaiterLeaves | internal/marketdata/service.go:126-130 | a waiter whose own context is gone leaves with its own cancellation |
| Limiter.Limiter.Try | internal/marketdata/limiter.go:68-83 | the gate's critical section: granted, refused or told how long to sleep |
| Limiter.Limiter.TakeSlot | internal/marketdata/limiter.go:88-92 | a slot is taken exactly when one is free |
| Limiter.Limiter.Release | internal/marketdata/limiter.go:93 | a release frees one slot |
| Limiter.Limiter.Pause | internal/marketdata/limiter.go:97-106 | a pause only moves forward |
| Limiter.Limiter.Observe | internal/marketdata/limiter.go:112-127 | the pause a response asks for, by status and header, counted from a second reading of the clock |
| Limiter.RetryAfterExactly | internal/marketdata/limiter.go:131-148 | a Retry-After in seconds is honoured exactly if and only if it fits the 64-bit duration (section 10.2.3 of RFC 9110) |
| Limiter.LongRetryAfterIsLost | internal/marketdata/limiter.go:131-148 | the first value past that bound reads as a negative duration, so as no pause |
| Limiter.FirstReadableCounts | internal/marketdata/limiter.go:150-162 | a header says the number of its first spelling that reads as one |
| Limiter.NoneReadable | internal/marketdata/limiter.go:150-162 | a header none of whose spellings reads as a number says nothing |
| Limiter.PenaltyOfTooMany | internal/marketdata/limiter.go:112-148 | after a 429: as long as Retry-After says, by seconds or by a date still to come, and nothing else |
| Limiter.PenaltyOfSpentBudget | internal/marketdata/limiter.go:119-175 | otherwise nothing while requests remain; once none do, until the reset named, by seconds, by clock, in one second or in a minute |
| Limiter.PausedUntilLatestAsked | internal/marketdata/limiter.go:97-127 | over any run the pause ends exactly when the latest pause asked for does |
| Limiter.NextKeepsInv | internal/marketdata/limiter.go:66-127 | every step keeps spacing and slot count, and no step shortens a pause |
| Limiter.CallersMoveOn | internal/marketdata/limiter.go:66-93 | where each step leaves its caller: through the gate exactly when due, away past thirty seconds, holding a slot exactly when fewer hold one than may |
| Limiter.GrantsAreSpaced | internal/marketdata/limiter.go:66-86 | over any interleaving, n grants span at least n - 1 intervals |
| Limiter.NeverTooManyHolders | internal/marketdata/limiter.go:88-93 | over any interleaving, at most the configured number hold a slot |
| Limiter.PausesNeverShrink | internal/marketdata/limiter.go:97-106 | over any run the end of the pause never decreases |
| Limiter.NoGrantDuringPause | internal/marketdata/limiter.go:66-127 | once a pause was asked for, no later attempt is granted before its end |
| Limiter.NoGrantBeforeDate | internal/marketdata/limiter.go:97-148 | after a 429 that names a date no later attempt is granted before it, although the clock moves between reading the header and pausing |
| Limiter.WaitIsEnough | internal/marketdata/limiter.go:69-83 | a refusal tells the exact wait, only past thirty seconds; a sleep told is exactly long enough |
| Payables.SettledAmount | internal/payables/model.go:66-72 | the loop adds every amount to the baseline |
| Payables.CountLinks | internal/payables/summary.go:122-132 | exactly the links that count by the day, and the amounts of those that settle |
| Payables.SummaryFrom | internal/payables/summary.go:121-141 | settled, remaining, status and links of one moment |
| Payables.RemainingMeaning | internal/payables/model.go:77-94 | what remains is within the whole, complements the settled part exactly when that is in range, and the status says settled exactly when nothing remains |
| Payables.RemainingShrinks | internal/payables/summary.go:121-150 | a debt only shrinks from one day to a later one while no settlement is negative |
| Payables.AsOfCatchesUp | internal/payables/summary.go:61-80 | as of a day after every link's transaction a payable is as it is now |
| Payables.TransactionsBehind | internal/payables/summary.go:166-175 | each transaction behind the links is asked for once |
| Payables.AllLinkSummaries | internal/payables/summary.go:156-198 | two loads give every payable the links it would have been given alone |
| Payables.AddPayable | internal/payables/summary.go:268-279 | one payable is added to every day's total, days before its creation excepted |
| Payables.RemainingTotalsAsOf | internal/payables/summary.go:250-281 | each total is what its day alone would have been answered, in any order of days |
| Payables.SummaryFromRows | internal/payables/summary.go:93-150 | from the stored rows: the baseline and what the payable's own counting links settled by then, the rest remaining, and settled when nothing remains |
| Payables.TotalFromRows | internal/payables/summary.go:232-281 | the total debt of a day from the stored rows |
| Backfill.CashDeltasDescending | internal/networth/backfill.go:216-296 | exactly the reversible movements, signed, newest first |
| Backfill.Advance | internal/networth/backfill.go:107-110 | the inner loop takes in exactly what moved since the day's end |
| Backfill.WalkBack | internal/networth/backfill.go:102-115 | the backward walk gives every missing day its own cash, also across skipped days |
| Backfill.DebtsFor | internal/networth/backfill.go:123-130 | one load answers the end of every missing day |
| Backfill.Earliest | internal/networth/backfill.go:318-339 | the earliest recorded movement, whatever its eligibility |
| Backfill.Snapshots.InsertIfAbsent | internal/networth/backfill.go:169-185 | a day that has a row keeps it |
| Backfill.Snapshots.InsertGaps | internal/networth/backfill.go:132-144 | each missing day gets the row of its own figures |
| Backfill.Snapshots.FillWindow | internal/networth/backfill.go:85-145 | walk, debts and inserts fill exactly the window |
| Backfill.Snapshots.Backfill | internal/networth/backfill.go:56-146 | the table a run leaves |
| Backfill.GapsCover | internal/networth/backfill.go:105-115 | the gaps are exactly the window's days without a row |
| Backfill.RunFillsTheWindow | internal/networth/backfill.go:56-146 | every day of the window has a row, old rows are unchanged, nothing else is written, and each new row is its day's own cash, debt and totals |
| Backfill.CashFromRows | internal/networth/backfill.go:201-296 | the cash of a past day from the stored transactions: today's less what came in and plus what went out since |
| Backfill.RunResumes | internal/networth/backfill.go:56-146 | a run stopped after any of its inserts and repeated ends where the whole run would |
| Backfill.RunTwiceIsOnce | internal/networth/backfill.go:56-146 | a second run changes nothing |
| Backfill.SecondRunFindsNothing | internal/networth/backfill.go:105-118 | a second run finds no gap |
| Backfill.CashMovesDayByDay | internal/networth/backfill.go:105-115 | from one day to the next, cash changes by what moved on that day |
| TableOrder.ReadDeps | cmd/migrate-to-postgres/main.go:86-110 | the references of each table, itself excluded |
| TableOrder.SelfReferencesDoNotCount | cmd/migrate-to-postgres/main.go:101-103 | a self reference never enters the graph and every other one does |
| TableOrder.Walk.Visit | cmd/migrate-to-postgres/main.go:115-127 | a visit keeps the walk sound, ends, and leaves the table visited |
| TableOrder.Walk.VisitAll | cmd/migrate-to-postgres/main.go:120-124 | after the loop every reference of the table was visited |
| TableOrder.BackReference | cmd/migrate-to-postgres/main.go:112-127 | a reference to a table still being visited closes a cycle |
| TableOrder.OrderedTables | cmd/migrate-to-postgres/main.go:67-134 | for any graph: ends and lists every table, referenced ones included, exactly once; references first unless there is a cycle |
| TableOrder.ReferencesFirstExactly | cmd/migrate-to-postgres/main.go:64-134 | references come first if and only if no chain of references leads back to its start |

## Left out

- Limiter.NoGrantDuringPause: speaks of grants only; a caller already past the gate may still be waiting for a slot when a pause starts.
- Transfers.TransferConservesCost: asks that the transfer be the last thing written on its day in its own two accounts, since a row of theirs created later on the same day would come after it in replay order.
- Backfill.Snapshots.Backfill: the credit-card figure per day and today's cash are given inputs, because their code is another engine's; every read succeeds.
- Reporting.ManualReportingEntries: identifiers are ordered as numbers, an operation's own entry before its fee and its fee before its tax.
- SingleFlight.AskKeeps: which provider supports which market is a number of providers per instrument, and a chain of failures may wrap a cancellation or not, freely.
- Quotes.FirstAfter: the library's binary search is written as a recursion over the same halving.
- Sorting.SortSorts: the library's sorts are one stable insertion; where the program's own sort is not stable the results proved do not depend on the order of equal keys.
- A global cap per provider movement: a movement linked both to its pivot and to a manual operation can be exceeded by a hand-off, so the caps proved are per operation, per bank line and per pivot.
- Provider syncs that change a linked bank line or movement, which would move the caps under the links; lines change only by being ignored or taken back.
- DeletePosition, account creation and deletion, and edits of descriptions, notes and portfolio assignments: they move no money and would add only easy members.
- The propagation of corrected purchases to a past transfer: the carried cost is fixed when the transfer is created, by design.
- ManualNetWorth and the summaries built on it: plain sums of the figures proved here.
- Fixed-income codes, asset resolution and quote recording: text handling with no arithmetic of their own.
- Instants past the range of a 64-bit clock, as an epoch reset near the largest integer would be.
- HTTP handlers, JSON, SQL text, drivers, migrations' row copying, encryption, provider clients and the web client.
