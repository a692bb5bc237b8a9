# CFMarketplace listing ledger and exchange engine, in Dafny

The repository's `Marketplace` contract keeps a ledger of listings: offers
of a limited number of units at a flat unit price, paid for in an external
token (`FYTE`). This project models the contract's state machine and proves
properties of it. The contract's own source is not part of this model.
The behaviour is modelled on the calls its test suite,
`test/Marketplace.js`, makes and the outcomes it asserts. Where those
leave the behaviour open, the model makes its own choices, listed below
and under "## Left out".

- `Types` (`types.dfy`) holds the shared values:
  - `Address` is the type of principals.
  - `Error` holds the revert reasons, with `Reason` giving each one's string ("Invalid Permissions", "Invalid Type", "Invalid Listing", "Invalid Amount", "Approve Failed", "Invalid Total Entrants").
  - `Reverted` stands for the failures that revert without a reason.
  - `Result` is what a call returns.
  - `Terms` is the `ints` triple: unit price, a second number with no observable effect, capacity.
  - `Listing` is one listing record.
  - `ZEROED` is the all-zero record a lookup returns for a missing ID.
- `IndexStore` (`index_store.dfy`) is the listing store's index logic:
  - The `active` and `closed` indices are ordered, duplicate-free sequences of IDs.
  - `Without` is the order-preserving removal that compacts them, and `Remove` is a loop that implements it.
  - `Partition` is the invariant that the two indices hold each live ID exactly once.
- `TokenLedger` (`token_ledger.dfy`) is the external token, seen only through the calls the marketplace makes:
  - balances and allowances;
  - `transferFrom` and `transfer`;
  - `Move`, the balance update a transfer performs, with the proof that it conserves the total supply.
- `Exchange` (`marketplace.dfy`) is the `Marketplace` class:
  - Its state is the owner, its own address, the token, the role set, `nextID` (starting at 1), the listing records, the two indices and the type-0 purchase record.
  - Its methods are `List`, `Close`, `Delete`, `Buy`, `Edit`, `ChangeToken`, `AddRole`, `RemoveRole` and `WithdrawToken`.
  - Each method takes the sender's address as `caller`.
  - The object invariant `Valid()` says the indices partition the live IDs, every record is well formed and never oversold, every ID is below `nextID`, and deleted IDs have no record (so they are in neither index).
  - Every method keeps `Valid()`, states the exact condition for each revert reason, leaves everything unchanged when it reverts, and states the whole new state when it succeeds.
- `Scenarios` (`scenarios.dfy`) replays the test suite's call sequences as client methods, using only the methods' contracts. Each method names the test lines it follows:
  - `DeploymentState`: :25-33.
  - `ListingGates`: :37-41 and :64-68.
  - `ListingTypes`: :43-62 and :78-84.
  - `Closing`: :95-129.
  - `DeletingActive`: :143-165 and :178-186.
  - `DeletingClosed`: :167-176.
  - `BuyingRefusals`: :190-215 and :279-290.
  - `BuyingTransfers`: :217-239, :340-351 and :394-404.
  - `WithdrawingEmpty`: :389-392 and :406-409.
  - `TypeZero`: :241-264.
  - `LastUnitCloses`: :266-277.
  - `Administration`: :355-385.

Order of checks:
- Every method checks authorization first. The tests pin this order only for `withdrawToken`: a non-owner's `withdrawToken(1)` on an empty marketplace reports "Invalid Permissions", not "Invalid Amount" (test/Marketplace.js:391). For `List`, `Close`, `Delete` and `Edit` the order is the model's choice, because their permission tests (:40, :101, :149, :337) fail no other check. For example, a non-admin's `List` with type 3 gets "Invalid Permissions" here, and a type check first would give "Invalid Type".
- `Buy` checks, in this order:
  1. the listing is active ("Invalid Listing");
  2. the amount is positive ("Invalid Amount");
  3. the capacity is not exceeded (unlabelled revert);
  4. the type-0 rule holds (unlabelled revert);
  5. the payment goes through ("Approve Failed").

  This order is the model's choice. Every `Buy` revert test that expects a reason string fails exactly one of these conditions. The test at :292-303 fails two (the listing is closed and 11 units exceed the capacity of 10), but it asserts only an unlabelled revert, so the order does not matter to it. Only after the payment does `Buy` count the units. When the units fill the capacity, `Buy` moves the listing to `closed` in the same call.

The model's own choices:
- The error names are the tests' reason strings.
- A repeated or oversized type-0 purchase is an unlabelled revert (test/Marketplace.js:251,263).
- The owner is an admin by ownership. `roles` starts empty, and `RemoveRole(owner)` keeps the owner's rights.
- These behaviours are also the model's choices, not something the tests assert:
  - a purchase beyond the remaining capacity is an unlabelled revert (the only such test, :292-303, closes the listing first);
  - the type-0 rule is per buyer;
  - a balance shortfall, as well as an allowance shortfall, gives "Approve Failed".
- At test/Marketplace.js:350, `Edit` receives the variable `type` (value 1) in the listing-ID position. That is the ID of the listing the test created, so the model reads it as listing 1.

## Model

| member | source | states |
|---|---|---|
| `IndexStore.Without` | test/Marketplace.js:111-119 | the removed ID is gone from the index and every other ID is still in it |
| `IndexStore.WithoutAbsent` | test/Marketplace.js:167-176 | removing an ID from the index that does not hold it leaves that index unchanged, so `Delete` touches only the index that holds the listing |
| `IndexStore.WithoutAt` | test/Marketplace.js:157-165 | removal is compaction: for a duplicate-free index the result is the prefix before the removed ID followed by the suffix after it, all in their original order |
| `IndexStore.WithoutDistinct` | test/Marketplace.js:111-129 | removal keeps an index duplicate-free |
| `IndexStore.WithoutLength` | test/Marketplace.js:157-165 | removing an ID present once shortens the index by exactly one, which leaves a one-listing index empty |
| `IndexStore.Remove` | test/Marketplace.js:157-176 | the compaction loop returns exactly the order-preserving removal `Without` |
| `IndexStore.InsertKeepsPartition` | test/Marketplace.js:71-84 | appending a fresh ID to `active` keeps the two indices duplicate-free and disjoint, and their union is the live IDs plus the new one |
| `IndexStore.MoveKeepsPartition` | test/Marketplace.js:111-129 | moving an active ID to the end of `closed` keeps both indices duplicate-free and disjoint over the same live IDs |
| `IndexStore.DropKeepsPartition` | test/Marketplace.js:157-176 | removing an ID from both indices partitions the live IDs without it |
| `TokenLedger.Move` | test/Marketplace.js:217-239 | a transfer debits the sender by the amount, credits the receiver by the amount, and leaves every other balance unchanged (all balances when sender and receiver coincide) |
| `TokenLedger.MoveConserves` | test/Marketplace.js:226 | a transfer leaves the token's total supply unchanged (the -10/+10 balance changes) |
| `TokenLedger.Token.constructor` | test/Marketplace.js:223-224 | a token starts in the given balances and allowances, which stand for the state after `Claim` and `approve` |
| `TokenLedger.Token.TransferFrom` | test/Marketplace.js:208-227 | succeeds exactly when the holder's balance and its allowance to the spender both cover the amount; then it moves the amount, spends that much of the allowance and keeps the total supply; on failure nothing changes |
| `TokenLedger.Token.Transfer` | test/Marketplace.js:394-404 | succeeds exactly when the sender's balance covers the amount, and then moves it; allowances and the total supply are unchanged |
| `Exchange.Marketplace.constructor` | test/Marketplace.js:13-33 | deployment records the owner, the marketplace's address and the token, with no roles, no listings, empty indices and `nextID` 1 |
| `Exchange.Marketplace.ActiveListings` | test/Marketplace.js:30-33 | the active IDs are duplicate-free, each has a live record, and none is closed |
| `Exchange.Marketplace.ClosedListings` | test/Marketplace.js:121-129 | the closed IDs are duplicate-free, each has a live record, and none is active |
| `Exchange.Marketplace.Lookup` | test/Marketplace.js:178-186 | a lookup reports listing ID 0 exactly when the ID has no live record, and then every field is zero; a live record carries its own ID and is not oversold |
| `Exchange.Marketplace.PhaseOf` | test/Marketplace.js:104-129 | a listing's phase comes from index membership alone: open iff in `active`, closed iff in `closed`, gone iff it has no record |
| `Exchange.Marketplace.List` | test/Marketplace.js:36-91 | a non-admin gets "Invalid Permissions"; a type outside 0..2 gets "Invalid Type"; both change nothing; otherwise the new ID is the old `nextID`, `nextID` goes up by one, the record is stored with nothing sold, and the ID is appended to `active`; the ID was never used before, not even by a deleted listing |
| `Exchange.Marketplace.Close` | test/Marketplace.js:94-139 | a non-admin gets "Invalid Permissions"; an ID not in `active` (missing or already closed) gets "Invalid Listing"; both change nothing; otherwise the ID leaves `active` by order-preserving removal and is appended to `closed` |
| `Exchange.Marketplace.Delete` | test/Marketplace.js:142-186 | a non-owner gets "Invalid Permissions"; an ID in neither index gets "Invalid Listing"; both change nothing; otherwise the ID is removed from whichever index holds it, its record is dropped so a lookup reads all-zero, and it is in neither index |
| `Exchange.Marketplace.Buy` | test/Marketplace.js:189-328 | reports "Invalid Listing" for an ID not active, "Invalid Amount" for 0, an unlabelled revert past capacity or against the type-0 rule (one unit, once per buyer), and "Approve Failed" when the buyer's balance or allowance is below price × amount; every failure changes nothing; on success the buyer pays exactly price × amount to the marketplace, the total supply is kept, the units are counted, and the listing moves to `closed` exactly when the count reaches the capacity |
| `Exchange.Marketplace.Record` | test/Marketplace.js:266-277 | the bookkeeping after payment adds the units to the sold count, records a type-0 buyer, and closes the listing exactly when the count reaches the capacity |
| `Exchange.Marketplace.Edit` | test/Marketplace.js:331-351 | a non-owner gets "Invalid Permissions"; a missing listing gets "Invalid Listing"; a capacity below the sold count gets "Invalid Total Entrants"; all three change nothing; otherwise payload, price, second number and capacity are replaced, while ID, type, sold count and index membership are kept |
| `Exchange.Marketplace.ChangeToken` | test/Marketplace.js:354-358 | a non-owner gets "Invalid Permissions" and nothing changes; the owner repoints settlement at the new token and nothing else changes |
| `Exchange.Marketplace.AddRole` | test/Marketplace.js:361-371 | a non-owner gets "Invalid Permissions" and nothing changes; the owner adds the address to the role set, and re-adding is not an error |
| `Exchange.Marketplace.RemoveRole` | test/Marketplace.js:374-385 | a non-owner gets "Invalid Permissions" and nothing changes; the owner removes the address from the role set, and removing a non-member is not an error |
| `Exchange.Marketplace.WithdrawToken` | test/Marketplace.js:388-409 | a non-owner gets "Invalid Permissions"; an amount above the marketplace's balance gets "Invalid Amount"; neither moves tokens; otherwise exactly the amount moves from the marketplace to the owner and the total supply is kept |

## Left out

- The token contract's own logic (`Claim`, the faucet, and `approve`) is not part of this model. A `Token` is built directly in the state those calls would produce. Its `transferFrom` and `transfer` follow the usual ERC-20 rules, and the unlimited-allowance special case is left out.
- Events (`Listed`, `Closed`, `Purchase`) are not logged. Their values are the methods' results: the new ID, the closed ID, and the buyer with the amount.
- The string metadata (`strings`) is carried as an opaque `payload` that nothing inspects.
- The second number of `ints` (`Terms.extra`) is stored and replaced by `Edit`, but has no effect, because the tests give it none.
- The `ints` array is a three-field record. What the contract does with a shorter or longer array is not modelled.
- Exchange.Marketplace.Buy: integers are unbounded. A uint256 overflow of price × amount is not modelled, and neither are reentrancy through the token call or gas.
- Exchange.Marketplace.Buy: the type-0 rule (one unit per call, one purchase per buyer per listing) is one reading that fits test/Marketplace.js:241-264 and the test name at :241 ("Should revert if token 0 already purchased"). The tests cannot tell it apart from "one unit per listing in total".
- Exchange.Marketplace.Buy: the order of the capacity check, the type-0 rule and the payment is the model's choice, and it decides the reported reason. For example, an unfunded buyer asking for more units than remain gets the unlabelled revert here. Checking the payment first would give "Approve Failed".
- Exchange.Marketplace.Lookup: `listings(i)` is read as a lookup by listing ID. The test at test/Marketplace.js:185 reads `listings(0)`, and ID 0 is never assigned, so that test would see all-zero under any deletion rule. A reading of `listings(i)` by index position is not modelled.
- Exchange.Marketplace.Edit: the tests do not show what happens for a missing listing, so the model reports "Invalid Listing". A capacity equal to the sold count is accepted, and the listing stays in its index. `Edit` never opens or closes a listing.
- Atomic rollback on revert is stated directly, as "a failed call changes nothing". Where it matters (`Buy`), the model makes the payment before any bookkeeping.
