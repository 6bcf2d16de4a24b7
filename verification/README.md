# A verified model of the Cosmos SDK core

This project models, in Dafny, the parts of the annotated Cosmos SDK that everything else rests on, and
proves what they promise:

- **Stores.** Caching stores nested to any depth refine plain maps (`CacheKV.dfy`), their merge iterators
  list exactly the view (`MergeIterator.dfy`), prefix stores are exact views (`Prefix.dfy`), and the
  two-goroutine IAVL iterator behaves as a cursor under every interleaving (`IavlIterator.dfy`). Several
  stores are cached and written together (`CacheMulti.dfy`), and commits keep exactly the versions they
  should (`IavlCommit.dfy`).
- **The application machine.** Handlers are arbitrary programs over a store (`Handler.dfy`); BaseApp runs
  them in a state machine whose committed states depend on the consensus calls alone (`BaseApp.dfy`).
- **Money arithmetic.** 18-digit decimals (`Decimal.dfy`), coin lists (`Coins.dfy`) and their text
  (`Text.dfy`).
- **Economic state machines.** Vesting accounts (`Vesting.dfy`), fee allocation (`Allocation.dfy`),
  commission withdrawal (`Withdrawal.dfy`),
  governance: the tally (`Tally.dfy`), key layout (`GovKeys.dfy`), deposits, escrow and queues (`Gov.dfy`),
  the slashing window and its keys (`Slashing.dfy`), and bank transfers with fees and sequence numbers (`Bank.dfy`).

`Bytes.dfy` holds byte strings and their order, `Calls.dfy` how calls end, `MapSum.dfy` sums over maps and
sequences.

Conventions. Store keys, denominations and text are sequences of bytes in the order of `bytes.Compare`.
A Go panic is a value (`None`, `Panicked`, a flag) of the function that models the code; a method that
promises not to panic says under which conditions.
What comes from outside (gas amounts, signature checks, block times, other modules' answers) is a
parameter. Classes stand for the objects whose fields the code updates; their ghost fields (`Contents`,
`Left`, `History`) give the abstract value.

The governance invariant, `Gov.Keeper.Valid`, says: every balance and record is a sorted list of positive
amounts of valid denominations; in each denomination the escrow holds at least the sum of all records;
exactly the proposals in their deposit or voting period have records, and TotalDeposit is their sum; each
of these proposals is queued once, in the queue of its status, under its end time; IDs are given out once;
every stored vote is for one of the four options.

## Findings

- `Coins.Sub` promises a valid result for valid arguments. `Coins.SubCanBeInvalid` gives a counterexample
  and `Coins.SubValidIff` the exact condition: the regular expression is applied to the first denomination
  only. As a consequence a covered transfer can fail on the sender's side (`Bank.CoveredTransferCanFail`,
  exactly when: `Bank.TakingIff`) and, after a fee has taken the first denomination of a balance, on the
  receiver's side (`Bank.GivingIff`); there a governance refund panics (`GovState.RefundCanPanic`). With
  valid denominations in every balance neither happens (`Bank.SendingSucceeds`), and transfers keep that.
- The same lists stop a block: fees {1aaa, 1b} are valid, but sharing them out looks up each denomination
  and panics on `b` (`Allocation.AllocationCanPanic`; exactly when, `Allocation.AllocateConserves` and
  `Allocation.Distribution.BeginBlocker`). A continuous vesting account that starts with such coins
  cannot be read while it vests (`Vesting.VestingCanPanic`; exactly when, `Vesting.VestingTotal`).
- `removeZeroCoins` and `removeZeroDecCoins` compact the array of their argument. Adding can therefore change
  a list the caller still holds (`Coins.CompactionChanges`): exactly when, `Coins.CompactedSame` and
  `Coins.EditedSame`. Fee allocation passes a list twice and is safe, its rewards being zero-free or all zero.
- `TruncateDecimal` leaves a zero coin for each denomination that holds less than one. A commission with a
  whole coin of one denomination and a fraction of another is then refused by the bank, and cannot be
  withdrawn (`Withdrawal.WithdrawalCanFail`; exactly when, `Withdrawal.WithdrawValidatorCommission`).
- Amounts of coins are parsed in base 0, so a leading zero means octal (`Text.LeadingZeroIsOctal`,
  `Text.SpelledOtherwise`). `Text.ParsedAsSpelled` says exactly which numerals mean what they spell.
- A deposit whose depositor is the escrow account would raise the records without raising the escrow; the
  governance invariant therefore asks that the escrow deposits nothing (`GovState.OwnDepositLosesCover`).

## Model

| member | source | states |
|---|---|---|
| `Handler.Run` | baseapp/baseapp.go:768-785 | a handler (any program of reads, writes, iterations, nested caches, panics and returns) run on a chain of caching stores ends as it does on plain maps and leaves the same contents |
| `Handler.Perform` | store/cachekv/store.go:48-164 | one action of a handler on the innermost open cache: the reply and every open view are those of the plain maps |
| `Handler.StoreLaws` | store/cachekv/store.go:48-164 | a handler reads what it wrote and everything else as it was; a cache it opens shows the same until it is written back or dropped |
| `Abci.DeliverIsAtomic` | baseapp/baseapp.go:795-916 | after runTx in Deliver mode the view is the one before if a message is not accepted or the ante program fails, else what the ante program wrote, followed by every message if all succeed, each from the gas used before it; stated with the runs of the programs themselves |
| `Abci.AnteGates` | baseapp/baseapp.go:853-916 | in every mode a transaction whose ante program fails or panics leaves nothing; otherwise Check keeps exactly what the ante program wrote, and Simulate nothing |
| `Abci.RunMsgsAll` | baseapp/baseapp.go:697-754 | runMsgs yields the state after all messages exactly when each succeeds on the state and the gas meter its predecessors left, and nothing otherwise |
| `Abci.BlockStartsFrom` | baseapp/baseapp.go:552-589 | BeginBlock runs its hook on InitChain's view, or else on the committed one, with an empty block gas meter and the limit of the parameters |
| `Abci.FirstBlockContinues` | baseapp/baseapp.go:357-383 | the first block sees what InitChain's hook wrote |
| `Abci.InitChainOpens` | baseapp/baseapp.go:357-383 | InitChain stores the new parameters, points both states at the result and runs its hook on the deliver state |
| `Abci.DeliverTxTakes` | baseapp/baseapp.go:639-662 | bytes that do not decode and blocks without gas change nothing; any other transaction takes the deliver view to that of runTx and is charged |
| `Abci.CheckTxTakes` | baseapp/baseapp.go:613-632 | CheckTx takes the check view to that of runTx, Simulate leaves every view |
| `Abci.EndBlockRuns` | baseapp/baseapp.go:925-941 | EndBlock runs its hook on the deliver view and touches nothing else |
| `Abci.QueryLeaves` | baseapp/baseapp.go:511-548 | a query leaves every view; only a querier that panics stops the process |
| `Abci.LocalCallIsInvisible` | baseapp/baseapp.go:276-282 | CheckTx, Simulate and queries change no consensus state |
| `Abci.ConsensusCallIgnoresCheck` | baseapp/baseapp.go:288-294 | a consensus call acts alike on states that differ in the check view |
| `Abci.CommittedIsConsensusOnly` | baseapp/baseapp.go:951-974 | whatever CheckTx, Simulate and queries are interleaved, the committed versions and the consensus state are those of the consensus calls alone |
| `Abci.CommitAligns` | baseapp/baseapp.go:951-974 | after Commit the check view, the root store and the newest version are the deliver view reached by the consensus calls alone |
| `Abci.VersionsGrow` | baseapp/baseapp.go:951-974 | committed versions are only ever appended |
| `Abci.HaltedStays` | baseapp/baseapp.go:552-589 | a node that has panicked does nothing more |
| `BaseApp.ExecuteTx` | baseapp/baseapp.go:795-916 | runTx on caching stores is RunTx on plain maps |
| `BaseApp.ExecuteMsgs` | baseapp/baseapp.go:697-754 | the message loop on caching stores, with its single write at the end, is RunMsgs |
| `BaseApp.Node.InitChain` | baseapp/baseapp.go:357-383 | refines the InitChain step of the specification machine |
| `BaseApp.Node.BeginBlock` | baseapp/baseapp.go:552-589 | refines the BeginBlock step: opens a deliver state unless InitChain left one, resets the block gas and runs the hook |
| `BaseApp.Node.CheckTx` | baseapp/baseapp.go:613-632 | refines the CheckTx and Simulate steps |
| `BaseApp.Node.DeliverTx` | baseapp/baseapp.go:639-662 | refines the DeliverTx step, the block gas charge after the message writes included |
| `BaseApp.Node.EndBlock` | baseapp/baseapp.go:925-941 | refines the EndBlock step |
| `BaseApp.Node.Commit` | baseapp/baseapp.go:951-974 | refines the Commit step: the deliver cache becomes a version, the check state restarts from it |
| `BaseApp.Node.Query` | baseapp/baseapp.go:511-548 | refines the custom query step: the handler sees the committed state on a cache that is dropped |
| `CacheKV.Store.Root` | store/cachekv/store.go:35-40 | a store over plain contents |
| `CacheKV.Store.Wrap` | store/cachekv/store.go:126-128 | a fresh cache over any store shows its parent |
| `CacheKV.Store.Get` | store/cachekv/store.go:48-62 | a read returns the overlay value, through any depth of caches, and changes no view |
| `CacheKV.Store.Has` | store/cachekv/store.go:75-78 | presence in the overlay view |
| `CacheKV.Store.Set` | store/cachekv/store.go:65-72 | updates the writer's view and no other |
| `CacheKV.Store.Delete` | store/cachekv/store.go:81-87 | removes the key from the writer's view and no other |
| `CacheKV.Store.Write` | store/cachekv/store.go:90-120 | makes the parent's view the writer's, empties the cache and leaves the writer's view alone |
| `CacheKV.FlushAll` | store/cachekv/store.go:90-120 | replaying the dirty entries in key order gives the overlay |
| `MergeIterator.MergeEnumerates` | store/cachekv/mergeiterator.go:177-226 | merging a parent range with the dirty items of a cache lists exactly the overlay entries of the range, in order, deletes hidden |
| `MergeIterator.EnumerationUnique` | store/cachekv/mergeiterator.go:57-82 | a sorted listing of a view is unique |
| `MergeIterator.Iter.Merged` | store/cachekv/mergeiterator.go:24-32 | a fresh merge iterator still has the whole merged listing to give |
| `MergeIterator.Iter.Valid` | store/cachekv/mergeiterator.go:52-54 | reports whether anything is left |
| `MergeIterator.Iter.Next` | store/cachekv/mergeiterator.go:57-82 | drops exactly the first of what is left; panics when nothing is |
| `MergeIterator.Iter.Key` | store/cachekv/mergeiterator.go:87-112 | the key of the first of what is left |
| `MergeIterator.Iter.Value` | store/cachekv/mergeiterator.go:117-142 | the value of the first of what is left |
| `MergeIterator.Iter.SkipCacheDeletes` | store/cachekv/mergeiterator.go:165-173 | drops deleted items below the parent key, and ends because the items fall |
| `MergeIterator.Iter.SkipUntilExistsOrInvalid` | store/cachekv/mergeiterator.go:177-226 | settles on an entry that exists, keeping what is left, and ends because parent and cache items fall |
| `MergeIterator.DirtyItems` | store/cachekv/store.go:164-186 | the dirty cache entries of the range in iteration order |
| `MergeIterator.NewIterator` | store/cachekv/store.go:148-162 | in either direction and at any depth, lists exactly the entries of the view in [start, end) |
| `MergeIterator.Drain` | store/cachekv/mergeiterator.go:52-142 | walking an iterator gives the listing fixed when it was made |
| `MergeIterator.ClearRange` | x/slashing/signing_info.go:86-93 | deleting each key while iterating the same store removes the whole range and nothing else |
| `Prefix.PrefixEndBytes` | store/types/utils.go:60-81 | the loop computes the least byte string above all strings with the prefix, if any |
| `Prefix.PrefixIsRange` | store/types/utils.go:10-17 | a key has the prefix if and only if it lies in [prefix, PrefixEndBytes(prefix)), trailing 0xFF bytes included |
| `Prefix.ParentRange` | store/prefix/store.go:84-120 | the parent range of a prefix iterator holds the prefixed keys of the child range and no others |
| `Prefix.StripEnumerates` | store/prefix/store.go:141-185 | stripping the prefix from the parent's listing lists the prefix view |
| `Prefix.PrefixStore.Get` | store/prefix/store.go:60-63 | reads the prefix view |
| `Prefix.PrefixStore.Has` | store/prefix/store.go:66-68 | presence in the prefix view |
| `Prefix.PrefixStore.Set` | store/prefix/store.go:71-75 | updates the prefix view; parent keys without the prefix stay |
| `Prefix.PrefixStore.Delete` | store/prefix/store.go:78-80 | removes from the prefix view; parent keys without the prefix stay |
| `Prefix.PrefixStore.NewIterator` | store/prefix/store.go:84-120 | lists exactly the prefix view of the range, in either direction |
| `Prefix.PrefixIter.Next` | store/prefix/store.go:146-154 | drops exactly the first of what is left; panics when nothing is |
| `IavlIterator.StepInv` | store/iavl/store.go:291-418 | every step of the producer goroutine, the init goroutine or the consumer keeps the protocol invariant |
| `IavlIterator.BehavesAsCursor` | store/iavl/store.go:291-378 | from a new iterator, under every interleaving, the answers are those of a cursor over the tree range: in order, none lost, none repeated, no crash |
| `IavlIterator.InvalidIsFinal` | store/iavl/store.go:382-393 | once invalid always invalid, and answers given are never revised |
| `IavlIterator.NoRace` | store/iavl/store.go:323-326 | initRoutine writes without the lock only while the consumer cannot look |
| `IavlIterator.CallsAreNeverStuck` | store/iavl/store.go:334-373 | while a consumer call is pending some goroutine can always move |
| `IavlIterator.StepsShrink` | store/iavl/store.go:291-378 | every step but a new call and Close lowers a measure |
| `IavlIterator.CallCompletes` | store/iavl/store.go:334-373 | under every interleaving a call ends within a bounded number of steps with the cursor's answer |
| `IavlIterator.CloseReleasesGoroutines` | store/iavl/store.go:376-378 | after Close only boundedly many steps remain, and when none is possible both goroutines have ended |
| `IavlCommit.Store.Commit` | store/iavl/store.go:73-97 | over every sequence of commits the versions that exist are exactly the last numRecent + 1 and the waypoints, each with the contents it was committed with |
| `CacheMulti.CacheMultiStore` | store/cachemulti/store.go:31-69 | a cache over each of several separate stores, in any order of the Go map, shows that store |
| `CacheMulti.Write` | store/cachemulti/store.go:105-110 | writing all caches makes each parent show what its cache shows, and changes no cache's view |
| `Decimal.ChopRoundIsNearestEven` | types/decimal.go:441-472 | dropping 18 digits yields r if and only if r is the nearest integer, ties to even |
| `Decimal.ChopRoundOdd` | types/decimal.go:441-472 | rounding is symmetric in sign |
| `Decimal.ChopRoundMonotone` | types/decimal.go:512-514 | rounding is monotone |
| `Decimal.MulIsNearestEven` | types/decimal.go:256-264 | Mul is the exact product rounded to nearest even, symmetric in sign and commutative |
| `Decimal.MulMonotone` | types/decimal.go:256-264 | Mul is monotone in a nonnegative factor |
| `Decimal.MulTruncateBounds` | types/decimal.go:267-275 | MulTruncate is the exact product rounded down, for nonnegative factors |
| `Decimal.QuoError` | types/decimal.go:298-314 | Quo is within 1/2 + 10^-18 of a unit of the true quotient |
| `Decimal.QuoOfInts` | types/decimal.go:298-314 | the same bound for the quotient of two whole numbers |
| `Decimal.QuoOrder` | types/decimal.go:298-314 | Quo orders quotients as the fractions are ordered |
| `Decimal.QuoAtLeast` | types/decimal.go:298-314 | Quo reaches a value if and only if the fraction, compared without dividing, reaches that value less half a unit, ties going to the even one |
| `Decimal.QuoTruncateIsExact` | types/decimal.go:318-335 | although it divides twice, QuoTruncate is the single truncated quotient |
| `Decimal.CeilIsLeast` | types/decimal.go:551-567 | Ceil is the least whole value at or above d |
| `Coins.SafeAdd` | types/coin.go:218-270 | the merge loop computes Add |
| `Coins.AddTotal` | types/coin.go:218-270 | safeAdd adds amounts denomination by denomination, for all lists |
| `Coins.AddShape` | types/coin.go:218-270 | on sorted lists the sum is strictly sorted and zero-free |
| `Coins.AddCommutes` | types/coin.go:218-270 | sums of sorted lists do not depend on the order of the operands |
| `Coins.SubUndoesAdd` | types/coin.go:281-295 | subtracting what was added gives the first list back |
| `Coins.SameCoins` | types/coin.go:361-377 | sorted zero-free lists with the same amounts are equal |
| `Coins.SafeAddInPlace` | types/dec_coin.go:213-259 | adding compacts what is left of the longer operand where it lies; both arrays afterwards, the two being one array included |
| `Coins.EditedSame` | types/dec_coin.go:213-259 | for sorted operands an array is left as it was if and only if none of its entries but the last is zero and above all of the other operand |
| `Coins.CompactionChanges` | types/coin.go:461-474 | adding [0aaa, 1bbb] to nothing turns the caller's array into [1bbb, 1bbb] |
| `Coins.RemoveZeroCoins` | types/coin.go:461-474 | the in-place removal leaves the nonzero coins in order at the front, and Compacted in the whole array |
| `Coins.CompactedSame` | types/coin.go:461-474 | removing zeros leaves a sorted array as it was if and only if no entry but the last is zero |
| `Coins.SafeSubFlag` | types/coin.go:292-295 | SafeSub reports a negative amount if and only if some denomination is short |
| `Coins.IsAllGTEPointwise` | types/coin.go:310-317 | IsAllGTE if and only if no denomination is short |
| `Coins.AmountOfIsTotal` | types/coin.go:385-411 | the binary search finds the amount held |
| `Coins.IsValidMeans` | types/coin.go:150-183 | IsValid if and only if sorted, positive, without upper case, and with a valid first denomination |
| `Coins.AddKeepsValid` | types/coin.go:185-216 | valid lists have a valid sum |
| `Coins.SubCanBeInvalid` | types/coin.go:272-288 | Sub's documented contract fails: valid lists whose difference is not valid |
| `Coins.SubValidIff` | types/coin.go:272-288 | a covered difference of valid lists is valid if and only if the first denomination that differs is a valid one |
| `Text.String` | types/decimal.go:377-424 | filling the byte buffer prints DecString |
| `Text.DecRoundTrip` | types/decimal.go:161-210 | NewDecFromStr(d.String()) is d, for every decimal |
| `Text.ParseFraction` | types/decimal.go:161-210 | a numeral with a point, of at most 18 decimals, denotes the decimal fraction it spells |
| `Text.ParseWhole` | types/decimal.go:161-210 | a numeral without a point denotes the whole number it spells |
| `Text.CoinsToString` | types/coin.go:136-146 | the loop prints the coins joined by commas |
| `Text.ParseCoins` | types/coin.go:552-576 | the loop parses each part, stops at the first bad one, sorts and validates |
| `Text.CoinRoundTrip` | types/coin.go:527-547 | ParseCoin(coin.String()) is the coin |
| `Text.CoinsRoundTrip` | types/coin.go:552-576 | ParseCoins(coins.String()) is the list, for every sorted list of printable coins |
| `Text.AnyOrderParses` | types/coin.go:552-577 | a printed list of different denominations is read back sorted, whatever the order it is written in |
| `Text.SortCoinsSorts` | types/coin.go:552-577 | sorting gives the same coins ordered by denomination |
| `Text.SpacesIgnored` | types/coin.go:527-547 | white space around a coin and between amount and denomination makes no difference |
| `Text.LeadingZeroIsOctal` | types/int.go:129-140 | an amount written with a leading zero and digits below 8 is read in base 8 |
| `Text.ParsedAsSpelled` | types/int.go:129-140 | a coin denotes the decimal number its digits spell if and only if that is below 2^255 and there is no leading zero, or zeros and one digit below 8 |
| `Text.SpelledOtherwise` | types/int.go:129-140 | "010abc" is eight of abc and "08abc" is refused |
| `Vesting.VestedCurve` | x/auth/account.go:404-433 | through three roundings the vested amount is nondecreasing in time and within [0, original] |
| `Vesting.VestedIsLinear` | x/auth/account.go:404-433 | between start and end the vested amount is the linear share within half a coin plus (1/2 + 10^-18) decimal units per original coin; nothing before, all after; a delayed account vests all at the end |
| `Vesting.VestingTotal` | x/auth/account.go:404-433 | GetVestingCoins is the original less the vested amount in each denomination, a sorted list of positive amounts; it panics if and only if a malformed denomination is half-way vested |
| `Vesting.VestingCanPanic` | x/auth/account.go:404-433 | the valid list {10aaa, 10b} makes GetVestingCoins panic at every time between start and end |
| `Vesting.StaysSolvent` | x/auth/account.go:223-329 | each receive, spend, fee, delegate, undelegate and time step keeps coins + delegated vesting >= vesting |
| `Vesting.SpendableIs` | x/auth/account.go:223-243 | an amount is spendable if and only if it is there and leaves the locked coins covered |
| `Vesting.DelegationOrder` | x/auth/account.go:255-329 | a delegation takes locked coins first and never more than there are; an undelegation gives back free coins first |
| `Vesting.LockedIsNeverSpent` | x/auth/account.go:223-243 | over every sequence of steps the spendable amount is never negative and locked coins are never spent |
| `Vesting.SpendableTotals` | x/auth/account.go:223-243 | with the locked coins covered, the loop of spendableCoins does not panic and lists min(BC + DV - V, BC) |
| `Vesting.SpendableIff` | x/auth/account.go:223-243 | the loop panics if and only if a coin it meets has a malformed denomination or does not cover what is locked of it |
| `Vesting.DelegateEachIsSlot` | x/auth/account.go:255-289 | the coin-list loop of trackDelegation does to each denomination what the specification says, and does not panic |
| `Vesting.UndelegateEachIsSlot` | x/auth/account.go:302-329 | the same for TrackUndelegation |
| `Vesting.VestingAccount.constructor` | x/auth/account.go:362-376 | a new account is solvent: its coins are its original vesting, in well-formed denominations |
| `Vesting.VestingAccount.Later` | x/auth/account.go:404-433 | time passing keeps an account solvent |
| `Vesting.VestingAccount.SpendableCoins` | x/auth/account.go:223-243 | does not panic while the account is solvent in well-formed denominations; lists what may be spent |
| `Vesting.VestingAccount.SubtractCoins` | x/bank/keeper.go:274-302 | succeeds if and only if each amount is spendable, and keeps the account solvent |
| `Vesting.VestingAccount.AddCoins` | x/bank/keeper.go:306-329 | receiving keeps the account solvent |
| `Vesting.VestingAccount.TrackDelegation` | x/auth/account.go:255-289 | never panics on a covered amount; moves coins to delegated vesting first |
| `Vesting.VestingAccount.TrackUndelegation` | x/auth/account.go:302-329 | never panics; gives back delegated free first |
| `Allocation.SharesWithin` | x/distribution/keeper/allocation.go:94-114 | the voters together get no more than the part set aside for them |
| `Allocation.ShareNear` | x/distribution/keeper/allocation.go:94-114 | a vote's share is its part by power, never more and less than one unit plus one per whole of the amount below |
| `Allocation.MultiplierBounds` | x/distribution/keeper/allocation.go:53-64 | the proposer multiplier lies in [base, base + bonus] |
| `Allocation.MultiplierNear` | x/distribution/keeper/allocation.go:53-64 | the bonus is the fraction of the power that signed, within a unit in the last place and (1/2 + 10^-18) units per whole of the bonus |
| `Allocation.IntersectClipsNothing` | types/dec_coin.go:302-318 | Intersect with a list that is nowhere smaller changes no amount, and panics if and only if a denomination is malformed |
| `Allocation.PayGives` | x/distribution/keeper/allocation.go:130-158 | a payment books commission, rewards and outstanding of its operator and raises all outstanding by its amount |
| `Allocation.PaySplits` | x/distribution/keeper/allocation.go:130-158 | the operator's commission grows by its rate of what it is paid, its rewards by the rest, what is outstanding by all of it; no other operator's records change |
| `Allocation.AllocateConserves` | x/distribution/keeper/allocation.go:53-122 | allocation panics if and only if a denomination is malformed; otherwise each operator's commission, rewards and outstanding grow by the proposer's share, if it proposed, and the shares of its votes, the community gets the rest of the fees and at least the tax |
| `Allocation.AllocationCanPanic` | x/distribution/keeper/allocation.go:94-114 | fees {1aaa, 1b} are valid and convert, yet with any vote, power, pool and multiplier the allocation panics |
| `Allocation.NoPowerConserves` | x/distribution/keeper/allocation.go:44-48 | with no voting power all fees go to the community pool, unless a denomination has upper case, which panics |
| `Allocation.Distribution.AllocateTokensToValidator` | x/distribution/keeper/allocation.go:130-158 | the in-place additions compute Pay; the caller's array of tokens is edited as by safeAdd |
| `Allocation.Distribution.AllocateTokens` | x/distribution/keeper/allocation.go:21-122 | panics if and only if a fee denomination is malformed (without voting power: has upper case); otherwise empties the collected fees and books, for each operator, the proposer's share and the shares of its votes, the rest going to the community; for known voters, powers >= 0 and base + bonus + tax <= 1 |
| `Allocation.Distribution.BeginBlocker` | x/distribution/abci_app.go:13-49 | the same for the power of all votes and the power of the signed ones; nothing is allocated before the second block |
| `Withdrawal.TruncateDecimal` | types/dec_coin.go:181-195 | the loop splits every coin, and panics exactly when one cannot be a whole coin |
| `Withdrawal.TruncationConserves` | types/dec_coin.go:181-195 | whole coins and change together are what there was, in each denomination and for every list |
| `Withdrawal.TruncationIsFloor` | types/dec_coin.go:181-195 | each denomination is paid down to its whole part and less than one stays |
| `Withdrawal.TruncatedValidIff` | types/dec_coin.go:181-195 | the whole coins are a valid list if and only if no denomination holds less than one |
| `Withdrawal.WithdrawValidatorCommission` | x/distribution/keeper/keeper.go:80-107 | with the commission outstanding it succeeds if and only if there is commission and it is not mixed (one denomination with a whole coin, another without) |
| `Withdrawal.WithdrawalConserves` | x/distribution/keeper/keeper.go:88-104 | a withdrawal credits in whole coins exactly what leaves the commission and what is outstanding |
| `Withdrawal.WithdrawalCanFail` | x/distribution/keeper/keeper.go:97-104 | half a coin of one denomination blocks the withdrawal of another |
| `Tally.VotesInfo` | x/gov/tally.go:90-150 | after reading the votes each validator holds its own vote and the shares of its delegators who voted |
| `Tally.VotesCount` | x/gov/tally.go:90-150 | reading vote by vote counts every ballot once, validator by validator |
| `Tally.ReadDelegations` | x/gov/tally.go:111-145 | the loop over one voter's delegations |
| `Tally.ReadVotes` | x/gov/tally.go:86-150 | the loop over the votes |
| `Tally.AddOwnVotes` | x/gov/tally.go:155-171 | the loop over the validators adds each own vote once, in any order of the Go map |
| `Tally.CountAll` | x/gov/tally.go:41-171 | each option gets the ballots of the delegators who voted and the remaining shares of the validators who did; the total is the sum of the four options |
| `Tally.BallotsAre` | x/gov/tally.go:111-145 | the ballots a validator meets are those of the delegators, no validators, who voted: for each option the power, and in all the shares, they have delegated to it |
| `Tally.TallyMeans` | x/gov/tally.go:86-171 | each count is the sum over the bonded validators of the power of its delegators who voted so and, if it voted so itself, of the shares they leave it; the total is the sum of the four |
| `Tally.OrderIsIrrelevant` | x/gov/tally.go:86-171 | the tally depends on the set of votes only, not on their order |
| `Tally.VotedPowerIsBonded` | x/gov/tally.go:125-171 | the four counts of a voting validator with k ballots of its delegators sum to its bonded tokens within (k + 1)(1/2 + 10^-18) units per token |
| `Tally.TallyVotes` | x/gov/tally.go:41-214 | the tally and the decision on it, a division by zero being a panic |
| `Tally.PassesIff` | x/gov/tally.go:180-213 | a proposal passes if and only if, compared without dividing, the quorum voted, at most the veto share vetoed and more than the threshold of the non-abstaining votes were Yes, each to 18 decimal places |
| `Tally.PassingMargin` | x/gov/tally.go:180-213 | a passing proposal meets the true quorum, veto and threshold within one unit in the last decimal place, and meeting them by one unit suffices |
| `Tally.DecisionNeverPanics` | x/gov/tally.go:183-208 | with staked shares the counts are nonnegative and neither division is by zero |
| `Tally.DeductionsWithin` | x/gov/tally.go:125-163 | the shares deducted from a validator never exceed its shares |
| `Tally.YesHelps` | x/gov/tally.go:190-208 | more Yes votes never turn a passing proposal into a failing one |
| `Tally.CarriesIs` | x/gov/tally.go:86-213 | whether the stored votes carry a proposal does not depend on how they are listed |
| `Tally.TallyStored` | x/gov/tally.go:41-214 | tallying the stored votes never panics with staked shares, and passes if and only if they carry the proposal |
| `GovKeys.FixedOrder` | types/utils.go:46-50 | byte order on fixed-width numbers is number order |
| `GovKeys.FormatOrder` | types/utils.go:56-58 | byte order on formatted times is time order |
| `GovKeys.QueueRange` | x/gov/keeper_keys.go:49-80 | the iterator range up to now holds a queue key if and only if its end time is not after now |
| `GovKeys.QueueKeyInjective` | x/gov/keeper_keys.go:57-80 | a queue key determines its end time and proposal |
| `GovKeys.OtherKeysOutside` | x/gov/keeper_keys.go:12-46 | no other governance key lies in a queue's range |
| `GovKeys.SubspaceIsOwn` | x/gov/keeper_keys.go:29-46 | a proposal's deposit or vote subspace holds its records and no other proposal's, whatever the digits of the IDs |
| `GovKeys.RecordKeyInjective` | x/gov/keeper_keys.go:29-36 | a deposit or vote key determines its proposal and address |
| `GovState.EncodeRange` | x/gov/keeper.go:530-552 | the two queue iterators select exactly their own queue's keys that are due |
| `GovState.EncodeInjective` | x/gov/keeper_keys.go:57-80 | queue keys with the same bytes are the same |
| `GovState.DepositMoney` | x/gov/keeper.go:412-468 | a deposit adds to the escrow what it adds to the records |
| `GovState.OwnDepositLosesCover` | x/gov/keeper.go:412-468 | a deposit by the escrow account would take exactly its amount from what covers the records |
| `GovState.PayMoney` | x/gov/keeper.go:479-525 | paying a record out of the escrow cannot fail and takes from the escrow what it takes from the records |
| `GovState.RefundCanPanic` | x/gov/keeper.go:479-499 | a covered refund fails when the depositor has paid its first, only well-formed denomination as a fee |
| `GovState.BystanderKeeps` | x/gov/endblocker.go:14-104 | an account without a record on a refunded proposal, neither escrow nor burner, keeps its balance |
| `GovState.DepositTotals` | x/gov/keeper.go:438-466 | TotalDeposit stays the sum of the records |
| `GovState.SelectedAreDue` | x/gov/endblocker.go:22-55 | the selected keys are those of the proposals that are due; if none is selected, none is due |
| `Gov.Keeper.constructor` | x/gov/keeper.go:86-99 | the empty state satisfies the invariant |
| `Gov.Keeper.NewTextProposal` | x/gov/keeper.go:107-135 | opens a proposal with no deposit, queued by its deposit end time |
| `Gov.Keeper.ActivateVotingPeriod` | x/gov/keeper.go:270-286 | moves the proposal to the queue of its voting end time |
| `Gov.Keeper.AddDeposit` | x/gov/keeper.go:412-468 | keeps the invariant; on success coins, record, total, status and queue change together, otherwise nothing does |
| `Gov.RaisedMeans` | x/gov/keeper.go:438-466 | voting starts with the first deposit that brings the total to the minimum in every denomination |
| `Gov.Keeper.AddVote` | x/gov/keeper.go:327-354 | accepted if and only if the proposal is in its voting period and the option is valid; then it replaces the voter's earlier vote and no other |
| `Gov.Keeper.SubmitProposal` | x/gov/handler.go:42-71 | a new proposal with its first deposit, in the records and under the next ID, keeps the invariant |
| `Gov.Keeper.RefundDeposits` | x/gov/keeper.go:479-499 | the panic is unreachable; every depositor gets back its record once and no other balance but the escrow's changes |
| `Gov.Keeper.DeleteDeposits` | x/gov/keeper.go:504-525 | the panic is unreachable; every record goes to the burn address once and no other balance but the escrow's changes |
| `Gov.Keeper.DeleteProposal` | x/gov/keeper.go:158-167 | removes the proposal and its queue entry |
| `Gov.Keeper.DropExpired` | x/gov/endblocker.go:22-49 | drops exactly the proposals whose deposit period has ended with their records, each record going to the burn address once |
| `Gov.Keeper.FinishVoted` | x/gov/endblocker.go:53-101 | closes exactly the proposals whose voting period has ended, by the tally of their votes, which are deleted; the records of those that pass go back to the depositors, the others to the burn address, each once |
| `Gov.Keeper.EndBlock` | x/gov/endblocker.go:14-104 | never panics, keeps the invariant and leaves no due proposal; each balance grows by its records on due proposals that pass, the burn address by those of all other due ones, the escrow shrinks by both, and nothing else changes: no other balance, proposal, record or vote |
| `Gov.EndOfProposal` | x/gov/endblocker.go:14-104 | each proposal is gone if its deposit period has ended, passed or rejected by its stored votes if its voting period has, otherwise as it was |
| `Slashing.RecentSnoc` | x/slashing/keeper.go:223-251 | one more signature pushes the oldest out of a full window |
| `Slashing.SlotNext` | x/slashing/keeper.go:223-234 | the slot about to be written holds the entry that leaves the window |
| `Slashing.RingTracks` | x/slashing/keeper.go:223-251 | after any signatures the counter is the number of set bits and the number of misses among the last min(n, window) |
| `Slashing.Keeper.ClearBits` | x/slashing/signing_info.go:86-93 | clears one validator's bits and no other's |
| `SlashingKeys.MissedKeyRange` | x/slashing/keys.go:48-57 | the prefix iterator of a validator's bits visits its keys and no other validator's |
| `SlashingKeys.MissedKeyInjective` | x/slashing/keys.go:48-57 | a bit key determines its validator and index |
| `SlashingKeys.OtherKeysOutside` | x/slashing/keys.go:25-34 | no other slashing key lies in the range of a validator's bits |
| `Slashing.Keeper.UpdateBits` | x/slashing/keeper.go:223-251 | the bit array and the counter take one step of the ring |
| `Slashing.Keeper.HandleValidatorSignature` | x/slashing/keeper.go:198-306 | a validator is slashed for downtime exactly when it is past the first window, missed too many of the last blocks since its last reset, and is known and not jailed; the whole new signing info, jail time included |
| `Slashing.Keeper.HandleDoubleSign` | x/slashing/keeper.go:45-190 | slashes if and only if the validator is known, not unbonded and not tombstoned; each validator is slashed for this at most once over every sequence of calls |
| `Slashing.Keeper.HandleMsgUnjail` | x/slashing/handler.go:30-94 | unjails if and only if all checks pass; a tombstoned validator never |
| `Slashing.Keeper.AfterValidatorBonded` | x/slashing/hooks.go:12-25 | creates a signing record only where there is none |
| `Bank.SentConserves` | x/bank/keeper.go:333-350 | a transfer conserves the supply of each denomination, to oneself included |
| `Bank.SentBalances` | x/bank/keeper.go:333-350 | a transfer moves exactly the amount between the two accounts |
| `Bank.SendingSucceeds` | x/bank/keeper.go:274-350 | from an account that is not vesting and holds enough, with valid denominations everywhere, a transfer succeeds |
| `Bank.CoveredTransferCanFail` | x/bank/keeper.go:241-256 | a covered transfer can fail when the balance left starts with a denomination that is not valid |
| `Bank.TakingIff` | x/bank/keeper.go:274-302 | a covered subtraction from a valid balance succeeds if and only if the first denomination that differs is a valid one |
| `Bank.TakingMeans` | x/bank/keeper.go:274-302 | a subtraction succeeds if and only if the coins are valid, covered by what is spendable and by what is there, and leave a valid list; when it panics |
| `Bank.GivingIff` | x/bank/keeper.go:306-329 | valid coins can be given to an account if and only if the balance then starts with a valid denomination |
| `Bank.IsEqual` | types/coin.go:361-377 | two lists are equal if and only if they are once sorted; comparing panics exactly when sorted lists of one length first differ in a denomination |
| `Bank.ValidateInputsOutputs` | x/bank/msgs.go:162-185 | accepts if and only if every entry is valid and inputs and outputs agree in each denomination |
| `Bank.MultiSendConserves` | x/bank/keeper.go:354-380 | balanced inputs and outputs conserve the supply, whatever addresses repeat |
| `Bank.MultiSendBalances` | x/bank/keeper.go:354-380 | every account gives what its inputs say and gets what its outputs say |
| `Bank.Keeper.SubtractCoins` | x/bank/keeper.go:274-302 | outcome and new state, the panics of SpendableCoins and Sub included |
| `Bank.Keeper.AddCoins` | x/bank/keeper.go:306-329 | outcome and new state |
| `Bank.Keeper.SendCoins` | x/bank/keeper.go:333-350 | outcome and, on success, the new state |
| `Bank.Keeper.InputOutputCoins` | x/bank/keeper.go:354-380 | succeeds if and only if the entries are valid and balanced, each input can be taken and each output given in turn; then all of them were applied |
| `Bank.GetSigners` | x/auth/stdtx.go:92-104 | the signers in order of first occurrence |
| `Bank.DedupIs` | x/auth/stdtx.go:92-104 | signers are distinct and none is missing |
| `Bank.DedupGrows` | x/auth/stdtx.go:92-104 | the first signer of the first message comes first, later ones are added at the end |
| `Bank.Keeper.DeductFees` | x/auth/ante.go:316-346 | charges a valid fee if and only if the coins and the spendable coins both cover it; panics if and only if SpendableCoins does on a covered fee |
| `Bank.DeductibleMeans` | x/auth/ante.go:316-346 | a fee can be deducted if and only if it is valid and covered, denomination by denomination, by the coins and by the spendable coins |
| `Bank.SignedConserves` | x/auth/ante.go:104-147 | the ante step moves the fee from the first signer to the collected fees and nothing else |
| `Bank.FirstSignerPays` | x/auth/ante.go:104-147 | the first signer pays the fee and no other balance changes |
| `Bank.SignedSequences` | x/auth/ante.go:127-147 | the ante step raises exactly the signers' sequences by one |
| `Bank.Keeper.Ante` | x/auth/ante.go:38-149 | passes if and only if the basic checks hold, every signer has an account, the first one can pay the fee, and every signature is good for the account it is checked against; then the fee is charged and every signer counted |
| `Bank.Keeper.DeliverTx` | baseapp/baseapp.go:795-916 | for every transaction of bank messages: it passes the ante step if and only if all checks, the fee and every signature are good; its messages count if and only if all succeed in turn; balances plus collected fees are unchanged, fees rise by the fee, each signer's sequence by one, and whoever signed nothing loses nothing |

## Left out

- Named stores in the application machine: it works on one store, the store's name being part of the key.
- Nil keys and values, and the panics on them.
- Overflow of `Int` and `Dec` beyond 255 bits: amounts are unbounded integers, except where text is parsed.
- The in-place changes that the chop functions make to their `big.Int` argument: decimals are values.
- Gas metering: what code uses is its own business. It starts from a meter reading, sees it, and leaves one; running out is a failure that may strike anywhere. The charge to the block is a parameter, and transactions on the check state start from a fresh meter.
- Signatures, public keys and their storage: verification is a parameter of the ante step.
- IAVL trees, hashing and proofs: a tree is a map. Changing the pruning options between commits.
- `QuoRoundUp`, `QuoInt` and the other decimal operations that no modelled component uses.
- Letters outside ASCII in denominations, Unicode white space in `TrimSpace`, and the order in which `sort.Sort` leaves equal denominations, which are refused afterwards.
- Years after 9999 in formatted times, and calendar rules: a time is its seven fields, compared in order.
- Arithmetic on times: end times are parameters of the calls that set them.
- The stored text of proposals and the final tally result stored with them.
- Proposal IDs beyond 64 bits: a proposal is only opened while the next ID fits.
- The staking keeper: validators, delegations and their statuses are given; bonded validators have positive shares.
- `GetSigners` on messages of other modules, and multisignature keys.
- Slashing amounts and unbonding: a slash is recorded, not applied to tokens.
- Changes of the parameters of the slashing window while it is in use.
- Tendermint, networking, codecs, command line, REST, queriers, tags and genesis files.
