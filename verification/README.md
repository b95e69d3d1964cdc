# BitEOS chain and contracts: a verified model

This project models the parts of BitEOS in which state, loops and arithmetic carry the weight, and
proves what they are for:

- **Finality** (`OrderStatistic`, `BlockHeader`, `HeaderLaws`, `Dpos`, `DposSafety`, `DposProgress`,
  `DposExamples`): the header state machine of delegated proof of stake. Along every chain whose
  confirmed ranges stay within it, across schedule changes, what is proposed or irreversible was
  confirmed by a quorum of different producers. Two chains that are under the same producers from their
  irreversible blocks on agree on the lower of these unless more than a third of the producers confirm
  conflicting blocks, and with no slot missed and no takeover every block is irreversible two quorums of
  turns later.
- **Fork database** (`BlockTree`, `FinalitySearch`, `ForkSearch`, `BftSafety`, `ForkInvariants`,
  `ForkOperations`, `ForkDatabase`, `ForkRuns`, `ForkRestarts`, `ForkExamples`): blocks, confirmations,
  fork choice and pruning on a tree of forks. Over every run of its operations each block carries
  exactly the number of its latest quorum-confirmed ancestor, that number never falls while the block
  stays filed, and blocks that the same producers made irreversible, whatever schedules came before,
  never conflict with fewer than a third of these producers equivocating.
- **Merkle roots** (`MerkleDepth`, `Merkle`): the incremental tree, whose depth comes from bit tricks,
  always has the root of the batch algorithm; what a root determines, with digests marked by side.
- **Bancor exchange** (`Bancor`, `Exchange`): conversions between two connectors, with exact m-th
  roots and powers for weights of 1000/m, over whole runs of trades and of deposits.
- **Names** (`Words`, `Numerals`, `Sequences`, `Names`, `NameOrder`, `NameSuffix`): packing thirteen
  characters into 64 bits with shifts and masks, printing, ordering, and the suffix after the last
  dot, against plain sequences of characters. Words are natural numbers below 2^64; bitwise and, or
  and shifts are defined bit by bit.
- **Producer pay** (`Rewards`, `RewardLaws`): minting, buckets and claims, over any run, and what each
  operation does in numbers.
- **Rotation** (`Rotation`), **undo visitor** (`UndoVisitor`) and **corrupted forks**
  (`ForkBuilder`): the loops and structures of the test suites, for every input.

`Wrappers` and `ChainTypes` hold shared types. `dafny verify dfyconfig.toml` checks everything.

Operations that update state in the source are classes or methods here, each tied by its `ensures` to
a function of the old state; the theorems are about those functions and about every run of them.

Where the code and its own words disagree the model follows the code:

- The comment at `unittests/misc_tests.cpp:54` speaks of dots other than leading ones. The loop counts
  a leading dot as well, so that the suffix of ".abc" is "abc".
- The comment at `libraries/chain/include/besio/chain/incremental_merkle.hpp:29-37` promises the number
  of leading zeros. The function returns the exponent of the power of two, which is what the depth needs.
- `libraries/chain/fork_database.cpp:291-300` does not choose the head anew after a confirmation,
  although the fork choice at lines 36-42 looks at the number that confirmations raise. A run from
  genesis after which the head is not the best block is `ForkExamples.HeadFallsBehind`, and
  `ForkRuns.HeadStaysBestIff` says exactly when a best head stays best.
- The number of a block can fall when the block is removed, with the fork it is on, and added again
  (`ForkExamples.NumberFallsWhenAddedAgain`). It starts over at the number of the block its fork was cut
  off from, which is lower exactly if some block of the fork, from the first removed one up to the block
  itself, had a quorum (`ForkRestarts.FiledAgain`).
- The irreversible number can fall along a chain when a schedule takes over
  (`DposExamples.TakeoverLowersIrreversible`), and the check against double confirmation lets a range
  that reaches below block 0 through, after which a block is proposed on one producer's word
  (`DposExamples.WrappedRangesPropose`). The theorems on quorums therefore ask that ranges stay within
  the chain, for producers that have a block to their name already. `Dpos.IrreversibleStaysIff` and
  `Dpos.RangeCheckExact` give the exact conditions under which the promises hold.
- A leaf's side bit does not reach the Merkle root (`Merkle.SideBitIsLost`), which determines the leaves
  exactly up to that bit (`Merkle.RootBinds`).
- Depositing in parts and redeeming all at once can pay more than was deposited
  (`Exchange.TwoDepositsPayMore`). `Exchange.DepositsPayMoreIff` says exactly when it does, in terms of the
  supply and the balance before the redemption, and `Exchange.DepositsRedeemed` bounds how much more.

## Model

| member | source | states |
|---|---|---|
| `Bancor.IssuedIsGreatest` | contracts/besio.platform/exchange_state.cpp:6-14 | The tokens issued for a deposit T are the greatest k with (R+k)^m * C <= R^m * (C+T), C the balance after the deposit: it qualifies and no larger number does |
| `Bancor.IssuedIsTruncation` | contracts/besio.platform/exchange_state.cpp:12-14 | The same number is the real value R*((1+T/C)^(1/m) - 1) cut off to a whole unit, for any real g with g^m = 1 + T/C |
| `Bancor.PayoutIsTruncation` | contracts/besio.platform/exchange_state.cpp:25-40 | The payout is the real value C*((1+E/R)^m - 1) cut off to a whole unit |
| `Bancor.IssuedBelowDouble` | contracts/besio.platform/exchange_state.cpp:6-14 | Issuing into a connector with a positive balance always satisfies (R+k)^m < 2*R^m |
| `Bancor.PayoutBound` | contracts/besio.platform/exchange_state.cpp:25-43 | The payout is the whole part of C*((R+E)^m - R^m)/R^m, so that the m-th powers decide how much of a balance it takes |
| `Bancor.RedeemIssued` | contracts/besio.platform/exchange_state.cpp:4-46 | Redeeming what a deposit of T issued, from a connector with balance q of the same weight, pays out at most q*T/C |
| `Exchange.ExchangeState.ConvertToExchange` | contracts/besio.platform/exchange_state.cpp:4-20 | The new supply and balance after a deposit, and the asset issued |
| `Exchange.ExchangeState.ConvertFromExchange` | contracts/besio.platform/exchange_state.cpp:22-46 | The new supply and balance after a redemption and the asset paid out, or the error for a foreign symbol with the state unchanged |
| `Exchange.ExchangeState.Convert` | contracts/besio.platform/exchange_state.cpp:48-81 | The recursive conversion, with a measure that allows one recursive call, has the outcome of the specification by hops: new state, result and errors; `BuyingLaw`, `SellingLaw` and `TwoHops` say what that outcome is |
| `Exchange.ConvertSucceedsIff` | contracts/besio.platform/exchange_state.cpp:59-80 | Conversion succeeds exactly for the valid pairs of symbols, and then returns the requested symbol; otherwise which of the two errors it reports |
| `Exchange.BuyingLaw` | contracts/besio.platform/exchange_state.cpp:4-20 | Buying tokens for T: the buyer gets the k that the supply grows by, the connector gets T and nothing else moves; (R+k)^m * C <= R^m * (C+T) < (R+k+1)^m * C, C the new balance |
| `Exchange.SellingLaw` | contracts/besio.platform/exchange_state.cpp:22-46 | Selling tokens: the supply falls by what is sold, the connector by the payout and nothing else moves; payout * r^m <= C * (R^m - r^m) < (payout+1) * r^m, r the supply left |
| `Exchange.TwoHops` | contracts/besio.platform/exchange_state.cpp:59-78 | A conversion from a connector to anything but the token is the purchase of tokens followed by the conversion of just these |
| `Exchange.OverdrawsIff` | contracts/besio.platform/exchange_state.cpp:25-43 | A single redemption drives a balance below zero if and only if C*((R+E)^m - R^m) >= (C+1)*R^m |
| `Exchange.TradeMoves` | contracts/besio.platform/exchange_state.cpp:48-81 | A trade between connectors restores the supply and changes each balance by exactly its deposit minus its payout |
| `Exchange.RoundTrip` | contracts/besio.platform/exchange_state.cpp:4-46 | A deposit redeemed at once returns at most the deposit, restores the supply and leaves the connector no lower, for every supply, balance and weight 1000/m |
| `Exchange.DepositsGrow` | contracts/besio.platform/exchange_state.cpp:4-20 | Over any run of deposits into one connector of balance c, supply'^m * c <= supply^m * c', the balance grows by what was deposited and the other connector is untouched |
| `Exchange.DepositsRedeemed` | contracts/besio.platform/exchange_state.cpp:4-46 | Redeeming at once everything that a run of deposits of T in all issued pays at most T + T*T/c |
| `Exchange.DepositsPayMoreIff` | contracts/besio.platform/exchange_state.cpp:4-46 | With c and S before the deposits and S' the supply after them, the redemption pays more than T if and only if (c+T)*(S'^m - S^m) >= (T+1)*S^m |
| `Exchange.TwoDepositsPayMore` | contracts/besio.platform/exchange_state.cpp:4-46 | In a market of weight 500, two deposits of 5 into a balance of 10 issue 3 + 2 tokens on a supply of 20, and the 5 tokens pay 11 |
| `Exchange.SelfConversion` | contracts/besio.platform/exchange_state.cpp:59-78 | Converting a connector symbol into itself is that round trip |
| `Exchange.TradeKeeps` | contracts/besio.platform/exchange_state.cpp:48-81 | A trade keeps supply and balances positive and never lowers base balance times quote balance |
| `Exchange.RunKeeps` | contracts/besio.platform/exchange_state.cpp:48-81 | Over any run of trades the supply is unchanged and the product of the balances never falls |
| `Exchange.NoFreeTrade` | contracts/besio.platform/exchange_state.cpp:48-81 | After any run of trades, if one balance is no higher than at the start the other is no lower, and strictly higher if the first is strictly lower |
| `Names.StringToName` | libraries/chain/include/besio/chain/name.hpp:21-38 | The loop of shifts and bitwise ors computes the packing of the symbols of the string: five bits each, four for the thirteenth, later characters ignored |
| `Names.NameToString` | libraries/chain/name.cpp:19-33 | The loop of masks and shifts computes the characters of the word as text, without the dots at the end |
| `Names.Name.Set` | libraries/chain/name.cpp:9-16 | A string is accepted if and only if it has at most 13 characters of the alphabet, no dot at the end and a thirteenth symbol below 16; which error otherwise, and the value after each outcome |
| `Names.CharsPack` | libraries/chain/include/besio/chain/name.hpp:17-38 | Unpacking a packed sequence of thirteen characters gives the sequence back |
| `Names.PackChars` | libraries/chain/name.cpp:19-33 | Packing the characters of a 64-bit word gives the word back |
| `Names.LetterOfSymbol` | libraries/chain/include/besio/chain/name.hpp:9-15 | A character survives translation to its symbol and back exactly when it is in the alphabet |
| `Names.CharmapIs` | libraries/chain/name.cpp:20 | The letter of a symbol is the entry of the character table |
| `Names.TextRoundTrip` | libraries/chain/name.cpp:9-33 | Reading the text of any 64-bit name gives the name back |
| `Names.NameRoundTrip` | libraries/chain/name.cpp:9-33 | The text of a read string is the string if and only if the string is normalized |
| `Names.FromTextInjective` | unittests/misc_tests.cpp:538-583 | Different normalized strings pack to different words |
| `NameOrder.TextOrder` | unittests/misc_tests.cpp:538-583 | For normalized strings, the packed words compare as numbers exactly as the strings compare lexicographically |
| `NameOrder.WordOrder` | libraries/chain/include/besio/chain/name.hpp:78 | 64-bit names compare as numbers exactly as their texts compare |
| `NameOrder.AlphabeticSort` | unittests/misc_tests.cpp:561-580 | A list of strings is sorted if and only if the list of packed words is, and printing the words gives the strings |
| `NameSuffix.ComputeSuffix` | unittests/misc_tests.cpp:36-64 | The sentinel loop, the mask and the two shifts compute the packing of the characters after the last dot that counts; the result is a 64-bit word |
| `NameSuffix.CutAt` | unittests/misc_tests.cpp:57-63 | The masked and shifted word plus the thirteenth character is the sequence after the marked dot, left-aligned, with dots after it |
| `NameSuffix.SummandsDisjoint` | unittests/misc_tests.cpp:63 | The two summands have no bit in common: joining them bitwise is adding them |
| `NameSuffix.ShiftedChar` | unittests/misc_tests.cpp:41 | Shifting and masking reads character i |
| `NameSuffix.NextChar` | unittests/misc_tests.cpp:39-47 | One turn of the loop: what the two counters remember after one more character |
| `NameSuffix.SuffixAfterLastDot` | unittests/misc_tests.cpp:36-64 | The suffix is what follows the last dot with a character other than a dot somewhere behind it, padded with dots; without such a dot it is the name itself |
| `NameSuffix.SuffixText` | unittests/misc_tests.cpp:66-110 | The text of the suffix is what follows the last dot of the text of the name |
| `NameSuffix.SuffixIdempotent` | unittests/misc_tests.cpp:36-64 | The suffix of a suffix is that suffix |
| `NameSuffix.SuffixZero` | unittests/misc_tests.cpp:36-64 | The suffix is 0 only for the name 0 |
| `NameSuffix.SuffixShape` | unittests/misc_tests.cpp:36-64 | A suffix consists of characters other than dots followed only by dots |
| `UndoVisitor.PermissionVisitor.constructor` | unittests/misc_tests.cpp:238 | The visitor starts with nothing visited and nothing saved |
| `UndoVisitor.PermissionVisitor.Visit` | unittests/misc_tests.cpp:240-242 | Appends to the list and leaves every saved list alone |
| `UndoVisitor.PermissionVisitor.PushUndo` | unittests/misc_tests.cpp:246-250 | Saves the whole current list, by its length alone |
| `UndoVisitor.PermissionVisitor.PopUndo` | unittests/misc_tests.cpp:252-259 | Restores exactly the list saved last; fails exactly when nothing is saved, so that the asserted bound on the length never does |
| `UndoVisitor.PermissionVisitor.SquashUndo` | unittests/misc_tests.cpp:261-266 | Drops the last saved list and keeps the current one; fails exactly when nothing is saved |
| `UndoVisitor.StepRefines` | unittests/misc_tests.cpp:240-266 | Each call on lengths does what the same call does on full snapshots, and both fail together |
| `UndoVisitor.RunRefines` | unittests/misc_tests.cpp:240-266 | So does any sequence of calls in any order |
| `UndoVisitor.ScriptMeaning` | unittests/misc_tests.cpp:240-266 | Balanced calls never fail, leave the stack as it was and add exactly the entries that are in no popped scope: a popped scope leaves nothing, a squashed one hands its entries to the enclosing scope |
| `Merkle.BatchRoot` | libraries/chain/merkle.cpp:35-50 | The in-place halving loop computes the root of the padded tree, and the empty digest for no ids |
| `Merkle.FoldLevel` | libraries/chain/merkle.cpp:38-47 | One halving round computes the next level |
| `Merkle.RootCollision` | libraries/chain/merkle.cpp:14-50 | Whatever the hash: two lists of one length with the same root, whose leaves do not agree up to the side bit, yield two different pairs that were hashed on the way to the root, with hashes equal up to the side bit |
| `Merkle.RootBinds` | libraries/chain/merkle.cpp:14-50 | With digests marked by side before hashing and no hash collisions, two lists of one length above 1 have the same root if and only if every leaf agrees but for the side bit |
| `Merkle.SideBitIsLost` | libraries/chain/merkle.cpp:14-25 | Whatever the hash, two lists whose first leaf differs in the side bit have the same root |
| `Merkle.RepeatedLastLeaf` | libraries/chain/merkle.cpp:38-41 | The number of leaves is needed: repeating the last leaf of an odd list does not change the root |
| `MerkleDepth.NextPowerOf2` | libraries/chain/include/besio/chain/incremental_merkle.hpp:17-27 | Smearing the highest bit downwards gives the least power of two from the value on; the result is 0 exactly for 0 and, that power being 2^64, for values above 2^63 |
| `MerkleDepth.SmearStep` | libraries/chain/include/besio/chain/incremental_merkle.hpp:19-24 | One line of the smearing doubles the run of set bits below the highest one |
| `MerkleDepth.ClzPower2` | libraries/chain/include/besio/chain/incremental_merkle.hpp:38-50 | For a power of two the six masks compute its exponent, and 64 for the 0 that 2^64 wraps around to |
| `MerkleDepth.StripeHits` | libraries/chain/include/besio/chain/incremental_merkle.hpp:42-47 | A mask of alternating stripes of b bits hits 2^k exactly when k/b is even |
| `MerkleDepth.CalculateMaxDepth` | libraries/chain/include/besio/chain/incremental_merkle.hpp:59-65 | For every 64-bit count, the depth of the smallest full binary tree with room for the nodes: the wrap-around above 2^63 does no harm |
| `Merkle.Collapse` | libraries/chain/include/besio/chain/incremental_merkle.hpp:168-226 | The walk of one append from the list of active nodes gives the list of active nodes of the longer sequence |
| `Merkle.CarryUp` | libraries/chain/include/besio/chain/incremental_merkle.hpp:178-213 | One level of the walk keeps what the old and new node lists stand for, for left and for right nodes |
| `Merkle.IncrementalMerkle.constructor` | libraries/chain/include/besio/chain/incremental_merkle.hpp:97-99 | The empty tree |
| `Merkle.IncrementalMerkle.Append` | libraries/chain/include/besio/chain/incremental_merkle.hpp:168-226 | Whatever was appended before, up to the largest count a word holds, the returned root is the batch root of the whole sequence |
| `Merkle.IncrementalMerkle.GetRoot` | libraries/chain/include/besio/chain/incremental_merkle.hpp:233-239 | The stored root is the batch root of everything appended, or the empty digest |
| `OrderStatistic.CalcLastIrreversible` | libraries/chain/block_header_state.cpp:18-29 | Sorting and taking entry (n-1)/3 gives the greatest number that more than two thirds of the producers imply; 0 for no producers |
| `OrderStatistic.ReachesIffBacked` | libraries/chain/block_header_state.cpp:23-28 | The number is at least a level if and only if enough producers imply that level |
| `OrderStatistic.LastIrreversibleIsImplied` | libraries/chain/block_header_state.cpp:28 | The number is one that some producer implied |
| `OrderStatistic.Sort` | libraries/chain/block_header_state.cpp:27 | A sorted sequence with the same number of entries above every level |
| `BlockHeader.GenerateTemplate` | libraries/chain/block_header_state.cpp:36-90 | The header state of the next block at a slot: producer, counters with room for one more block, implied and irreversible numbers |
| `BlockHeader.ConfirmCounts` | libraries/chain/block_header_state.cpp:199-220 | The backward loop over the counters decrements the confirmed range, stops at the first that reaches zero, and drops it with all older ones |
| `BlockHeader.SetConfirmed` | libraries/chain/block_header_state.cpp:189-222 | The proposed number moves to the newest block in range whose counter reached zero |
| `BlockHeader.MaybePromotePending` | libraries/chain/block_header_state.cpp:92-125 | A pending schedule takes over exactly when it is not empty and the irreversible number reached it, and both producer tables then hold exactly its producers |
| `BlockHeader.CarryOver` | libraries/chain/block_header_state.cpp:98-120 | The loop over the new producers keeps the number of those who were there and starts the others at the irreversible number |
| `BlockHeader.NextState` | libraries/chain/block_header_state.cpp:146-187 | Accepts a header or reports the first failing check, and the state after each stage; which headers, which check and which state is in the five laws below |
| `HeaderLaws.NextSucceedsIff` | libraries/chain/block_header_state.cpp:146-187 | A header is accepted if and only if it comes next, its producer owns the slot under the named schedule, its range starts above the producer's last block (in 32-bit arithmetic), a new schedule is the next version with none waiting, and it is trusted or signed with the slot producer's key |
| `HeaderLaws.RefusalNamed` | libraries/chain/block_header_state.cpp:146-187 | Which error a refused header gets: the first failing condition in the order of the checks, each condition said in terms of the state and the header |
| `HeaderLaws.AcceptedState` | libraries/chain/block_header_state.cpp:146-187 | The accepted state: number, slot, producer, key, irreversible number, and both schedules, before and after a takeover or an announcement |
| `HeaderLaws.TablesAfter` | libraries/chain/block_header_state.cpp:92-120 | The two tables after an accepted block: the producer's entries are its block and what was proposed before it; a takeover keeps the entries of the new producers, starts newcomers at the irreversible number, and drops the others, save the last block of the producer itself |
| `HeaderLaws.ChainsAreSigned` | libraries/chain/block_header_state.cpp:177-186 | Every block of a valid chain was made by the producer of its slot and, unless taken on trust, signed with that producer's key |
| `Dpos.NextKeeps` | libraries/chain/block_header_state.cpp:146-222 | Every accepted block, its range within the chain unless it is its producer's first, keeps the invariant: each counter is what its block still needs of different producers, producers who confirmed are remembered, and implied and proposed numbers have quorums, across schedule changes |
| `Dpos.ChainTracked` | libraries/chain/block_header_state.cpp:146-222 | The invariant holds on every chain from genesis whose ranges stay within it |
| `Dpos.HonestBlockAccepted` | libraries/chain/block_header_state.cpp:146-187 | Every chain goes on: the scheduled producer of any later slot is accepted, signature checked, when the range it confirms stays above the last block it made |
| `Dpos.IrreversibleHasQuorum` | libraries/chain/block_header_state.cpp:36-222 | On every chain whose ranges stay within it, the proposed and the irreversible block were each confirmed by a quorum of different producers, and irreversible <= proposed <= head |
| `Dpos.CounterMeaning` | libraries/chain/block_header_state.cpp:199-220 | The 8-bit counters never run below zero: a counter is the quorum minus the number of different confirmers |
| `Dpos.ProposedNeverFalls` | libraries/chain/block_header_state.cpp:189-222 | The proposed number never falls along a chain |
| `Dpos.IrreversibleStaysIff` | libraries/chain/block_header_state.cpp:36-90 | The irreversible number stays at its level or rises if and only if enough producers counted for the new block imply that level |
| `Dpos.IrreversibleNeverFalls` | libraries/chain/block_header_state.cpp:36-90 | It never falls after a block that kept its schedule |
| `DposExamples.TakeoverLowersIrreversible` | libraries/chain/block_header_state.cpp:92-125 | A chain of twelve blocks from a genesis with the one initial producer: four producers are installed, two take over from them, and the number falls from 6 to 3 |
| `Dpos.RangeCheckExact` | libraries/chain/block_header_state.cpp:156-159 | For a header that passes the 32-bit check, the confirmed range excludes the block its producer made last if and only if the range stays within the chain |
| `DposExamples.WrappedRangesPropose` | libraries/chain/block_header_state.cpp:156-159 | A chain from such a genesis on which one of four producers alone, with ranges that wrap around, gets block 5 proposed where three different confirmers are needed |
| `DposSafety.QuorumsShareConfirmers` | libraries/chain/block_header_state.cpp:36-222 | Block a of one valid chain and block b of another have quorums, and from these blocks on both chains are under the same producers, whatever schedules came before: more than a third of the producers confirmed both |
| `DposSafety.IrreversibleAgrees` | libraries/chain/block_header_state.cpp:36-222 | Two chains under the same producers from their irreversible blocks on, at most (n-1)/3 of whom confirm conflicting blocks: the irreversible block of one is on the other, if that one's irreversible number is no lower |
| `DposSafety.ProposedAgrees` | libraries/chain/block_header_state.cpp:189-222 | The same for the proposed blocks |
| `DposProgress.MakersConfirm` | plugins/producer_plugin/producer_plugin.cpp:939-957 | While producers confirm back to their own last block, all who made blocks above a number have confirmed the first of these blocks |
| `DposProgress.QuorumProposes` | libraries/chain/block_header_state.cpp:189-222 | Once a quorum has made blocks above a number, within the 1024 counted blocks, one of these blocks is proposed |
| `DposProgress.Progress` | libraries/chain/block_header_state.cpp:36-222 | A block is irreversible once a quorum has made blocks from it on and, from some later block on, a quorum has made blocks again |
| `DposProgress.FullSlotsProgress` | libraries/chain/block_header_state.cpp:12-222 | When no slot is missed and no schedule takes over, every block is irreversible 2 * repetitions * quorum blocks later, for every schedule of up to 125 different producers |
| `BftSafety.QuorumsOverlap` | unittests/special_accounts_tests.cpp:58 | Two quorums of n*2/3+1 distinct scheduled confirmers share more than a third of the producers |
| `BftSafety.NoConflictingFinality` | unittests/forked_tests.cpp:382-415 | Blocks below two blocks with quorums of the same producers, at most (n-1)/3 of whom confirm conflicting blocks, never conflict, under whatever schedules the rest of the tree was made |
| `BlockTree.FinalizedIsGreatest` | unittests/forked_tests.cpp:410-430 | The finality of a block is at least the number of every quorum-confirmed ancestor |
| `BlockTree.FinalizedIsReached` | unittests/forked_tests.cpp:410-430 | and, unless it is 0, the number of one of them |
| `BlockTree.FinalizedAfterQuorum` | unittests/forked_tests.cpp:408-412 | A new quorum raises exactly the descendants, to its number at least |
| `FinalitySearch.LiftDescendants` | libraries/chain/fork_database.cpp:309-347 | The breadth-first search raises every descendant whose number is lower, on all forks, and changes nothing else |
| `FinalitySearch.VisitLayer` | libraries/chain/fork_database.cpp:324-341 | One layer of the search keeps the frontier between raised and not yet raised blocks |
| `ForkSearch.RemoveFork` | libraries/chain/fork_database.cpp:204-218 | The growing work list removes exactly the block and everything built on it |
| `ForkSearch.FetchBranchFrom` | libraries/chain/fork_database.cpp:164-201 | The two branches run from the two blocks down to blocks with one parent, contain every block on the way and none of the other fork; it fails only if the forks meet nowhere in the index |
| `ForkInvariants.AddToBlock` | libraries/chain/block_header_state.cpp:239-249 | A confirmation is added if and only if its producer did not confirm before and is scheduled with just the key that signed; otherwise which of the three errors |
| `ForkInvariants.ConfirmedIff` | libraries/chain/block_header_state.cpp:239-249 | Acceptance in terms of the confirmers, the schedule and the key: the accepted confirmation is appended, a second one by the same producer and one by an unscheduled producer are refused as such |
| `ForkInvariants.FindKey` | libraries/chain/include/besio/chain/producer_schedule.hpp:29-34 | The first key the schedule gives the named producer, or the default key if it names no such producer |
| `ForkDatabase.BestHead` | libraries/chain/fork_database.cpp:36-42 | A block that no other block beats by irreversible number, then confirmed number, then height |
| `ForkDatabase.OldestBlock` | libraries/chain/fork_database.cpp:27-35 | A block with the lowest number, on the current chain if any block of that number is |
| `ForkDatabase.PruneLevel` | libraries/chain/fork_database.cpp:245-269 | Pruning a lowest block leaves exactly the blocks built on it |
| `ForkDatabase.Store` | libraries/chain/fork_database.cpp:126-141 | Files the block, makes the best block head, and drops the lowest block if and only if its number is below the best block's irreversible number; what is left is then what is built on that lowest block, and everything otherwise |
| `ForkDatabase.ForkDatabase.constructor` | libraries/chain/controller.cpp:371-388 | A database holding the genesis block satisfies the invariant |
| `ForkDatabase.ForkDatabase.Add` | libraries/chain/fork_database.cpp:126-156 | A block is refused without a head, if known, if its parent is not filed, each with its own error, or if it is not the next of its parent, with nothing changed; otherwise it is filed, the head chosen and the lowest level pruned as for Store; the finality invariant is kept |
| `ForkDatabase.ForkDatabase.Remove` | libraries/chain/fork_database.cpp:204-221 | Removes exactly the block and its descendants, with their marks, chooses the head anew and keeps the invariant |
| `ForkDatabase.ForkDatabase.MarkInCurrentChain` | libraries/chain/fork_database.cpp:232-243 | After success exactly the wanted mark is on the block unless the caller's copy already had it so, and no other mark moved; fails exactly when a change is asked for a block that is not filed |
| `ForkDatabase.ForkDatabase.AddConfirmation` | libraries/chain/fork_database.cpp:291-347 | Counts a confirmation that `ForkInvariants.ConfirmedIff` admits and, for a completed quorum, raises every descendant on all forks to the block's number; changes nothing else of any block, keeps every number exact |
| `ForkOperations.StepKeeps` | libraries/chain/fork_database.cpp:126-347 | Each of the four operations keeps the invariant, numbers and all |
| `ForkRuns.RunSound` | libraries/chain/fork_database.cpp:126-347 | The invariant holds in every state of every run of additions, confirmations, marks and removals: every number is exact, and every stored confirmation is by another producer of the block's schedule, with a key of that producer |
| `ForkRuns.NumberMeansQuorum` | unittests/forked_tests.cpp:372-437 | In every state the operations lead to, a block carries the greatest number among itself and its ancestors with a quorum, or 0 |
| `ForkRuns.NumberNeverFalls` | unittests/forked_tests.cpp:419-430 | Over any run of the operations, a block that stays filed never has its number lowered |
| `ForkRestarts.FiledAgain` | libraries/chain/fork_database.cpp:126-218 | A fork is removed at x and blocks are added after that in any order: whatever of the fork is filed again has the number of x's parent, which is lower than before if and only if some block from x up to it had a quorum |
| `ForkRestarts.CutOffStays` | libraries/chain/fork_database.cpp:126-156 | No addition brings back a block that pruning took away together with all below it |
| `ForkExamples.NumberFallsWhenAddedAgain` | libraries/chain/fork_database.cpp:126-218 | A run from genesis on which the number of a confirmed block falls from 2 to 0 in this way |
| `ForkRuns.KeptAfterAdd` | libraries/chain/fork_database.cpp:126-156 | An addition drops the lowest block if and only if its number is below the best block's irreversible number, and nothing otherwise; then the best block survives if and only if the lowest is its ancestor, the new block if and only if it is an ancestor of its parent, and likewise every other |
| `ForkRuns.FloorAfterAdd` | libraries/chain/fork_database.cpp:126-156 | An accepted addition raises the lowest level by one if and only if some filed block has an irreversible number above it; every block is then above the old level, and otherwise all blocks stay |
| `ForkRuns.RunFloor` | libraries/chain/fork_database.cpp:126-243 | Over any run the lowest level rises by one at exactly these additions and at no other operation |
| `ForkRuns.MarksStay` | libraries/chain/fork_database.cpp:126-347 | No operation moves the mark of a block that stays filed, except a mark operation on that block; blocks that leave lose theirs |
| `ForkRuns.OneLowestKeepsAll` | libraries/chain/fork_database.cpp:245-269 | With only one lowest block, pruning drops that block and nothing else |
| `ForkRuns.HeadStaysBestIff` | libraries/chain/fork_database.cpp:291-300 | After a confirmation a best head is still best if and only if no quorum was completed, or no descendant of the confirmed block with the head's irreversible number gets a higher confirmed number, or an equal one at greater height |
| `ForkExamples.HeadFallsBehind` | libraries/chain/fork_database.cpp:291-300 | A run from genesis after which the head, best before the confirmation, is not the best block |
| `ForkRuns.OrderIrrelevant` | unittests/forked_tests.cpp:390-430 | Databases with the same blocks and the same confirmers of each agree on every number, whatever the order of confirmations |
| `ForkRuns.MoreConfirmersNeverLower` | unittests/forked_tests.cpp:419-430 | On the same tree, more confirmers never lower a number |
| `ForkRuns.IrreversibleNeverConflict` | unittests/forked_tests.cpp:353-437 | Two blocks marked irreversible on any forks never conflict, if the two blocks that the irreversible numbers name were made under the same producers and at most (n-1)/3 of these equivocate |
| `ForkBuilder.BuildForks` | unittests/forked_tests.cpp:77-115 | The nested loops build, for any number of forks, the specified blocks of each fork, sign each block over exactly the ids before it on its own fork, and keep its Merkle list |
| `ForkBuilder.Extend` | unittests/forked_tests.cpp:84-108 | What one honest block adds to fork j: a copy before block j, the corrupted block at j, a re-linked copy after |
| `ForkBuilder.ForkLinked` | unittests/forked_tests.cpp:90-97 | Every fork is linked by ids |
| `ForkBuilder.SharesExactly` | unittests/forked_tests.cpp:77-115 | With injective ids, fork j agrees with the honest chain at its first j blocks and at no later one |
| `ForkBuilder.ForksShareExactly` | unittests/forked_tests.cpp:77-115 | Forks j and k agree at exactly the first min(j, k) blocks |
| `Rotation.EveryProducerTurns` | libraries/chain/block_header_state.cpp:12-16 | A producer that a schedule names once is the scheduled producer of exactly `repetitions` slots of any window of size*repetitions slots |
| `Rotation.ScheduledRounds` | libraries/chain/block_header_state.cpp:12-16 | Over whole rounds from any slot, a set of producers is scheduled for repetitions slots per round and position it holds |
| `Rotation.EveryPositionTurns` | unittests/producer_schedule_tests.cpp:19-22 | In any window of size*repetitions slots, starting anywhere, every position is chosen exactly `repetitions` times |
| `Rotation.RoundTurns` | unittests/producer_schedule_tests.cpp:19-22 | A set of positions gets repetitions times its size in any such window |
| `Rotation.IsScheduleEqual` | unittests/producer_schedule_tests.cpp:25-31 | The comparing loop returns true exactly for equal schedules |
| `Rotation.NextRoundFirstBlock` | unittests/producer_schedule_tests.cpp:36-43 | The search returns the least multiple of the round above the head, within one round; its slot belongs to the first producer |
| `Rotation.TwoForks` | unittests/forked_tests.cpp:312-332 | Head slot plus skip is the same on both chains after every turn, and each chain has produced in exactly the slots of its own producers |
| `Rotation.SlotsAre` | unittests/forked_tests.cpp:312-332 | The slots of a chain are the window slots of its producers, and as many |
| `Rotation.ForksDisjoint` | unittests/forked_tests.cpp:312-332 | No slot is used by both chains |
| `Rotation.ForkGain` | unittests/forked_tests.cpp:312-332 | Over whole rounds a chain gains producers times repetitions blocks per round |
| `Rotation.EstimateWithinChain` | unittests/database_tests.cpp:67-77 | The estimate is at most the head if and only if the head is at least the reversible rounds into the chain; otherwise the unsigned subtraction wraps |
| `Rotation.EstimateLag` | unittests/database_tests.cpp:67-77 | It ends a round and lags the head by (m-1)*R+1 to m*R blocks |
| `Rotation.EstimateNeverFalls` | unittests/database_tests.cpp:67-77 | It never falls as the head grows |
| `Rotation.ReversibleIs` | unittests/database_tests.cpp:67-77 | The reversible rounds r of n producers satisfy 10*r <= 3*n < 10*(r+1) |
| `Rewards.SystemContract.OnBlock` | contracts/besio.system/producer_pay.cpp:20-43 | Counts a block of a registered producer as unpaid, starts the fills with the first counted block, and does nothing before activation |
| `Rewards.SystemContract.Fill` | contracts/besio.system/producer_pay.cpp:82-106 | Mints, and moves the minted tokens to savings and the two pay accounts, which back the buckets: with b to blocks, v to votes and the rest to savings, 20*b <= minted < 20*(b+1) and 5*(b+v) <= minted < 5*(b+v)+5; refused, with nothing changed, exactly when fewer than 20 units are minted, because some part would then not be positive |
| `Rewards.SystemContract.Pay` | contracts/besio.system/producer_pay.cpp:109-137 | Pays the share of both buckets, clears the unpaid blocks, and both buckets fall by what was paid |
| `Rewards.Shares` | contracts/besio.system/producer_pay.cpp:109-120 | forBlocks * total <= perBlock * unpaid < (forBlocks + 1) * total; the vote share is 0, its exact value then being below the daily minimum, or at least the minimum and the whole part of the exact value; 0 for a total or a weight of 0 |
| `Rewards.SystemContract.ClaimRewards` | contracts/besio.system/producer_pay.cpp:68-138 | Which check fails, that of the token contract for amounts included, with nothing changed; otherwise the new ledger, of which `RewardLaws.ClaimLaw` gives the numbers, and a result that is the growth of the claimant's balance; keeps the invariant and conserves tokens |
| `Rewards.ClaimKeeps` | contracts/besio.system/producer_pay.cpp:82-137 | A claim keeps the buckets non-negative and backed, the counters equal to their sums, and creates no token beside the supply |
| `Rewards.BlockShareBounds` | contracts/besio.system/producer_pay.cpp:109-113 | The block share is between 0 and the bucket, and the whole bucket for the only unpaid producer |
| `Rewards.VoteShareBounds` | contracts/besio.system/producer_pay.cpp:114-120 | The vote share is between 0 and the bucket |
| `Rewards.SystemContract.UpdateVotes` | contracts/besio.system/voting.cpp:204-214 | The new votes, clamped at zero, and the new total weight, not clamped |
| `Rewards.SystemContract.RegisterProducer` | contracts/besio.system/voting.cpp:37-60 | A new row, or the old one active again; keeps the invariant |
| `Rewards.VoteKeepsIff` | contracts/besio.system/voting.cpp:204-214 | A vote change keeps the total weight equal to the sum of the votes if and only if it takes no more away than the producer has |
| `Rewards.RegisterKeeps` | contracts/besio.system/voting.cpp:37-60 | Registering keeps the invariant |
| `Rewards.RunConserves` | unittests/besio.system_tests.cpp:1331-1346 | Over any run of blocks, claims, votes and registrations, supply growth is the growth of savings, both buckets and the producers' balances; buckets never go below zero; unpaid blocks add up |
| `Rewards.SoleClaimEmptiesBucket` | unittests/besio.system_tests.cpp:1331-1346 | An accepted claim by the only producer with unpaid blocks empties the per-block bucket |
| `Rewards.ClaimKeepsRate` | unittests/besio.system_tests.cpp:1528-1533 | A claim never lowers the bucket per unpaid block left for the others |
| `Rewards.WaitingCostsNothing` | unittests/besio.system_tests.cpp:1599-1612 | Until the next block, whatever others claim, vote or register first, the block pay of a registered account that does not claim itself is at least what it was before them |
| `RewardLaws.BlockCounts` | contracts/besio.system/producer_pay.cpp:20-43 | A block adds one unpaid block to its producer's row and to no other once 15% of the tokens vote, sets the time of the last fill if none is set, and changes nothing else but the total |
| `RewardLaws.RegisterActivates` | contracts/besio.system/voting.cpp:37-60 | Registering makes the account's row active, a new row having nothing to its name, and changes no other row |
| `RewardLaws.VoteMoves` | contracts/besio.system/voting.cpp:204-214 | A vote moves one producer's votes, never below zero, and the total weight; nothing moves for an unregistered account |
| `RewardLaws.ClaimAcceptedIff` | contracts/besio.system/producer_pay.cpp:68-79 | A claim is accepted if and only if the account is registered and active, 15% of the tokens vote, more than a day has passed since its last claim in 64-bit arithmetic, and at least 20 units are minted if a fill is due |
| `RewardLaws.FillSplits` | contracts/besio.system/producer_pay.cpp:82-106 | A twentieth of the inflation goes to the per-block bucket, a fifth to both buckets, the rest to savings, rounded as the source rounds; nothing at all when no time has passed |
| `RewardLaws.ClaimLaw` | contracts/besio.system/producer_pay.cpp:82-137 | The whole ledger after an accepted claim in numbers: the split of the inflation, the two shares of the filled buckets, and the claimant's row; nothing else moves |
| `RewardLaws.OnceADay` | contracts/besio.system/producer_pay.cpp:77-79 | After an accepted claim, whatever blocks, votes, registrations and claims of others follow, the account's next claim is refused as too early for 86400 seconds |

## Left out

- Exchange.ExchangeState.ConvertFromExchange: needs a redemption smaller than the supply, because the source divides by what is left of it.
- Rewards.VoteShareBounds: takes votes and weights as exact reals, because rounding in doubles is not modelled.
- Floating-point rounding in the exchange and in the inflation rate, weights that are not 1000/m, unequal weights in the run theorems, and 64-bit overflow of amounts.
- Runs of the exchange are trades between connectors, or deposits into one connector with one redemption; mixed runs of deposits, redemptions and trades are covered by the single-step members only.
- The token contract's limit on the supply; its refusal of amounts that are not positive is modelled.
- Merkle.IncrementalMerkle.Append: needs the new count of nodes to be below 2^64, because the source's counter of nodes wraps around there.
- ForkDatabase.ForkDatabase.Remove: leaves no head when the last block is removed, where the source dereferences the beginning of an empty index.
- ForkSearch.FetchBranchFrom: needs both ids to be filed, because the source follows a null pointer for any other.
- UndoVisitor.PermissionVisitor.PopUndo: does not model that the source reads the top of an empty stack before it finds the stack empty; the call fails.
- Hashes and signatures: ids and digests are opaque values, a signature is the key it recovers to, and a new block's id is assumed not to be named by an older block.
- `fork_database::set`, loading and saving the database on disk, the `validated` flag, and pruning that starts above the lowest block.
- The irreversible signal to the controller, fork switching and block application.
- Counters of unpaid blocks are unbounded; name auctions, schedule updates every minute, staking and the vote weights of voters are not modelled.
- `Repeat` visits and logging in the permission visitor do nothing and have no member of their own.
- A string with a NUL character inside; the source stops reading there.
- `push_blocks`, which copies a longer chain block by block.
- The two-fork loop takes the schedule as fixed, as it is in that test.
- Authority checking, ABI serialization, message buffers, deferred transactions, resource limits, WASM execution, the multisignature, sudo and bios contracts, and the bancor converter contract.
