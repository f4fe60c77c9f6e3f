# EOSIO chain model

A Dafny model of the parts of the EOSIO blockchain whose correctness rests on several operations
agreeing with each other, with proofs for all inputs and all runs. `dafny verify dfyconfig.toml`
checks the whole project.

What is modelled, and the main result about it:

- **Merkle roots** (`Merkle`, `MerkleTree`): the incremental tree keeps exactly the nodes it needs, at
  most one more than the bits of the count, and gives after every append the root of the batch
  algorithm, which is that of the lowest balanced tree over the leaves; the depth computed with word
  tricks is right for every 64-bit count.
- **Names** (`Names`, `Spelling`): packing names into 64 bits and printing them are inverse to each
  other, the suffix computed by shifting bits is the text after the last dot, and a name is reserved
  exactly when its text begins with `eosio.`.
- **Fork database** (`ForkDb`, `ForkCases`): every block's BFT number is at all times the largest number among
  the block and its ancestors that hold two thirds plus one confirmations, through additions,
  confirmations, removals and pruning; as long as at most a third of the producers of a schedule
  confirm conflicting blocks, all blocks of it that ever had a quorum form a chain.
- **Header state** (`Dpos`, `DposAccept`, `DposSafety`, `DposChains`, `HeaderState`, `Schedule`): a
  header is accepted exactly when its slot is later, its version and producer are those of the
  schedule, and its producer confirmed none of its range before in the history. Along every chain, across changes of the producer schedule, a block that is proposed or irreversible was
  confirmed by different producers, more than two thirds as many as were active; a block is at or
  below the irreversible one exactly when more than two thirds of the producers back it; of two
  chains that part, at most one makes a later block irreversible, unless more than a third of the
  producers produce on both; every window as long as a round is fair.
- **Voting** (`Voting`, `VotingEffects`, `VotingRuns`, `VotingForm`, `VotingDrift`, `StrayVote`,
  `SystemContract`): every action succeeds exactly under stated conditions and changes just what it names;
  the running totals of producers and proxies equal the sums from scratch; under one factor from
  stake to weight this holds for all runs exactly when the factor exceeds one, and one change of
  weight moves no total away by more than one. After every run, whatever the factors, proxies exist
  and do not form cycles, so that passing on a change of weight ends.
- **Staking** (`Staking`, `StakingEffects`, `StakingRuns`, `StakingContract`): who pays and who gets
  how much is stated for every account, with the exact conditions of success; no token appears or
  vanishes, and what eosio.stake owes beyond what it holds changes only by its own delegations.
- **Authorities** (`Authority`, `AuthorityTree`, `AuthorityCases`, `AuthorityChecker`): what the
  cached, depth-limited checker accepts holds. Where no permission is reached twice it accepts, at
  every limit, exactly what has a derivation no higher than the limit; where permissions are shared
  but do not depend on themselves it is exact as long as they are not nested too deep.
- **ABI** (`Primitives`, `Abi`, `AbiFormat`, `AbiRoundTrip`, `AbiPositions`, `AbiSerializer`): a packed
  value is read back in its normal form exactly when that form is one reading can produce; giving
  fields by position or by name packs the same bytes or is refused alike, with the exact condition;
  the layout of the bytes is stated on its own.
- **Permissions** (`Permissions`, `PermissionEffects`): the permissions of every account form a tree
  below `owner` in every reachable state, each below the parent the action that created it named, and
  walking up the tree decides ancestry.
- **Message buffer, undo sessions, forks** (`MessageBuffer`, `PermissionVisitor`, `Forks`): a chain
  of blocks is a byte queue; remembered sizes restore lists; forks differ from a position on.

Code that computes is modelled by functions, and code that changes things step by step by classes
and methods with loops. A class method is proved to have exactly the effect of the function that
describes it, and the properties are proved about that function. A failed assertion of a contract
undoes the whole action; it is the result `None` of a function and a method that returns `false`
with every table as before.

## Assumptions

- Digests and signatures are parameters. Block ids are not assumed to be injective everywhere: the
  fork database asks of a new block only that its id does not collide with a known one, and
  `Forks.ForkDiffers` asks for digests without collisions.
- Votes are real numbers; the source uses `double`. Token amounts and block numbers are unbounded,
  except where the source's width matters: the check for double confirmations subtracts in 32 bits,
  confirmation counts have 8 bits, sizes in ABI data 32 bits, authority weights 16 and 32 bits.
- The factor from stake to weight, the time and the configured parameters are arguments of actions.
- The voting methods of `SystemContract` and `StakingContract` ask for tables of the form that
  `VotingForm.RunKeepsForm` proves of every run, and keep it.
- The packed form of integers, sizes and strings, and the message buffer, belong to the library fc,
  which is not part of the repository; the message buffer follows what its tests fix, the packed
  form is little-endian integers and sizes in groups of seven bits.
- ABI descriptions are `AbiRoundTrip.WellFormed`: names of structs and variants are plain and used
  for nothing else, bases are structs, no field name occurs twice in a struct and its bases, and
  extensions come last. Loading an ABI does not check the last three; `AbiPositions` does not ask for
  them where it compares positions with names.
- No authority is stored under the empty permission name; the lookup of permissions refuses it.

## Where code and expectation differ

- `clz_power_2` is documented as counting leading zeros but yields the logarithm of a power of two.
  The depth it is used for is right.
- Changes of vote weight of at most one are not passed on, but the voter's recorded weight changes.
  So totals drift. `Voting.PropagateIsExactIff` gives the exact condition for one change, and
  `VotingRuns.SteadyRunsAreExactIff` for all runs under one factor.
- Drifting totals may make the weight of a vote negative, and then the check that its producers exist
  is skipped. So a vote may list a producer that does not exist, and a later change of weight or of
  stake that reaches this vote fails (`StrayVote.VoteMayBeStray`). `VotingForm.StepKeepsListsIff` and
  `VotingForm.RunKeepsListsIff` say exactly when lists stay known.
- eosio.stake as a delegator moves no tokens, so it may owe more than it holds, by exactly what it
  delegated itself (`StakingRuns.RunConserves`). After the run of `StakingRuns.RefundMayBeRefused` a
  refund is due and cannot be claimed; `StakingRuns.RefundsArePaid` has the condition.
- A header whose range of confirmed blocks reaches below block 0 passes the check for double
  confirmations, because the subtraction wraps around. `Dpos.ConfirmsTwiceIff` shows that this is
  the only way a block is confirmed twice by one producer, and `DposChains.WrappedRangeMayPropose` is
  an accepted chain that proposes a block which one of two producers confirmed.
- The irreversible number of a header state may fall right after a change of schedule
  (`DposChains.IrreversibleMayFall`, a chain from the first block on). `Dpos.NextIrreversibleIff` says
  exactly which number comes next, and `Dpos.IrreversibleRises` that it does not fall otherwise.
- The authority checker may refuse what holds when permissions depend on each other
  (`AuthorityCases.CyclesMayHideSuccess`), and the keys it reports may not suffice when a permission
  is named twice (`AuthorityCases.UsedKeysMayFallShort`), since a cached success outlives the return
  of the keys it used.
- A higher depth limit may turn acceptance into refusal where a permission is reached twice, since a
  permission found too deep is not tried again (`AuthorityCases.DepthMayHurt`). One more key may do so
  where permissions depend on each other (`AuthorityCases.MoreKeysMayHurt`). Neither happens where no
  permission is reached twice (`AuthorityTree.MoreStillSatisfies`), nor where the larger check is
  exact (`Authority.SatisfiedStaysSatisfied`).
- A confirmation does not choose the head anew (`fork_database.cpp:291-300`), so that the head may
  not be the best block (`ForkCases.HeadMayLag`). `ForkDb.BestAfterConfirmationIff` says exactly when.
- The loop of `prune` over rivals moves an iterator on before it removes a block with its
  descendants, and the removal may erase the block the iterator stands at; the model searches for
  the next rival instead.
- By position, packing stops at the first extension that is left out; by name it goes on. Where an
  ordinary field follows an extension, which loading an ABI accepts, a list may be packed without a
  value for it (`AbiPositions.PositionsMaySkipFields`); `AbiPositions.PositionsAgreeIff` is the exact
  condition.
- Packing has no branch for optional values of types that are not built in, though reading has one.
  Reading refuses empty structs and arrays that hold null, and enters two scopes for a struct where
  packing enters one, so deeply nested values can be packed that cannot be read. The struct without
  fields of `AbiRoundTrip.PackedMayBeUnreadable` is packed and not read back;
  `AbiRoundTrip.RoundTripIff` is the exact condition.
- `linkauth` accepts a permission name that any account has, not only the account of the link
  (`Permissions.LinkMayDangle`, a run from the first account on).
  `Permissions.RunHasTargetsIff` gives the exact condition under which links always have targets.

## Model

| member | source | states |
|---|---|---|
| `Merkle.BatchRoot` | libraries/chain/merkle.cpp:35-50 | the in-place halving loop computes the root defined level by level, padding odd levels |
| `Merkle.RootIgnoresDuplicatedTail` | libraries/chain/merkle.cpp:35-50 | a list of odd length and the same list with its last element repeated have the same root |
| `MerkleTree.RootIsTree` | libraries/chain/merkle.cpp:35-50 | the root of a list is that of the lowest balanced tree that holds it, where every node joins the roots of its halves and a missing right half repeats the left one |
| `Merkle.RealizedNodesAreStable` | libraries/chain/include/eosio/chain/incremental_merkle.hpp:81-93 | fully realized nodes never change when more leaves are appended |
| `Merkle.DepthOfSuccessor` | libraries/chain/include/eosio/chain/incremental_merkle.hpp:17-65 | rounding up to a power of two and counting its bits gives the bit length plus one, for every 64-bit count |
| `Merkle.ValueOfMaximum` | libraries/chain/include/eosio/chain/incremental_merkle.hpp:59-65 | the largest 64-bit word has the value it should, so counts up to it are covered |
| `Merkle.IncrementalMerkle.Append` | libraries/chain/include/eosio/chain/incremental_merkle.hpp:168-226 | appending returns the batch root of all leaves so far; the nodes kept are exactly those needed later and the root, at most one more than the bits of the count |
| `Merkle.IncrementalMerkle.GetRoot` | libraries/chain/include/eosio/chain/incremental_merkle.hpp:233-239 | the last active node is the batch root of all leaves |
| `Merkle.IncrementalRoot` | libraries/chain/include/eosio/chain/incremental_merkle.hpp:160-239 | feeding a list one by one gives its batch root |
| `Names.ToString` | libraries/chain/name.cpp:19-33 | the shifting loop prints the thirteen symbols without trailing dots |
| `Names.StringToName` | libraries/chain/include/eosio/chain/name.hpp:21-38 | the loop packs twelve symbols of five bits and one of four |
| `Names.PackedSymbols` | libraries/chain/include/eosio/chain/name.hpp:21-38 | every symbol of a packed name is that of its character, zero beyond the end, the last cut to four bits |
| `Names.PackOfText` | libraries/chain/name.cpp:9-33 | packing the text of a name gives the name back, for all 64-bit words |
| `Names.TextIsNormal` | libraries/chain/name.cpp:19-33 | every printed name is in normal form |
| `Names.TextOfPack` | libraries/chain/name.cpp:9-16 | the text of a packed normal string is the string |
| `Names.SetIsInverseOfText` | libraries/chain/name.cpp:9-16 | setting a name succeeds exactly for normal strings and is the inverse of printing |
| `Names.NameSuffix` | unittests/misc_tests.cpp:36-64 | the bit loop returns the name whose text is what follows the last dot |
| `Names.SuffixIsIdempotent` | unittests/misc_tests.cpp:68-85 | taking the suffix twice is taking it once, and a name is its own suffix exactly when its text has no dot |
| `Names.SymbolsAscend` | libraries/chain/include/eosio/chain/name.hpp:9-15 | the symbols are the dot, the digits 1 to 5 and the letters, in ascending order |
| `Names.PackedFromHighBits` | libraries/chain/include/eosio/chain/name.hpp:21-38 | the number of `eosio`: names are packed from the high bits on |
| `Spelling.KnownNames` | libraries/chain/include/eosio/chain/config.hpp:38-40 | the numbers of `owner`, `active`, `eosio.any` and `eosio.stake` are those of their spelling to the base 32 |
| `Spelling.ReservedIff` | libraries/chain/eosio_contract.cpp:212-213 | a permission name is refused as reserved exactly when its text begins with `eosio.` |
| `ForkDb.ClosestQuorumIsLargest` | unittests/forked_tests.cpp:372-437 | the reference number is the largest among a block and its ancestors with a quorum |
| `ForkDb.QuorumRaisesDescendants` | libraries/chain/fork_database.cpp:309-347 | a new quorum raises the number of exactly the descendants that are below it |
| `ForkDb.InsertKeepsSound` | libraries/chain/fork_database.cpp:126-156 | a new block that inherits its parent's number keeps every number exact |
| `ForkDb.ConfirmationWithoutQuorum` | libraries/chain/fork_database.cpp:291-300 | a confirmation that completes no quorum keeps every number exact |
| `ForkDb.ConfirmationWithQuorum` | libraries/chain/fork_database.cpp:291-347 | one that does makes every number exact again after the update has spread |
| `ForkDb.RemoveSubtreeKeepsTree` | libraries/chain/fork_database.cpp:204-221 | removing a block with all its descendants keeps the tree and every number exact |
| `ForkDb.LowestFollowsLast` | libraries/chain/fork_database.cpp:245-269 | the lowest remaining block follows the last pruned one |
| `ForkDb.RemainingDescends` | libraries/chain/fork_database.cpp:245-269 | everything that remains descends from the last pruned block |
| `ForkDb.QuorumsIntersect` | unittests/special_accounts_tests.cpp:58 | two sets of two thirds plus one share more than a third of the producers |
| `ForkDb.QuorumIsTwoThirds` | libraries/chain/fork_database.cpp:291-300 | a valid block has a quorum exactly when the producers that confirmed it are more than two thirds of its schedule |
| `ForkDb.BestIff` | libraries/chain/fork_database.cpp:21-42 | the best block has the highest dpos number, among those the highest bft number, among those the highest number |
| `ForkDb.OldestIff` | libraries/chain/fork_database.cpp:26-32 | the oldest block has the lowest number and is in the current chain if any block of that number is |
| `ForkDb.FinalBlocksFormAChain` | unittests/forked_tests.cpp:372-437 | if at most a third of the producers of a schedule confirm conflicting blocks, the blocks of that schedule that gathered quorums are on one chain; stated of any blocks, so of all the database ever held |
| `ForkDb.QuorumIsRemembered` | libraries/chain/fork_database.cpp:291-300 | a block that had a quorum has one among all blocks the database ever held, whatever was removed since |
| `ForkDb.BestAfterConfirmationIff` | libraries/chain/fork_database.cpp:291-347 | the best block stays best after a confirmation exactly unless it completes a quorum and a descendant, with its raised number, has the same dpos number and a larger bft number or number |
| `ForkCases.HeadMayLag` | libraries/chain/fork_database.cpp:291-300 | a database with two branches whose head is not the best block after a confirmation |
| `ForkDb.ForkDatabase.constructor` | libraries/chain/fork_database.cpp:111-124 | a database with one block is valid and has it as head |
| `ForkDb.ForkDatabase.AddBlock` | libraries/chain/fork_database.cpp:126-156 | duplicates and blocks without a known parent are refused without change; otherwise the block is added and the head chosen, every block stays remembered, and the head is the best block that is left, unless some block makes a later one irreversible |
| `ForkDb.ForkDatabase.ChooseHead` | libraries/chain/fork_database.cpp:126-141 | the oldest block becomes irreversible exactly when it is below the number the best block makes irreversible, and what is built on it stays |
| `ForkDb.ForkDatabase.AddConfirmation` | libraries/chain/fork_database.cpp:291-300 | unknown blocks, repeated or foreign producers and bad signatures are refused, each exactly when; otherwise one confirmer is added, the number of the block rises, to its own, exactly when it was lower and more than two thirds of its producers have now confirmed, every number stays exact, and the head stays best exactly unless a descendant overtakes it |
| `ForkDb.ForkDatabase.SetBftIrreversible` | libraries/chain/fork_database.cpp:309-347 | the layer by layer loop raises exactly the lower descendants |
| `ForkDb.ForkDatabase.UpdateLayer` | libraries/chain/fork_database.cpp:317-341 | one layer raises children and makes progress until none is left |
| `ForkDb.ForkDatabase.RaiseChildren` | libraries/chain/fork_database.cpp:326-339 | exactly the lower children of one block are raised and queued |
| `ForkDb.ForkDatabase.EraseSubtree` | libraries/chain/fork_database.cpp:204-221 | the queue loop erases exactly a block and its descendants |
| `ForkDb.ForkDatabase.Remove` | libraries/chain/fork_database.cpp:204-221 | removal keeps the database valid and chooses the best remaining head |
| `ForkDb.ForkDatabase.Prune` | libraries/chain/fork_database.cpp:245-269 | nothing at or below the pruned number remains, descendants of the pruned block stay, only rivals go |
| `ForkDb.ForkDatabase.PruneBelow` | libraries/chain/fork_database.cpp:248-253 | lower blocks are pruned from the oldest on, and what is built on the last one stays |
| `ForkDb.ForkDatabase.PruneLevel` | libraries/chain/fork_database.cpp:255-268 | one level: the block is reported and its rivals with their descendants are removed |
| `ForkDb.ForkDatabase.RemoveRivals` | libraries/chain/fork_database.cpp:261-268 | blocks of the same number go with their descendants and nothing else |
| `ForkDb.ForkDatabase.MarkInCurrentChain` | libraries/chain/fork_database.cpp:232-243 | only the mark of one known block changes |
| `ForkDb.ForkDatabase.FetchBranchFrom` | libraries/chain/fork_database.cpp:164-201 | both branches lead down to a common parent; they share a block exactly when one of the two starts is built on the other, and then only that start |
| `ForkDb.BranchesMeetIff` | libraries/chain/fork_database.cpp:164-201 | two branches that run apart from equally high ends meet exactly when one start is an ancestor of the other |
| `ForkDb.ForkDatabase.WalkDown` | libraries/chain/fork_database.cpp:170-182 | the longer branch is walked down to the level of the other |
| `ForkDb.ForkDatabase.Best` | libraries/chain/fork_database.cpp:21-42 | the head is the block with the highest irreversible numbers, then the highest number |
| `ForkDb.ForkDatabase.Oldest` | libraries/chain/fork_database.cpp:26-32 | the oldest block has the lowest number, one in the current chain first |
| `Dpos.CalcLastIrreversible` | libraries/chain/block_header_state.cpp:18-29 | sorting and taking the element one third into the list gives the largest number backed by more than two thirds |
| `Dpos.LastIrreversibleIffBacked` | libraries/chain/block_header_state.cpp:18-29 | a block is at or below the result exactly when more than two thirds of the producers imply it |
| `Dpos.LastIrreversibleRises` | libraries/chain/block_header_state.cpp:18-29 | the result does not fall when no producer's number falls |
| `Dpos.RangeIsUnconfirmed` | libraries/chain/block_header_state.cpp:156-159 | a producer whose range passes the check, and does not wrap around or has no block before, confirmed no block of it, also across schedules |
| `Dpos.NextKeepsInv` | libraries/chain/block_header_state.cpp:146-187 | every accepted header keeps each count equal to the confirmations still missing, unless its range reaches below block 0 and its producer has a block |
| `Dpos.RunKeepsInv` | libraries/chain/controller.cpp:576-592 | this holds along every chain from the first block on |
| `Dpos.IrreversibleBlocksAreConfirmed` | libraries/chain/block_header_state.cpp:36-222 | proposed, implied and irreversible blocks were confirmed by different producers, more than two thirds as many as were active |
| `Dpos.ProposedRises` | libraries/chain/block_header_state.cpp:189-222 | the proposed block never falls along any accepted chain |
| `Dpos.RunIsShaped` | libraries/chain/block_header_state.cpp:36-222 | along any accepted chain the irreversible block was proposed first, nothing implied lies above the proposed block, and no block at or below it is tracked |
| `Dpos.NextIrreversibleIff` | libraries/chain/block_header_state.cpp:65-69 | the next irreversible number reaches a block exactly when more than two thirds of the map back it |
| `Dpos.IrreversibleRises` | libraries/chain/block_header_state.cpp:65-69 | along every accepted chain it does not fall after a block that left the schedule as it was |
| `DposSafety.AtMostOneBranchAdvances` | libraries/chain/block_header_state.cpp:36-222 | of two accepted chains with a common beginning at most one makes a block after the fork irreversible, if at most a third of the producers of the schedule there, and of one pending there, produce on both |
| `DposSafety.PassedIsBacked` | libraries/chain/block_header_state.cpp:18-125 | a branch that does so was produced on by more than two thirds of the schedule at the fork, or of the one pending there after more than two thirds made it active |
| `DposSafety.NoneAhead` | libraries/chain/block_header_state.cpp:92-125 | a branch passes the fork while a schedule is pending only if no producer backed its proposal at the fork |
| `DposSafety.RunIsFull` | libraries/chain/block_header_state.cpp:36-125 | in every accepted chain the numbers that decide irreversibility are those of the producers of the active schedule |
| `DposChains.IrreversibleMayFall` | libraries/chain/block_header_state.cpp:92-125 | an accepted chain of eleven blocks, across two changes of schedule, in which it falls from block 5 to block 3 |
| `Dpos.ConfirmsTwiceIff` | libraries/chain/block_header_state.cpp:156-159 | an accepted header confirms a block twice exactly when its range reaches below block 0 and its producer has a block |
| `Dpos.WrappedRangeIsNew` | libraries/chain/block_header_state.cpp:158 | in every state of a chain a range that reaches below block 0 passes the check |
| `DposAccept.AcceptedIff` | libraries/chain/block_header_state.cpp:146-187 | after every chain a header is accepted exactly when its slot is later than the last, its version is the active one, its producer has the slot, it confirmed no block of the history from the begin of its range on, which lies above the irreversible number at which it joined, unless the range reaches below block 0 or the chain is empty, and new producers come with the next version and nothing pending |
| `DposAccept.HeadersFit` | libraries/chain/block_header_state.cpp:146-159 | every header of an accepted chain has a later slot than the one before, the version of the schedule active there and the producer whose turn it was |
| `DposAccept.SlotsRise` | libraries/chain/block_header_state.cpp:36-47 | slots strictly rise along every accepted chain |
| `DposAccept.NextSchedules` | libraries/chain/block_header_state.cpp:92-135 | the pending schedule becomes active exactly when it is not empty and more than two thirds imply its block; otherwise the schedules stay or the proposed one becomes pending |
| `DposAccept.NextNumbers` | libraries/chain/block_header_state.cpp:65-125 | the producer implies the proposed block; producers of a new schedule keep their numbers or get the irreversible one |
| `DposAccept.RunTracks` | libraries/chain/block_header_state.cpp:77-88 | in every state of a chain the blocks after the proposed one are tracked, up to 1024 |
| `DposAccept.ProposedIsLatest` | libraries/chain/block_header_state.cpp:189-222 | the proposed block has its confirmations and no later block among the last 1024 has |
| `DposChains.WrappedRangeMayPropose` | libraries/chain/block_header_state.cpp:156-222 | an accepted chain in which a wrapped range proposes a block that one of two producers confirmed |
| `HeaderState.BlockHeaderState.SetConfirmed` | libraries/chain/block_header_state.cpp:189-222 | the loop proposes the latest block of the range that lacked one confirmation, drops it and all before it, and lowers the others |
| `HeaderState.BlockHeaderState.MaybePromotePending` | libraries/chain/block_header_state.cpp:92-125 | the pending schedule becomes active when its block is irreversible; known producers keep their entries, new ones get the irreversible number |
| `HeaderState.BlockHeaderState.SetNewProducers` | libraries/chain/block_header_state.cpp:127-135 | accepted only with the next version and no pending schedule |
| `HeaderState.BlockHeaderState.GenerateNext` | libraries/chain/block_header_state.cpp:36-90 | a fresh template for the scheduled producer with the numbers of the new block |
| `HeaderState.BlockHeaderState.Apply` | libraries/chain/block_header_state.cpp:146-187 | a fresh state exactly when the header is acceptable, `DposAccept.AcceptedIff`; it has a later slot, the active version and the producer whose turn it is, and is the state the run theorems speak about |
| `Schedule.EveryWindowIsFair` | unittests/producer_schedule_tests.cpp:19-22 | any window as long as a round gives every position twelve slots |
| `Schedule.OneProducerPerRound` | libraries/chain/block_header_state.cpp:12-16 | a producer that is listed once is scheduled for exactly twelve slots of every window as long as a round |
| `Schedule.TurnIsScheduled` | libraries/chain/block_header_state.cpp:12-16 | producers take turns of twelve slots each, in the order of the schedule |
| `Schedule.NextRoundStart` | unittests/producer_schedule_tests.cpp:36-43 | the search ends with the least multiple of the round after the head, at most one round ahead, where position 0 begins |
| `Schedule.SameSchedule` | unittests/producer_schedule_tests.cpp:25-31 | the loop decides equality of schedules |
| `Schedule.BuildForks` | unittests/forked_tests.cpp:312-332 | each chain gets one block for every slot of the window that belongs to its producers |
| `Schedule.ProducersPerRound` | unittests/forked_tests.cpp:312-335 | in every round a set of scheduled producers adds twelve blocks for each |
| `Voting.PropagateKeepsTallies` | contracts/eosio.system/voting.cpp:255-286 | passing on a change keeps all totals equal to the sums from scratch |
| `Voting.PropagateIsExactIff` | contracts/eosio.system/voting.cpp:255-286 | exactly when no change that matters along the chain of proxies is small |
| `VotingDrift.OneChangeDriftsByOne` | contracts/eosio.system/voting.cpp:255-286 | in tables of the form every run has, however wrong their totals, passing on a change moves no total away from the sum from scratch, unless a change is suppressed, and then by at most one |
| `Voting.PropagateShape` | contracts/eosio.system/voting.cpp:255-286 | votes, registrations and accounts off the chain of proxies stay as they are |
| `Voting.UpdateVotesKeepsSound` | contracts/eosio.system/voting.cpp:131-225 | a vote keeps totals, references and the absence of cycles |
| `Voting.RegProxyKeepsSound` | contracts/eosio.system/voting.cpp:236-253 | so does registering or unregistering as a proxy |
| `Voting.RegProducerKeepsSound` | contracts/eosio.system/voting.cpp:37-61 | so does registering a producer |
| `Voting.UnregProdKeepsSound` | contracts/eosio.system/voting.cpp:63-71 | so does unregistering one |
| `Voting.ChangeStakeKeepsSound` | contracts/eosio.system/delegate_bandwidth.cpp:358-380 | so does a change of stake |
| `Voting.ChangeStakeSucceeds` | contracts/eosio.system/delegate_bandwidth.cpp:358-380 | in tables whose listed producers have rows, a change of stake fails only when the stake would be negative: the vote behind it can be counted again |
| `Voting.RenewalSucceeds` | contracts/eosio.system/voting.cpp:131-225 | in tables whose listed producers have rows, counting an existing vote again does not fail |
| `VotingEffects.VoteSucceedsIff` | contracts/eosio.system/voting.cpp:131-225 | in tables whose listed producers have rows a vote succeeds exactly for a known voter that names at most thirty producers in ascending order, all active unless its weight is negative, or a registered proxy other than itself while not being one |
| `VotingEffects.VoteEffect` | contracts/eosio.system/voting.cpp:131-225 | the vote and its weight are recorded, the stake counts as activated by the first vote only, and no other vote, stake or registration changes |
| `VotingEffects.CastRecords` | contracts/eosio.system/voting.cpp:196-225 | the totals of the producers concerned do not become negative |
| `VotingEffects.RegProxySucceedsIff` | contracts/eosio.system/voting.cpp:236-253 | in such tables registering as a proxy succeeds exactly when it changes something and the voter uses no proxy |
| `VotingEffects.RegProxyEffect` | contracts/eosio.system/voting.cpp:236-253 | only the flag changes, besides weights; a new voter has no stake and no vote |
| `VotingEffects.ChangeStakeEffect` | contracts/eosio.system/delegate_bandwidth.cpp:358-380 | only this voter's stake changes, besides weights |
| `VotingEffects.RunRegisters` | contracts/eosio.system/voting.cpp:37-71 | after every run a producer has a row, and an active one, exactly as its last registration said |
| `VotingEffects.RegistrationKeepsVotes` | contracts/eosio.system/voting.cpp:37-71 | registering and unregistering keep all votes, and a new producer has none |
| `VotingRuns.RunKeepsSound` | contracts/eosio.system/voting.cpp:37-286 | totals are exact after every run in which no change was suppressed, whatever the factors |
| `VotingRuns.SteadyRunIsExact` | contracts/eosio.system/voting.cpp:105-286 | under one factor greater than one every total is the sum computed from the stakes alone |
| `VotingRuns.SmallFactorLosesVotes` | contracts/eosio.system/voting.cpp:262-263 | under a factor of at most one a run loses a vote |
| `VotingRuns.SteadyRunsAreExactIff` | contracts/eosio.system/voting.cpp:105-286 | totals are exact after all runs under one factor exactly when it exceeds one |
| `VotingForm.RunKeepsForm` | contracts/eosio.system/voting.cpp:37-286 | after every run, whatever the factors and suppressed changes, proxies exist, a voter with a proxy is no proxy and lists no producers, lists are sorted and at most 30 long, and proxies do not form cycles |
| `VotingForm.StepKeepsForm` | contracts/eosio.system/voting.cpp:37-286 | every action keeps this form |
| `VotingForm.UpdateVotesKeepsForm` | contracts/eosio.system/voting.cpp:131-225 | so does a vote, which changes the list of its voter and no other |
| `VotingForm.StepKeepsListsIff` | contracts/eosio.system/voting.cpp:194-218 | in tables whose listed producers have rows an action keeps this exactly when it is not a vote without a proxy, accepted with a negative weight, that lists a producer without a row |
| `VotingForm.ListIsCheckedUnless` | contracts/eosio.system/voting.cpp:194-218 | an accepted vote lists only known producers, unless it has no proxy and its weight is negative |
| `VotingForm.RunKeepsListsIff` | contracts/eosio.system/voting.cpp:37-286 | along a run every listed producer has a row after every action exactly when no action was such a vote |
| `Voting.WellFormedPasses` | contracts/eosio.system/voting.cpp:255-286 | passing on a change fails nowhere in tables whose listed producers have rows |
| `StrayVote.VoteMayBeStray` | contracts/eosio.system/voting.cpp:194-201 | a run of ten actions from empty tables lists a producer without a row, and a vote for that proxy then fails |
| `SystemContract.DeltaSumIsWeightDelta` | contracts/eosio.system/voting.cpp:203-218 | adding the changes of registered producers in any order equals counting them list by list |
| `SystemContract.Contract.PropagateWeightChange` | contracts/eosio.system/voting.cpp:255-286 | the recursion ends, fails exactly when a listed producer or a proxy has no row, and otherwise has the effect of `Voting.Propagate` |
| `SystemContract.Contract.ChangeProducers` | contracts/eosio.system/voting.cpp:272-279 | fails exactly when a listed producer has no row; otherwise every listed producer and the sum of all weights change by the difference |
| `SystemContract.Contract.Delegate` | contracts/eosio.system/voting.cpp:168-173 | the weight delegated to a proxy changes and the change is passed on, or the whole fails |
| `SystemContract.Contract.MoveProxied` | contracts/eosio.system/voting.cpp:166-192 | weight leaves the old proxy and reaches the new one, or the vote is refused |
| `SystemContract.Contract.Validate` | contracts/eosio.system/voting.cpp:132-146 | the checks accept exactly well-formed votes |
| `SystemContract.Contract.Collect` | contracts/eosio.system/voting.cpp:165-201 | the collected changes take weight from the old list and give it to the new one |
| `SystemContract.Contract.Apply` | contracts/eosio.system/voting.cpp:203-218 | the changes are applied, never below zero, or the vote is refused |
| `SystemContract.Contract.Recount` | contracts/eosio.system/voting.cpp:131-225 | the whole of `update_votes`, undone when refused |
| `SystemContract.Contract.Update` | contracts/eosio.system/voting.cpp:131-225 | the same keeps the form of the tables, for a vote and for counting one again |
| `SystemContract.Contract.Vote` | contracts/eosio.system/voting.cpp:126-129 | voting has the effect of `Voting.VoteProducer` and keeps the form of the tables |
| `SystemContract.Contract.RegisterProxy` | contracts/eosio.system/voting.cpp:236-253 | the effect of `Voting.RegProxy`, undone when refused; the form of the tables is kept |
| `SystemContract.Contract.RegisterProducer` | contracts/eosio.system/voting.cpp:37-61 | the effect of `Voting.RegProducer`, keeping the votes of a known producer |
| `SystemContract.Contract.UnregisterProducer` | contracts/eosio.system/voting.cpp:63-71 | the effect of `Voting.UnregProd`, refused for unknown producers |
| `SystemContract.Contract.StakeChanges` | contracts/eosio.system/delegate_bandwidth.cpp:358-380 | the effect of `Voting.ChangeStake`, undone when refused; the form of the tables is kept |
| `Staking.ChangeBwConserves` | contracts/eosio.system/delegate_bandwidth.cpp:211-381 | tables stay balanced, tokens are conserved, and only eosio.stake's own delegations change what is owed |
| `Staking.ChangeRefundConserves` | contracts/eosio.system/delegate_bandwidth.cpp:276-339 | pending refunds and the amount to pay together account for the change |
| `Staking.TransferConserves` | contracts/eosio.token/eosio.token.cpp:70-124 | a transfer moves exactly its amount and conserves the sum |
| `Staking.ChangeStakeStakes` | contracts/eosio.system/delegate_bandwidth.cpp:358-380 | a change of stake changes that voter's stake and no other |
| `Staking.ClaimRefundConserves` | contracts/eosio.system/delegate_bandwidth.cpp:408-423 | a claimed refund reaches its owner and conserves everything else |
| `Staking.RefundIsPaid` | contracts/eosio.system/delegate_bandwidth.cpp:408-423 | when eosio.stake holds what it owes, a claim succeeds exactly when a refund is due |
| `Staking.SelfStakeUsesRefundFirst` | contracts/eosio.system/delegate_bandwidth.cpp:292-323 | staking to oneself draws on the pending refund before the balance, net and cpu apart |
| `StakingEffects.DelegateEffect` | contracts/eosio.system/delegate_bandwidth.cpp:211-393 | who owns the stake, who pays what to eosio.stake, and that only one's own stake draws on one's own refund, whose time stays; every other balance, refund, delegation and resource stays |
| `StakingEffects.UndelegateEffect` | contracts/eosio.system/delegate_bandwidth.cpp:211-405 | no balance changes; the refund of the owner grows by exactly the amounts and has the time of the request |
| `StakingEffects.ClaimEffect` | contracts/eosio.system/delegate_bandwidth.cpp:408-423 | a claim succeeds exactly when a refund is due and eosio.stake can pay it, and then pays it to its owner and erases it |
| `StakingEffects.EmptyRowsGo` | contracts/eosio.system/delegate_bandwidth.cpp:225-274 | a delegation, resources or a payer's balance that become empty lose their row |
| `StakingEffects.DelegateSucceedsIff` | contracts/eosio.system/delegate_bandwidth.cpp:211-393 | exactly for amounts that are not negative and not both zero, no transfer to oneself, what is due is there, and the votes can be changed |
| `StakingEffects.UndelegateSucceedsIff` | contracts/eosio.system/delegate_bandwidth.cpp:211-405 | exactly for amounts within what was delegated, enough stake activated, and votes that can be changed |
| `StakingRuns.StepConserves` | contracts/eosio.system/delegate_bandwidth.cpp:211-423 | every action keeps the tables balanced and conserves tokens |
| `StakingRuns.RunConserves` | contracts/eosio.system/delegate_bandwidth.cpp:211-423 | so does every run, and what is owed grows by exactly eosio.stake's own delegations |
| `StakingRuns.RefundsStayPayable` | contracts/eosio.system/delegate_bandwidth.cpp:408-423 | after every run without such delegations all due refunds can be claimed |
| `StakingRuns.RefundsArePaid` | contracts/eosio.system/delegate_bandwidth.cpp:408-423 | from the first action on tables are balanced and tokens conserved, and refunds that are due can be claimed as long as eosio.stake delegated no more on its own account than it was issued |
| `StakingRuns.RefundMayBeRefused` | contracts/eosio.system/delegate_bandwidth.cpp:276-356 | a run of two actions after which a refund is due, in balanced tables, and cannot be claimed |
| `StakingContract.Tables.ChangeDelegation` | contracts/eosio.system/delegate_bandwidth.cpp:225-248 | the row is created, changed or erased, and never negative |
| `StakingContract.Tables.ChangeResources` | contracts/eosio.system/delegate_bandwidth.cpp:250-274 | likewise the receiver's totals |
| `StakingContract.Tables.UpdateRefund` | contracts/eosio.system/delegate_bandwidth.cpp:281-339 | the step by step update of the refund and the amount left to pay |
| `StakingContract.Tables.Pay` | contracts/eosio.token/eosio.token.cpp:70-124 | the transfer, refused without change when the balance is short; otherwise the amount moves and no other balance changes |
| `StakingContract.Tables.Settle` | contracts/eosio.system/delegate_bandwidth.cpp:276-356 | refunds and tokens together: the source pays, eosio.stake gets, nobody else's balance changes, and eosio.stake as source changes nothing; the amounts are those of `StakingEffects.DelegateEffect` |
| `StakingContract.Tables.Change` | contracts/eosio.system/delegate_bandwidth.cpp:211-381 | the whole of `changebw`, undone when refused |
| `StakingContract.Tables.Delegate` | contracts/eosio.system/delegate_bandwidth.cpp:383-393 | the effect of `Staking.DelegateBw`, which `StakingEffects.DelegateEffect` and `StakingEffects.DelegateSucceedsIff` describe |
| `StakingContract.Tables.Undelegate` | contracts/eosio.system/delegate_bandwidth.cpp:395-405 | the effect of `Staking.UndelegateBw`, which `StakingEffects.UndelegateEffect` and `StakingEffects.UndelegateSucceedsIff` describe |
| `StakingContract.Tables.Claim` | contracts/eosio.system/delegate_bandwidth.cpp:408-423 | the effect of `Staking.ClaimRefund` |
| `Authority.HeaviestFirst` | libraries/chain/include/eosio/chain/authority_checker.hpp:34-45 | entries are visited by falling weight, at equal weight waits before keys before accounts |
| `Authority.AlikeKeepOrder` | libraries/chain/include/eosio/chain/authority_checker.hpp:34-45 | entries of the same weight and kind are visited in the order they are listed |
| `Authority.WaitIsMet` | libraries/chain/include/eosio/chain/authority_checker.hpp:221-227 | a wait counts exactly from a delay of so many seconds on, in microseconds |
| `Authority.OrderedIsAll` | libraries/chain/include/eosio/chain/authority_checker.hpp:189-194 | the ordered entries are the entries of the authority |
| `Authority.DerivableIff` | libraries/chain/include/eosio/chain/authority_checker.hpp:51-60 | in the reference a permission that was not provided holds exactly when its authority does |
| `Authority.CheckExtends` | libraries/chain/include/eosio/chain/authority_checker.hpp:184-205 | a check reports only provided keys, and a failed one gives back the keys it used |
| `Authority.CheckIsSound` | libraries/chain/include/eosio/chain/authority_checker.hpp:183-270 | whatever is accepted at any depth with any sound cache holds |
| `Authority.SatisfiedAuthorityHolds` | libraries/chain/include/eosio/chain/authority_checker.hpp:138-146 | an accepted authority holds |
| `Authority.SatisfiedIffHolds` | unittests/misc_tests.cpp:270-454 | permissions that are reached, do not depend on themselves and fit the depth limit are decided exactly, however often they are shared |
| `Authority.SatisfiedStaysSatisfied` | unittests/misc_tests.cpp:279-309 | where a check is exact, it accepts whatever is accepted with fewer keys, permissions or delay at any depth limit |
| `AuthorityTree.SatisfiedIffDerived` | unittests/misc_tests.cpp:270-454 | where no permission is reached twice, at every depth limit the check accepts exactly what has a derivation no higher than the limit |
| `AuthorityTree.PermissionIffDerived` | libraries/chain/include/eosio/chain/authority_checker.hpp:113-121 | the same for a permission |
| `AuthorityTree.MoreStillSatisfies` | unittests/misc_tests.cpp:279-309 | there more keys, permissions, delay or depth never turn acceptance into refusal |
| `AuthorityTree.UsedKeysSuffice` | unittests/misc_tests.cpp:294-303 | there the reported keys satisfy the authority by themselves, at every depth limit |
| `AuthorityCases.UsedKeysMayFallShort` | libraries/chain/include/eosio/chain/authority_checker.hpp:184-205 | an example where a permission is named twice and they do not |
| `AuthorityCases.CyclesMayHideSuccess` | libraries/chain/include/eosio/chain/authority_checker.hpp:237-269 | an example where permissions depend on each other and one that holds is refused |
| `AuthorityCases.DepthMayHurt` | libraries/chain/include/eosio/chain/authority_checker.hpp:237-269 | permissions without cycles for which the limits 2 and 4 accept and the limit 3 refuses |
| `AuthorityCases.MoreKeysMayHurt` | libraries/chain/include/eosio/chain/authority_checker.hpp:237-269 | permissions that depend on each other for which one more key turns acceptance into refusal |
| `AuthorityChecker.Checker.Weigh` | libraries/chain/include/eosio/chain/authority_checker.hpp:207-270 | the visitor adds the weight, marks keys and records permissions as the specification says |
| `AuthorityChecker.Checker.Evaluate` | libraries/chain/include/eosio/chain/authority_checker.hpp:182-205 | the loop stops at the threshold, and a failure restores the used keys |
| `AuthorityChecker.Checker.SatisfiedBy` | libraries/chain/include/eosio/chain/authority_checker.hpp:138-146 | a check with a fresh cache of the provided permissions |
| `AuthorityChecker.Checker.SatisfiedByPermission` | libraries/chain/include/eosio/chain/authority_checker.hpp:113-121 | the same for a permission |
| `AuthorityChecker.Checker.SatisfiedWithDelay` | libraries/chain/include/eosio/chain/authority_checker.hpp:123-136 | another delay for one check, restored afterwards |
| `AuthorityChecker.Validate` | libraries/chain/include/eosio/chain/authority.hpp:143-187 | the loops accept exactly sorted authorities whose weights, added without overflow, reach a positive threshold |
| `AuthorityChecker.ValidIffSatisfiable` | unittests/misc_tests.cpp:460-534 | for an authority in order this means that all its entries together satisfy it |
| `AuthorityChecker.ValidAuthorityIsSatisfied` | unittests/misc_tests.cpp:460-534 | the checker accepts a valid authority when everything it names is there |
| `AuthorityChecker.ValidTreeIsSatisfied` | unittests/misc_tests.cpp:460-534 | the same at every depth limit, where no permission is reached twice and everything named has a derivation within the limit |
| `Abi.ResolveIsIdempotent` | libraries/chain/abi_serializer.cpp:270-280 | resolving a resolved type changes nothing, even for circular definitions |
| `AbiFormat.ResolveFollows` | libraries/chain/abi_serializer.cpp:270-280 | a type stands for the end of its chain of definitions, however long |
| `AbiFormat.FormOfName` | libraries/chain/abi_serializer.cpp:176-205 | a name that ends with `[]`, `?` or `$` is an array, an optional type or an extension of what comes before |
| `AbiFormat.NameOfForm` | libraries/chain/abi_serializer.cpp:176-205 | and only such names are |
| `AbiFormat.Widths` | libraries/chain/abi_serializer.cpp:65-88 | the widths of the integer types; a `bool` is one byte of any value |
| `AbiFormat.PackedInteger` | libraries/chain/abi_serializer.cpp:65-73 | an integer is packed in as many bytes as its type has, the low byte first |
| `AbiFormat.IntegerIsRead` | libraries/chain/abi_serializer.cpp:65-73 | and read from just those bytes |
| `AbiFormat.PackedSize` | libraries/chain/abi_serializer.cpp:410-436 | a size is packed in groups of seven bits, low ones first, with the high bit on all but the last and no needless group |
| `AbiFormat.SizeIsRead` | libraries/chain/abi_serializer.cpp:329-365 | a size is read from at most five groups, of which 32 bits are kept |
| `AbiFormat.SizeRunsOut` | libraries/chain/abi_serializer.cpp:329-365 | and reading it fails when the bytes end before a last group |
| `AbiFormat.PackedText` | libraries/chain/abi_serializer.cpp:91 | text is packed as its length and one byte for every character |
| `AbiFormat.ArrayLayout` | libraries/chain/abi_serializer.cpp:410-423 | an array is packed as its length and its elements in order |
| `AbiFormat.StructLayout` | libraries/chain/abi_serializer.cpp:439-471 | a struct is packed as its base and then its own fields in the order of declaration |
| `AbiFormat.VariantLayout` | libraries/chain/abi_serializer.cpp:424-438 | a variant is packed as the index of the first type of that name and the value |
| `AbiFormat.ReadsNull` | libraries/chain/abi_serializer.cpp:352-357 | an optional value that begins with 0 is null, and nothing more is read |
| `AbiFormat.ReadsPresent` | libraries/chain/abi_serializer.cpp:352-357 | an optional value that begins with anything else is the packed value that follows, read in its normal form, and what follows stays |
| `AbiFormat.ReadsBuiltin` | libraries/chain/abi_serializer.cpp:34-50 | for built-in types that byte is 1, and a greater one is refused |
| `AbiFormat.IndexIsRefused` | libraries/chain/abi_serializer.cpp:359-366 | the index of no type of a variant is refused |
| `AbiFormat.NullIsRefused` | libraries/chain/abi_serializer.cpp:329-351 | null in an array is refused |
| `AbiRoundTrip.DecodedIsSolid` | libraries/chain/abi_serializer.cpp:282-378 | everything read has no null in arrays, no empty struct and fits the depth |
| `AbiRoundTrip.IsReadBack` | unittests/abi_tests.cpp:38-68 | a packed value of such a form is read back in normal form and leaves exactly the bytes that follow; where extensions were left out nothing may follow |
| `AbiPositions.WholeIsReadBack` | libraries/chain/abi_serializer.cpp:282-496 | a value packed without leaving out an extension, where that is allowed, is read back whatever bytes follow |
| `AbiRoundTrip.RoundTripIff` | libraries/chain/abi_serializer.cpp:282-496 | a packed value is read back in normal form exactly when that form is one reading can produce |
| `AbiRoundTrip.PackedMayBeUnreadable` | libraries/chain/abi_serializer.cpp:282-496 | a struct without fields is packed and not read back |
| `AbiRoundTrip.NormalPacksTheSame` | unittests/abi_tests.cpp:3629-3650 | a value that can be packed packs to the same bytes as its normal form |
| `AbiPositions.PositionsAgreeIff` | libraries/chain/abi_serializer.cpp:450-489 | naming the first fields and giving them by position have the same result, success or refusal, exactly unless the values end at an extension that may be left out, an ordinary field follows, and every value packs |
| `AbiPositions.PositionsSucceedIff` | libraries/chain/abi_serializer.cpp:477-489 | fields given by position are packed exactly when every value packs and the first field without a value, if any, is an extension that may be left out |
| `AbiPositions.MissingIsRefused` | unittests/abi_tests.cpp:3629-3650 | a struct that leaves an ordinary field without a value is refused by name, and by position where extensions come last |
| `AbiPositions.ListPacksAsObject` | unittests/abi_tests.cpp:3629-3650 | for a struct without a base whose extensions come last, a list and the object that names its first fields have the same result, success or refusal |
| `AbiPositions.PositionsMaySkipFields` | libraries/chain/abi_serializer.cpp:462-484 | with an extension before an ordinary field the empty list is packed and the empty object refused |
| `AbiPositions.AllowingExtensions` | libraries/chain/abi_serializer.cpp:448-484 | allowing extensions to be left out changes nothing where none is |
| `AbiRoundTrip.ByteRoundTrip` | unittests/abi_tests.cpp:38-63 | packing a value, reading it and packing the result gives the same bytes |
| `AbiRoundTrip.EncodeStructAgrees` | libraries/chain/abi_serializer.cpp:443-471 | packing a struct depends only on the fields of the struct and its bases |
| `Primitives.UnpackPackedOne` | libraries/chain/abi_serializer.cpp:25-51 | a packed built-in value is unpacked again, whatever follows |
| `Primitives.UnpackPackedMany` | libraries/chain/abi_serializer.cpp:35-49 | likewise a list of them |
| `AbiSerializer.ResolveType` | libraries/chain/abi_serializer.cpp:270-280 | the loop follows definitions to their end |
| `AbiSerializer.ReadValue` | libraries/chain/abi_serializer.cpp:315-378 | reading from the moving stream has the effect of `Abi.Decode`; an optional value whose first byte is 0 is null and only that byte is read |
| `AbiSerializer.ReadItems` | libraries/chain/abi_serializer.cpp:335-351 | the loop over the elements of an array |
| `AbiSerializer.ReadStruct` | libraries/chain/abi_serializer.cpp:282-313 | the fields of base and struct are added to the object |
| `AbiSerializer.ReadFields` | libraries/chain/abi_serializer.cpp:293-312 | the loop over fields, with extensions skipped at the end |
| `AbiSerializer.WriteValue` | libraries/chain/abi_serializer.cpp:399-496 | appending to the stream has the effect of `Abi.Encode` |
| `AbiSerializer.WriteItems` | libraries/chain/abi_serializer.cpp:410-423 | the loop over the elements of an array |
| `AbiSerializer.WriteStruct` | libraries/chain/abi_serializer.cpp:439-492 | base first, then the fields by name or by position |
| `AbiSerializer.WriteFields` | libraries/chain/abi_serializer.cpp:450-471 | the loop over named fields, refusing a field after one was left out |
| `AbiSerializer.WritePositional` | libraries/chain/abi_serializer.cpp:472-489 | the loop over fields by position |
| `AbiSerializer.FindType` | libraries/chain/abi_serializer.cpp:431-436 | the first matching type of a variant |
| `Permissions.StepKeeps` | libraries/chain/eosio_contract.cpp:203-363 | every action keeps the trees, and no permission changes its parent |
| `Permissions.RunKeeps` | libraries/chain/eosio_contract.cpp:203-363 | so does every run, compared with any earlier point of it |
| `Permissions.NewAccountKeeps` | libraries/chain/eosio_contract.cpp:70-115 | a new account gets `owner` at the root and `active` below it |
| `Permissions.UpdateAuthKeeps` | libraries/chain/eosio_contract.cpp:203-265 | creating and updating permissions keeps the trees |
| `Permissions.DeleteAuthKeeps` | libraries/chain/eosio_contract.cpp:267-296 | so does deleting one without children and links |
| `Permissions.Satisfies` | libraries/chain/include/eosio/chain/permission_object.hpp:51-74 | walking up ends and finds a permission exactly when it is the other one or above it |
| `Permissions.OwnerIsAbove` | libraries/chain/include/eosio/chain/permission_object.hpp:41-50 | every permission is below the `owner` of its account |
| `Permissions.AboveIsOwn` | libraries/chain/include/eosio/chain/permission_object.hpp:51-74 | permissions above another belong to the same account |
| `Permissions.StepKeepsTargetsIff` | libraries/chain/eosio_contract.cpp:298-344 | links keep their targets, and a new one has a target exactly when its account has the permission |
| `Permissions.RunHasTargetsIff` | libraries/chain/eosio_contract.cpp:298-344 | along a run all links have targets exactly when every `linkauth` named a permission of its own account |
| `Permissions.LinkMayDangle` | libraries/chain/eosio_contract.cpp:314-318 | a run of four actions from the first account on, after which a link has no target |
| `Permissions.LinkDangles` | libraries/chain/eosio_contract.cpp:314-318 | in every reachable state a name only another account has is accepted |
| `PermissionEffects.StepInView` | libraries/chain/eosio_contract.cpp:70-363 | seen as names with the names of their parents, links and accounts, an action succeeds exactly when stated conditions hold of them, and changes just what it names |
| `PermissionEffects.RunIsAsked` | libraries/chain/eosio_contract.cpp:70-363 | after every run a permission has the parent that the action which created it named, and a link the target last asked for |
| `PermissionEffects.NewIsBelow` | libraries/chain/eosio_contract.cpp:203-265 | above a new permission are exactly itself and what was above the parent named |
| `Permissions.Manager.CreatePermission` | libraries/chain/authorization_manager.cpp:136-161 | a new row with a new id in both indexes |
| `Permissions.Manager.AddAccount` | libraries/chain/eosio_contract.cpp:70-115 | the effect of `Permissions.NewAccount` |
| `Permissions.Manager.Update` | libraries/chain/eosio_contract.cpp:203-265 | the effect of `Permissions.UpdateAuth`; the permission is directly below the parent named |
| `Permissions.Manager.Delete` | libraries/chain/eosio_contract.cpp:267-296 | the effect of `Permissions.DeleteAuth` |
| `Permissions.Manager.Link` | libraries/chain/eosio_contract.cpp:298-344 | the effect of `Permissions.LinkAuth` |
| `Permissions.Manager.Unlink` | libraries/chain/eosio_contract.cpp:346-363 | the effect of `Permissions.UnlinkAuth` |
| `MessageBuffer.Buffer.BytesToWrite` | unittests/message_buffer_tests.cpp:56-139 | read offset, bytes to read and bytes to write add up to the total |
| `MessageBuffer.Buffer.AddBlock` | unittests/message_buffer_tests.cpp:59-64 | one block more room, same contents |
| `MessageBuffer.Buffer.AddSpace` | unittests/message_buffer_tests.cpp:157-161 | whole blocks are added, with more room than asked for by at most one block |
| `MessageBuffer.Buffer.AdvanceWrite` | unittests/message_buffer_tests.cpp:214-243 | the queue grows by the bytes passed over, and the chain grows just so far that the new position lies in it |
| `MessageBuffer.Buffer.Append` | unittests/message_buffer_tests.cpp:163-174 | bytes written block by block are appended to the queue |
| `MessageBuffer.Buffer.Peek` | unittests/message_buffer_tests.cpp:185-191 | the bytes at a position, or nothing when there are too few |
| `MessageBuffer.Buffer.AdvanceRead` | unittests/message_buffer_tests.cpp:100-136 | the queue loses its first bytes, exactly the passed blocks are given up, and an emptied buffer has one block and starts at its beginning |
| `MessageBuffer.Buffer.Read` | unittests/message_buffer_tests.cpp:257-319 | the first bytes of the queue are taken out, and a read beyond the end changes nothing |
| `PermissionVisitor.Visitor.PopUndo` | unittests/misc_tests.cpp:252-259 | the list is exactly as it was when the session began |
| `PermissionVisitor.Visitor.SquashUndo` | unittests/misc_tests.cpp:261-266 | the list is as if the session had not been opened |
| `PermissionVisitor.Visitor.PushUndo` | unittests/misc_tests.cpp:246-250 | the current list is remembered |
| `PermissionVisitor.Visitor.Visit` | unittests/misc_tests.cpp:240-242 | the permission is added and no session changes |
| `Forks.Build` | unittests/forked_tests.cpp:77-115 | fork j shares its first j blocks with the honest chain, is linked, and signs each own block over all ids before it |
| `Forks.Extend` | unittests/forked_tests.cpp:87-112 | one honest block is copied, corrupted or linked as the position asks for |
| `Forks.ForkDiffers` | unittests/forked_tests.cpp:77-115 | without colliding digests every block from position j on differs |

## Left out

- VotingRuns.RunKeepsSound: speaks of runs without suppressed changes; with suppressed ones the totals drift, as `Voting.PropagateIsExactIff` shows.
- Voting.PropagateKeepsTallies: speaks of changes that are passed on; `Voting.PropagateIsExactIff` has both directions.
- Voting.UpdateVotesKeepsSound: speaks of votes in which no change is suppressed, for the same reason.
- Voting.RegProxyKeepsSound: likewise.
- Voting.ChangeStakeKeepsSound: likewise.
- SystemContract.Contract.PropagateWeightChange: asks for the form of the tables that every run has; on a cycle of proxies, which no run produces, the source would not end.
- Dpos.NextKeepsInv: speaks of headers that do not confirm a block twice, `Dpos.ConfirmsTwiceIff`, and of schedules that need at most 255 confirmations; outside, `DposChains.WrappedRangeMayPropose` shows that the counts are wrong.
- Dpos.RunKeepsInv: likewise for every header of a chain; `Dpos.RunIsShaped` and `Dpos.ProposedRises` hold of every accepted chain.
- Dpos.IrreversibleBlocksAreConfirmed: likewise.
- DposSafety.AtMostOneBranchAdvances: where a schedule is pending at the fork it speaks of branches whose headers do not confirm a block twice, as `Dpos.NextKeepsInv` does.
- VotingDrift.OneChangeDriftsByOne: speaks of one change of weight; a bound on the drift over a run is not proved.
- Authority.SatisfiedIffHolds: for permissions that are shared and exceed the depth limit, or depend on themselves, only soundness is proved, since the answer then depends on the order of visits, as `AuthorityCases.DepthMayHurt` and `AuthorityCases.CyclesMayHideSuccess` show.
- AuthorityTree.UsedKeysSuffice: proved where no permission is reached twice; one direction only, since reaching one twice is often harmless.
- AuthorityTree.MoreStillSatisfies: likewise.
- DposAccept.AcceptedIff: speaks of chains of fewer than 2^32 blocks, beyond which block numbers would not fit.
- AbiRoundTrip.RoundTripIff: speaks of descriptions that are `AbiRoundTrip.WellFormed`; loading one does not check all of it.
- AbiRoundTrip.NormalPacksTheSame: speaks of values that can be packed; what is refused is compared in `AbiPositions`.
- Floating point rounding of votes, 64-bit limits of token amounts, and 32-bit limits of block numbers.
- Memory (RAM) market, producer pay, name auctions, the vesting schedule of the account b1, the time at which stake is activated, and deferred transactions that trigger refunds.
- Declared authorizations of actions (`require_auth`, `check_*_authorization`), the contents of authorities in the permission tables, usage times and billing of memory.
- Block ids, signatures, Merkle roots and keys in header states; adding a block state that was produced locally; loading and saving the fork database; marking blocks as invalid.
- ABI: loading and validating descriptions, actions and tables, error texts, deadlines, conversions between kinds of JSON values, built-in types other than unsigned integers, bool, name and string, and raw bytes for unknown types.
- Controller, transaction execution, WebAssembly, networking protocol, plugins and wallets.
