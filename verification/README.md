# MLRC verification

A Dafny model of the hard parts of MLRC, a store for stripes of locally repairable
codes (k data blocks in l groups, one local parity per group, g global parities):

- the simulation of staged stripe merging with the Optimal and the Aggregated
  placement, and the closed forms it is compared with (`simulation/`);
- appends striped over a stripe and whole-stripe writes, computed by the coordinator
  and again by the client (`project/src/coordinator.cpp`, `project/src/client.cpp`);
- the coordinator's listen-port allocator, its cluster allocator for merge groups, the
  rotated gLRC placement and the commit protocol;
- Reed-Solomon group counts, the HMBR shard split and the shared bandwidth timeline.

Where the source changes lists and tables step by step, the model is a class or a method
with loops; each such method is proved against a function or predicate on values, and
the theorems are about those. Python sets are visited in an arbitrary order. Integers are
unbounded, doubles and clock readings are reals or integers. Everything is checked by

    dafny verify dfyconfig.toml

## How it is built

| part | modules |
|---|---|
| merging: values and invariant | Blocks, Clusters, MergeState, MergeView, Sums, Arith |
| merging: steps | MergeRename, MergeSteps, MergeFit, FirstFit, MergeBatch, MergeMid, MergeMove, MergeSettle, MergeSweep, MergeCost, MergeStage |
| merging: objects and runs | Stripes, Placement, Merging, MergingRun, Stages, Simulation |
| initial placements | InitialView, OptimalPlacement, AggregatedView, AggregatedPlacement |
| what runs keep | Recovery, RunProperties, CostFormula |
| appends | AppendStriping, AppendPlan, AppendClusters, AppendRun |
| whole stripes | SetLayout, SetCodes, SetStripe, RsCounts, GlrcPlacement |
| coordinator | PortBands, PortTrace, PortAllocator, PortSession, ClusterAlloc, ClusterGroups, CommitTables, CommitProtocol |
| arithmetic | HmbrSplit, BandwidthLimiter |

The invariant of merging (`MergeState.ViewOk`) gives every cluster a role: a source that
holds the same number of data blocks of one group of every stripe (a tail, with local
parities, or an aggregated cluster), the cluster of the global parities, or a free
cluster with blocks of one stripe and group. `MergeView.OnePartial` adds that at most one
free cluster of a stripe and group has room; first-fit relocation keeps it, which is what
makes the costs computable.

## Findings

- The closed-form costs are not always those of the simulation. Over a whole run they
  agree exactly if m == 0 or the first factor is g / m (`CostFormula.RunAgrees`); with
  m == g and a first factor above 1 the relocation cost of stage one differs
  (`CostFormula.FormulaMisses`). `CostFormula.StageAgrees` says, stage by stage, which of
  the three costs agree.
- A set fails exactly on two families of shapes (`SetStripe.SetStripe`). For OptimalLRC the
  client expects one subgroup more than the coordinator makes when r + 1 divides k / z, and
  gives up on the buffer (`SetStripe.MiscountedShape`). And when z does not divide k, or r
  for UniLRC, the client does not count the blocks left over, which the coordinator puts in
  groups of their own or with the global parities (`SetStripe.UnevenShape`).
- The size a cluster is told for an append is the size of its plan exactly if z divides r
  (`AppendClusters.SizesAgreeIff`, `AppendClusters.SizesMiss`).
- A late report of an older write can commit a newer one. A check answers for the latest
  write exactly unless every commit report since that write began is for an older one
  (`CommitProtocol.CheckExact`, `CommitProtocol.LateReportCommits`). Some run goes on to
  such a wrong answer exactly if an older plan of the key is still owed a report when the
  write begins (`CommitProtocol.BeginDecides`).
- Two proxy ports in one cell of the grid of step two share a band of listen ports, and so
  does the port just below the grid with the ports of the first cell
  (`PortBands.BandsOverlap`).
- A recovery fails only when a call finds every port of the half it asks for held, cooling
  or not bindable. It then releases the chains it finished, but the ports of the chain that
  failed stay reserved (`PortSession.Recover`).
- The Reed-Solomon counts hold k data blocks exactly if k fills the small and shared groups
  of the branch taken and the mixed branch is not taken with r == 2
  (`RsCounts.ChosenExact`). With k = 6 and r = 5 either branch misses k, and with k = 3 and
  r = 2 the mixed branch counts -1 blocks in its first group (`RsCounts.CountsMiss`).
- With g == 0 the Aggregated placement keeps an empty last cluster, whose missing first
  block the first move of a merge then looks at (`AggregatedPlacement.EmptyLast`).
- Groups of a set share a cluster exactly if there are fewer clusters than groups
  (`SetStripe.ApartIff`).

## Model

| member | source | states |
|---|---|---|
| Clusters.Cluster.AddNewBlock | simulation/utils.py:49-57 | The block is appended, the type follows the priority L, G, D, and both counters still equal the list |
| Clusters.Cluster.RemoveBlock | simulation/utils.py:59-72 | Exactly the blocks of that stripe and kind go, order and counters kept; the result is the set of their groups |
| Clusters.Cluster.MergeStripe | simulation/utils.py:14-17 | In-place retagging equals mapping the retag over the list |
| Stripes.Generate | simulation/utils.py:158-179 | Group i lists its b data ids in order and then its local parity; the last list the global parities |
| Stripes.MergeInfos | simulation/optimal.py:93-110 | The merged stripe's ids are the ones a stripe of p xi original stripes would have |
| OptimalPlacement.Generated | simulation/utils.py:201-206 | x stripes, numbered in order, each with its ids and no cluster yet |
| OptimalPlacement.PlaceGroup | simulation/optimal.py:13-26 | The whole chunks of a group go to clusters of their own and the rest comes back |
| OptimalPlacement.PlaceTails | simulation/optimal.py:48-60 | One cluster per group with the leftovers of all stripes, stripe by stripe |
| OptimalPlacement.PlaceLocals | simulation/optimal.py:35-47 | When only parities are left, one cluster holds all local parities, groups outermost |
| OptimalPlacement.PlaceParities | simulation/optimal.py:61-76 | The global parities join the local ones or get a cluster of their own, which is recorded |
| OptimalPlacement.PlaceOptimal | simulation/optimal.py:7-76 | The clusters are exactly those of a closed description, which satisfies the merging invariant |
| AggregatedPlacement.PlaceAggStripes | simulation/aggregated.py:14-35 | Chunk t of group i of all stripes ends in one cluster, in stripe order |
| AggregatedPlacement.PlaceAggregated | simulation/aggregated.py:7-81 | The same for the Aggregated placement, with its aggregated clusters counted; with g == 0 one block of every stripe to a cluster and an empty last cluster |
| AggregatedPlacement.EmptyLast | simulation/aggregated.py:66-81 | With g == 0 every stripe spans a data cluster with room and no first block, and a cluster over its bound when x > 1 |
| Placement.DataPlacement.Rename | simulation/optimal.py:133-138 | Listed clusters are retagged from the batch's stripes to the new one, others untouched |
| Placement.DataPlacement.LocalCost | simulation/optimal.py:121-131 | Counts, per group, the clusters other than the global one that hold its local parities |
| Placement.DataPlacement.FetchCost | simulation/optimal.py:140-148 | Sums min(m, g) over the listed clusters, m per stripe where a cluster is shared |
| Placement.DataPlacement.RecalculateGlobals | simulation/optimal.py:150-158 | Old global parities of the stripe leave, g new ones in order come, nothing else changes |
| Placement.DataPlacement.RefreshLocals | simulation/optimal.py:164-173 | Afterwards the cluster owes no local parities and the batch invariant holds |
| Placement.DataPlacement.FindSlot | simulation/optimal.py:187-226 | The first cluster of the batch with room, else an added one with room, else a new one |
| Placement.DataPlacement.Move | simulation/optimal.py:193-227 | One block leaves one list and joins another with its cluster renamed; counters follow |
| Placement.DataPlacement.Relocate | simulation/optimal.py:174-228 | Moves exactly the blocks due, never runs out of them, and keeps the batch invariant |
| FirstFit.FitAfter | simulation/optimal.py:187-226 | A first-fit move keeps the bookkeeping: all partial clusters but the first hold r0 blocks, and the room shrinks by one |
| FirstFit.FitDone | simulation/optimal.py:187-226 | Once the room fits one cluster, at most one free cluster of the stripe and group is partial |
| Merging.ToMoveIsDue | simulation/aggregated.py:180-190 | The blocks charged to a cluster are its surplus over g (or g + 1) per remaining stripe |
| Merging.MergeOneBatch | simulation/optimal.py:112-230 | A batch keeps the invariant, charges the closed-form batch cost, and moves as many blocks as it charges |
| MergeCost.LcOfBatch | simulation/optimal.py:121-131 | The local recalculation cost is one per group with tails and none without |
| MergeCost.GcOfBatch | simulation/aggregated.py:144-152 | The summed fetches equal a closed form of the stage, for both placements |
| MergeSweep.DcOfBatch | simulation/aggregated.py:180-190 | The summed surpluses equal the closed form of the batch |
| MergingRun.MergeStripes | simulation/optimal.py:90-235 | All batches of a stage: at rest again, xi times larger stripes, live times the batch cost |
| Stages.RunStage | simulation/optimal.py:84-242 | One stage takes a placement at rest to the next one and costs the stage's closed form, blocks moved included |
| Stages.StageQuota | simulation/utils.py:257-263 | Accepted parameters leave every stage room for its surplus |
| Stages.AcceptedIff | simulation/utils.py:257-263 | Accepted if and only if the factors multiply to x and the rest of a group is 0, g, or becomes g in the first stage; and then, if there is a stage, exactly if every stage has room |
| Stages.StagedMerging.StripeMerging | simulation/optimal.py:81-247 | Accepts exactly the runs of which every stage has room, and refusing changes nothing; else one stripe is left, all cost lists are the closed forms, and every stage in between satisfied the invariant |
| RunProperties.ViewSafe | simulation/optimal.py:150-230 | A placement at rest is recoverable, has every data block once, all parities and no strays |
| RunProperties.DataConserved | simulation/utils.py:14-17 | Data block n sits at one place and names it, group (n mod k) / b, and stripe floor(j / p) of its original stripe j = n / k |
| RunProperties.ParitiesConserved | simulation/optimal.py:150-173 | Each stripe has g global parities, numbered in order in one cluster, and one local parity per group |
| RunProperties.LocalParityIs | simulation/optimal.py:164-173 | The one local parity of group i of stripe s is number s l + i, at its group's home |
| RunProperties.RunSafe | simulation/optimal.py:81-247 | All of that before the first and after every stage of every accepted run |
| Recovery.CheckInfoTheo | python_matrix/matrix.py:108-126 | Answers whether one repair by each local parity leaves at most g blocks lost: lost blocks number at most g plus the groups touched |
| Recovery.HealsIff | python_matrix/matrix.py:108-126 | That count holds if and only if some choice of at most one lost block per group leaves at most g |
| Recovery.LosingOneCluster | python_matrix/matrix.py:108-126 | Losing any one cluster of a placement at rest leaves every stripe within that bound |
| CostFormula.CalCost | simulation/formula_validation.py:26-62 | The loops accumulate the closed forms, for Optimal and for Aggregated |
| CostFormula.StageAgrees | simulation/formula_validation.py:34-61 | Which of LC, DC and GC equal the simulated ones in stage n: each an if and only if |
| CostFormula.RunAgrees | simulation/formula_validation.py:108-145 | All stages agree if and only if m == 0 or the first factor is g / m |
| CostFormula.FormulaMisses | simulation/formula_validation.py:41-44 | One group of two, g = 2, two stripes: the relocation costs differ |
| Simulation.Simulate | simulation/optimal.py:7-247 | Placing and merging end to end: accepted if and only if every stage has room for its surplus, safe after every stage, costs as simulated, equal to the formulas exactly if the first stage fills the tails |
| AppendStriping.NextByte | project/src/coordinator.cpp:839-869 | Byte 0 is the first of block 0; the next byte follows within a unit, then comes the next block, after the last block the next row |
| AppendStriping.ByteThere | project/src/coordinator.cpp:839-869 | Block and offset of a logical byte lead back to it |
| AppendStriping.ByteBack | project/src/coordinator.cpp:839-869 | Each place in a block is the place of one logical byte |
| AppendStriping.ByteInside | project/src/coordinator.cpp:839-869 | Blocks of n units hold exactly the first n k units of the stripe |
| AppendStriping.SliceThere | project/src/coordinator.cpp:839-869 | Every appended byte lies in its block's slice |
| AppendStriping.SliceBack | project/src/coordinator.cpp:839-869 | Every place of a slice is an appended byte |
| AppendStriping.FillCounts | project/src/coordinator.cpp:839-869 | A slice is as long as the number of appended bytes mapped to its block |
| AppendPlan.PlanSlices | project/src/coordinator.cpp:839-869 | The coordinator's loop gives each block exactly its slice |
| AppendPlan.ClientSlices | project/src/client.cpp:167-194 | The client's loop gives the same slice sizes |
| AppendPlan.CoordinatorWindow | project/src/coordinator.cpp:803-832 | The parity window of the append |
| AppendPlan.ClientWindow | project/src/client.cpp:146-165 | The same window, computed by the client |
| AppendPlan.WindowEnds | project/src/coordinator.cpp:803-832 | The window is whole rows, except the append's own bytes within one unit, and an end at the last byte when the last row is a piece of its first unit |
| AppendPlan.WindowCovers | project/src/coordinator.cpp:811-832 | The window covers the offset of every appended byte |
| AppendPlan.WindowInside | project/src/coordinator.cpp:811-832 | The window of a non-empty append stays inside the block |
| AppendPlan.EmptyInside | project/src/coordinator.cpp:811-832 | So does the window of an empty append |
| AppendClusters.ClusterAppendSize | project/src/coordinator.cpp:764-776 | The announced size: the cluster's data slices and an even share of the parities, rounded down |
| AppendClusters.PlanCluster | project/src/coordinator.cpp:897-925 | The cluster's entries, ascending: for every block of the cluster's even share its slice with size and offset, or the parity window, and nothing else |
| AppendClusters.GenerateAppendPlan | project/src/coordinator.cpp:792-931 | z plans with those entries and sizes, and the two flags of full and completing appends. Every appended byte is in exactly one entry at its block and offset, data entries hold appended bytes only, every parity is in exactly one entry with the whole window |
| AppendClusters.AppendSlicePlans | project/src/client.cpp:140-228 | The client's split sizes are the plan's sizes in the same order |
| AppendClusters.SizesAgreeIff | project/src/coordinator.cpp:764-776 | Announced and planned sizes agree in every cluster if and only if z divides r |
| AppendClusters.SizesMiss | project/src/coordinator.cpp:764-776 | With k = 2, r = 3 and z = 2 an append of one byte is told a wrong size |
| AppendClusters.TotalSize | project/src/coordinator.cpp:1029-1040 | When z divides r, all clusters together take the append and r + z parity windows |
| AppendRun.Appender.UploadAppend | project/src/coordinator.cpp:978-1057 | Too large exactly if it does not fit, unavailable exactly if it fits and a proxy was not scheduled; else plans at the client's stripe and offset that write exactly the append, logs it and moves the client on |
| AppendRun.Appender.Advance | project/src/coordinator.cpp:1048-1057 | The client's offset moves on, and a full stripe is followed by a new one |
| AppendRun.SlicesTile | project/src/coordinator.cpp:978-1057 | Over any run, the slices written to a block are disjoint and fill exactly its first bytes |
| AppendRun.FullStripeTiles | project/src/coordinator.cpp:1050-1056 | When a stripe is full they tile the whole block |
| PortBands.SlotRange | project/src/coordinator.cpp:100-124 | Every slot is a port in [20000, 31999]; the range guards never fire |
| PortBands.HalfIs | project/src/coordinator.cpp:100-117 | The hop and the hub half of a band in port numbers |
| PortBands.SlotsDisjoint | project/src/coordinator.cpp:105-113 | Bands of different indices and hop and hub halves are disjoint |
| PortBands.AlignedIndex | project/src/coordinator.cpp:79-89 | Ports on the grid get their own index |
| PortBands.BandsOverlap | project/src/coordinator.cpp:79-89 | Two proxies can be given one port if and only if their ports share a cell of the grid, or the lower is just below it and the other in its first cell |
| PortTrace.ReleasedBetween | project/src/coordinator.cpp:174-209 | Two issues of a port have the first holder's release between them, a cooldown before the second, and never happen on a dedicated host |
| PortTrace.HeldUntilFreed | project/src/coordinator.cpp:174-209 | A session holds its port until it releases it, whatever the others do |
| PortAllocator.PortTable.Available | project/src/coordinator.cpp:118-131 | Skips exactly the reserved, cooling, unbindable and already used ports |
| PortAllocator.PortTable.FreeOne | project/src/coordinator.cpp:183-202 | Releases one reservation into cooldown, or keeps it on a dedicated host; the history stays legal |
| PortAllocator.Allocator.Allocate | project/src/coordinator.cpp:91-138 | Issues the first free port of the right half from the epoch's, chain's, hop's and cursor's slot on, moves the cursor past it and keeps the history legal; fails if and only if every slot of the half is blocked |
| PortAllocator.StarvedIff | project/src/coordinator.cpp:91-138 | Every slot is blocked if and only if by the history each is held, issued before on a dedicated host, released less than 30 s ago, or not bindable |
| PortAllocator.FreshServes | project/src/coordinator.cpp:91-138 | Before anything was issued that is only so off the grid or when nothing in the half is bindable |
| PortSession.AllocateChain | project/src/coordinator.cpp:3931-3956 | Ports of the hop halves for the hops and of the hub half for the sink; fails only at a hop or sink whose half has nothing to give at that call |
| PortSession.AllocateChains | project/src/coordinator.cpp:3931-3966 | With others acting in between, the session holds distinct ports of the right halves for every hop and sink of the chains it finished. It fails only where the next call found nothing, and then holds only the earlier hops' ports of that chain besides |
| PortSession.CheckDuplicates | project/src/coordinator.cpp:3967-4013 | Accepts exactly assignments of positive, distinct ports |
| PortSession.SessionClean | project/src/coordinator.cpp:3967-4013 | A finished allocation always passes it |
| PortSession.ReleasePorts | project/src/coordinator.cpp:174-209 | Removes exactly the session's reservations and starts their cooldown; other holders keep theirs |
| PortSession.Recover | project/src/coordinator.cpp:3931-4013 | A whole recovery: allocate, check, release. All ports of finished chains are released, after a failed allocation too; exactly the leftovers of the failed chain stay held. It fails only if, at some point of the history, every slot a call asked for was held, cooling or not bindable |
| ClusterAlloc.RequiredIs | project/src/coordinator.cpp:5827-5832 | The cluster count is one per chunk and one for the globals; Optimal draws one per whole chunk |
| ClusterAlloc.ChooseDispersed | project/src/coordinator.cpp:5852-5926 | Distinct clusters out of the free list, never drawing from an empty one; the list loses exactly those |
| ClusterAlloc.ChooseAggregated | project/src/coordinator.cpp:5955-6018 | Exactly the window's clusters, the chunks in order, the parities after the first group or last |
| ClusterAlloc.ChooseOptimal | project/src/coordinator.cpp:6060-6128 | The whole window for tails and globals, whole chunks from the free list outside it |
| ClusterGroups.PlaceBlocks | project/src/coordinator.cpp:5852-5937 | Every block lands in the cluster chosen for it |
| ClusterGroups.ParitiesAt | project/src/coordinator.cpp:5852-5937 | Global parities share one cluster; a local parity lies with its group's last data block if chunks leave a rest, else with the global ones |
| ClusterGroups.SameCluster | project/src/coordinator.cpp:5852-5937 | Two data blocks share a cluster if and only if they are of one chunk; none shares it with the globals |
| ClusterGroups.SameChunk | project/src/coordinator.cpp:5854-5868 | Blocks of one chunk are of one group and at most g apart |
| ClusterGroups.SameChunkIff | project/src/coordinator.cpp:5854-5868 | Blocks are of one chunk if and only if they are of one group and of one run of g + 1 counted from its start |
| ClusterGroups.AllSpanned | project/src/coordinator.cpp:5852-5937 | The blocks lie in exactly the clusters chosen: none outside, none unused |
| ClusterGroups.GroupPlacer.Place | project/src/coordinator.cpp:5827-6139 | Over every sequence of placements, blocks span exactly the clusters recorded for their stripe: dispersed stripes of a merge group are disjoint, aggregated ones equal, optimal ones meet only in the window. A group has at most x stripes and is followed by another exactly when it has x or, unless aggregated, too few clusters are left |
| GlrcPlacement.BuildPlacementGroups | project/src/glrc_repair_ilp.cpp:15-27 | Group g lists its payload range and its local parity |
| GlrcPlacement.GroupsEven | project/src/glrc_repair_ilp.cpp:15-27 | Later groups have as many payload blocks or one more |
| GlrcPlacement.GroupsAgree | project/src/unilrc_encoder.cpp:1025-1042 | The group of a payload block is the one whose range it falls in |
| GlrcPlacement.RingWhole | project/src/coordinator.cpp:568-579 | The ring lists every block once |
| GlrcPlacement.PlaceStripe | project/src/coordinator.cpp:580-605 | Ring position j of stripe s goes to node (j + s) mod n |
| GlrcPlacement.StripeZero | project/src/coordinator.cpp:585-599 | Stripe 0 lays the ring over the nodes in order |
| GlrcPlacement.MovesOn | project/src/coordinator.cpp:585-599 | The next stripe has every block one node on |
| GlrcPlacement.OneEach | project/src/coordinator.cpp:585-599 | Every node holds exactly one block of a stripe |
| GlrcPlacement.VisitsAll | project/src/coordinator.cpp:586-590 | Over n consecutive stripes a ring position visits every node exactly once |
| GlrcPlacement.BlocksOnNodes | project/src/coordinator.cpp:5177-5207 | Lists exactly the blocks on the wanted nodes, ascending |
| GlrcPlacement.OnePerNode | project/src/coordinator.cpp:5177-5207 | f nodes give f blocks of every stripe |
| CommitTables.CoordinatorTables.ReportCommitAbort | project/src/coordinator.cpp:5343-5361 | A commit moves whatever is pending for the key, an abort drops it |
| CommitTables.CoordinatorTables.CheckCommitAbort | project/src/coordinator.cpp:5497-5532 | Waits while the key is pending, else answers from the commit table |
| CommitProtocol.AnswerIs | project/src/coordinator.cpp:5343-5361 | For any steps at all, the answer is "committed" if and only if a commit report came since the last write began |
| CommitProtocol.CheckExact | project/src/coordinator.cpp:5497-5532 | In every interleaving a check answers for the latest write if and only if not all commit reports since it began are for older ones |
| CommitProtocol.BeginDecides | project/src/coordinator.cpp:933-966 | Once a write begins, some continuation answers wrongly for it if and only if an older plan of its key is still owed a report |
| CommitProtocol.WriterExact | project/src/coordinator.cpp:5497-5532 | In every interleaving a writer's check returns after its own report or drop, under the same exact exception |
| CommitProtocol.CheckAnswers | project/src/coordinator.cpp:933-966 | If no failed attempt of the key reached its proxy, the exception cannot happen |
| CommitProtocol.WriterWaits | project/src/coordinator.cpp:933-966 | Nor can the writer's: it returns with its write reported or dropped and nothing owed |
| CommitProtocol.LateReportCommits | project/src/coordinator.cpp:5343-5361 | A run of eleven steps in which an older write's report commits an unreported one |
| SetCodes.MapsToGroup | project/src/coordinator.cpp:689-755 | The group formulas of UniLRC, AzureLRC and OptimalLRC put every block of the equal shares where the cuts say, and blocks left over beyond the last group with a local parity |
| SetCodes.DataCounts | project/src/client.cpp:397-470 | For every shape, the client's data counts are those of its layout of equal shares |
| SetCodes.GlobalCounts | project/src/client.cpp:504-558 | Likewise the global parities |
| SetCodes.LocalCounts | project/src/client.cpp:592-658 | Likewise the local parities |
| SetLayout.SplitBuffer | project/src/toolbox.cpp:13-29 | Cuts a buffer into equal pieces, or fails if they do not use it up exactly |
| SetLayout.SplitForSet | project/src/client.cpp:732-742 | Succeeds if and only if there are counts for every buffer and they fill it, and then the pointers cover all groups |
| SetLayout.RegionsAgree | project/src/client.cpp:732-742 | The p-th block of group g points to the p-th piece of group g's buffer |
| SetStripe.AssignGroups | project/src/coordinator.cpp:446-509 | Each group's list is its blocks in ascending order, for every shape |
| SetStripe.GroupsCounted | project/src/coordinator.cpp:508-508 | The groups are numbered from nought without a gap, for every shape |
| SetStripe.GenerateAddPlans | project/src/coordinator.cpp:1060-1086 | One plan per group that has a block: its blocks in order, their bytes, its cluster. The first cluster is the stripe's number modulo the clusters, each next one follows |
| SetStripe.GroupVisits | project/src/coordinator.cpp:700-743 | Over as many consecutive stripes as clusters a group visits every cluster exactly once |
| SetStripe.ApartIff | project/src/coordinator.cpp:689-755 | Groups have clusters of their own if and only if there are enough clusters |
| SetStripe.SizesAgreeOnly | project/src/client.cpp:397-470 | The client's counts fill the coordinator's buffers if and only if the shares are equal and the shape is not the miscounted one |
| SetStripe.SetStripe | project/src/client.cpp:732-742 | End to end: every block is in one plan, the plans go to the clusters in turn, the cut fails exactly on unequal shares and the miscounted shape, and otherwise each block's region is the one its plan sends |
| SetStripe.MiscountedShape | project/src/client.cpp:409-425 | k = 4, r = 1, z = 2: the coordinator makes three groups, the client expects five |
| SetStripe.UnevenShape | project/src/coordinator.cpp:713-731 | k = 5, r = 2, z = 2: AzureLRC's fifth data block shares a group with the global parities, where the client expects no data |
| RsCounts.GetN | project/src/config.cpp:253-268 | The last doubling whose groups fit the clusters; smaller ones fit too, larger ones do not |
| RsCounts.LastFitIs | project/src/config.cpp:253-268 | Fitting means 2^n k + r blocks, r to a cluster |
| RsCounts.OneOrTwo | project/src/config.cpp:269-279 | Every entry of num_arry is 1 or 2, and when the first is 1 |
| RsCounts.BlockNumPerGroup | project/src/client.cpp:680-730 | The counts of the branch taken; small groups come first in even stripes and last in odd ones, and always first with one list |
| RsCounts.ListsAlternate | project/src/client.cpp:690-691 | A stripe's list is odd exactly if the stripe is even or there is only one list |
| RsCounts.PlainExact | project/src/client.cpp:693-712 | Plain counts: k data blocks if and only if k fills the small groups |
| RsCounts.MixedExact | project/src/client.cpp:713-729 | Mixed counts: k data blocks if and only if r >= 3 and k fills the shared and small groups |
| RsCounts.MixedTwo | project/src/client.cpp:713-729 | With r == 2 the mixed counts start with -1, hold k + 1 data blocks and one group too many |
| RsCounts.ChosenExact | project/src/client.cpp:680-730 | Whichever branch num_arry picks, for every r: that if and only if and always r parities; at most r blocks a group and ceil((k + r) / r) groups unless it is the mixed one with r == 2 |
| RsCounts.CountsMiss | project/src/client.cpp:680-730 | k = 6 and r = 5: neither branch counts k; k = 3 and r = 2: the mixed branch is taken and counts -1 |
| HmbrSplit.BuildShardSplit | project/src/glrc_hmbr.cpp:10-95 | Accepts exactly the stated inputs; both lanes are non-empty and tile the block; their times are their bytes times the transfers, and the automatic count is the nearest to where they are equal |
| HmbrSplit.PrintedBack | project/src/glrc_hmbr.cpp:51-75 | A configured number is read as printed, white space before it or not, if it fits 32 bits |
| HmbrSplit.RoundedClose | project/src/glrc_hmbr.cpp:49-81 | The rounded, clamped count is within one shard of the continuous balance, and within half a shard unless clamped |
| HmbrSplit.BestIsBest | project/src/glrc_hmbr.cpp:44-49 | No split beats the balance |
| HmbrSplit.NearBest | project/src/glrc_hmbr.cpp:43-81 | Each lane exceeds the continuous optimum by at most one shard |
| HmbrSplit.CountMono | project/src/glrc_hmbr.cpp:43-81 | More helpers never mean fewer pipelined shards |
| BandwidthLimiter.SharedLimiter.Reserve | project/include/link_bandwidth.h:60-71 | The slot starts at the later of now and the timeline, which snaps back if 30 s ahead; slots stay disjoint and ordered |
| BandwidthLimiter.SharedLimiter.WaitForTransfer | project/include/link_bandwidth.h:56-75 | Returns at the start of its slot, or at once if that has passed |
| BandwidthLimiter.SharedLimiter.AccountAfterIo | project/include/link_bandwidth.h:82-104 | Returns when its slot ends, less the credit, or at once; earlier slots stay on record unless the timeline snaps back; an idle timeline costs max(io time, ideal); without a limit or bytes nothing changes |
| BandwidthLimiter.WindowBound | project/include/link_bandwidth.h:56-104 | Bytes of slots starting in a window are at most bandwidth times window plus one transfer |

## Left out

- Simulation.Simulate: for the Aggregated placement it asks for g >= 1. With g == 0 the
  first move of a merge takes the first block of an empty list and the run ends there
  (`AggregatedPlacement.EmptyLast`); runs with only stages of factor 1 are not covered.
- SetStripe.SetStripe: asks that z is at most k, and at most r for UniLRC with r > 0; on
  other shapes the group formulas divide by nought.
- ClusterGroups.GroupPlacer.Place: the nodes inside a cluster and the random choice of one
  are not modelled; the aggregated window needs one cluster more than it uses, because an
  empty random range has no meaning in the source.
- AppendRun.Appender.UploadAppend: one client's step as a whole; the plans' network calls
  are one flag saying whether all were scheduled.
- CommitProtocol.CheckExact: safety only; the source does not wake waiters on an abort.
  Deletions are not modelled.
- BandwidthLimiter.SharedLimiter.Reserve: when the timeline snaps back the earlier slots
  leave the record, so the window bound is per stretch without a snap.
- Parameters with a group size k / l that is not whole: check_parameter refuses them before
  merging, and the model carries k as l times b.
- Block objects are values inside the cluster lists; no block is shared between lists.
- The reset of a port session; the socket probe behind "bindable" and the clock readings are
  parameters of every call.
- REP_MODE appends and unknown append modes.
- UniformLRC and gLRC in whole-stripe writes.
- Dispersed merging, the second Optimal formula and the random placement scripts: no
  closed statement to prove.
- Fixed-width overflow and floating-point rounding.
- Galois-field encoders, repair planners, matrix search, configuration parsing, logging,
  networking and deployment scripts.
