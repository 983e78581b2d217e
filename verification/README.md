# Verified model of the CI-failure decomposition pipeline

The repository asks a language model to decompose a failed CI run into repair problems, and
surrounds every answer with deterministic code that schedules, splits, packs, guards and caches.
This project models that code in Dafny and proves what it keeps whatever the model answers:
answers, capacity verdicts, prompt sizes, save failures and crashes are arbitrary inputs.

| file | what it models |
|---|---|
| `Kahn.dfy`, `OrderLaws.dfy` | the theory of priority scheduling on graphs that may be cyclic, and what it means for an edge list |
| `PriorityLoop.dfy`, `RepairSequence.dfy` | `dependency_order`, `_dependency_order`, and the pipeline that runs one after the other |
| `RepairOrder.dfy`, `MechanicalEdges.dfy` | the backward topological sort, the edges drawn without a model, the repair order |
| `NextFit.dfy`, `LosslessBatches.dfy`, `SizeSplit.dfy` | the packing rule used in three places, prompt batches, size-aware splitting and the classification recursion |
| `DependencyChunks.dfy`, `CapacitySplit.dfy`, `AtomicProblems.dfy` | caller/callee chunking, the ways to cut a chunk, and the FIFO work queue that cuts by capacity |
| `ValidationGroups.dfy` | from classification entries to validation groups with their changes |
| `Clusters.dfy` | similarity clusters |
| `Duplicates.dfy`, `GlobalDecision.dfy` | merging duplicates, and the guards around the global filtering decision |
| `CacheFile.dfy`, `DecompositionCache.dfy`, `CacheProtocol.dfy` | the cache file, the cache object, and the protocol between processes |
| `Consolidation.dfy`, `MemoryBudget.dfy` | consolidated problem events, and fitting memory matches into a prompt |
| `Basics.dfy`, `Sorting.dfy`, `Text.dfy` | shared definitions |

Loops of the source are Dafny methods with loops, the cache is a class, and the locking protocol
is a state machine over its steps. Large loop bodies are cut into helper methods so that every
proof stays small. A model call is a value of an arbitrary function from the number of the call
to its answer, so a statement about a method holds for every possible sequence of answers.

Choices made where the source needs reading with care:

- `_build_atomic_problems` reads `can_split`, a name that is never assigned (line 2369). The model
  reads it as `can_split_normal` of line 2323, which is what the surrounding comments describe.
- `dependency_order` counts a self-loop as a cycle, `_dependency_order` ignores it. The pipeline
  removes self-loops first; `SelfLoopSplitsThePasses` shows that without that step the passes can
  disagree, and `RequestReproducedIff` says exactly when the second pass reproduces a request.
- `_chunk_by_dependencies` drops changes whose file has no name when a context lists that file as
  a callee. `CoversAllIff` gives the exact condition, `UnnamedCalleeIsLost` an input.
- Merging duplicates can lose data: `ChainInWrongOrderLoses` is an input, and
  `FilterAndDeduplicate` has the exact condition on the candidates and the answer. The source ids of
  a merged problem may be the model's own text, so labels with blanks around them are included.
- Ids in the global decision are distinct because `_assign_problem_ids` has numbered the problems.
  `_dependency_order` takes any problem list, and a repeated id without predecessors comes out
  twice; `RequestedOrder` says exactly when the result is the schedule.
- In `_split_structured_chunk_by_size` the files come as (path, info) pairs. Its branch that closes
  a bin before an oversized file is dead: sorting puts oversized files first.
- Thresholds such as 0.2, 0.6 and 0.8 are compared as exact fractions.

## Model

| member | source | states |
|---|---|---|
| `Kahn.Confluence` | bidirectional_decomposition/simple_llm_reconciliation.py:1695-1704 | any two runs that get stuck have emitted the same problems, however ties were broken |
| `Kahn.LeftoverIsLargestDeadlock` | bidirectional_decomposition/simple_llm_reconciliation.py:1706-1708 | what is left over is the largest set in which every problem waits for a member of the set |
| `Kahn.EmittedIffNoCycleBehind` | bidirectional_decomposition/simple_llm_reconciliation.py:1695-1708 | the main loop emits exactly the problems that no cycle reaches |
| `Kahn.ScheduleRespectsEdges` | bidirectional_decomposition/simple_llm_reconciliation.py:1672-1709 | every edge into a problem that no cycle reaches is respected by the whole sequence |
| `Kahn.ScheduleUnique` | bidirectional_decomposition/simple_llm_reconciliation.py:1690-1709 | graph and key determine the sequence |
| `Kahn.GreedyIsLeastRun` | bidirectional_decomposition/simple_llm_reconciliation.py:1690-1704 | on every graph the emitted part is the lexicographically least of all maximal runs under the key |
| `Kahn.LeastTopologicalOrder` | bidirectional_decomposition/simple_llm_reconciliation.py:1690-1704 | on an acyclic graph the sequence is the lexicographically least topological order |
| `Kahn.TopologicalOrderIffAcyclic` | bidirectional_decomposition/simple_llm_reconciliation.py:1706-1709 | the sequence is a topological order if and only if the graph has no cycle |
| `OrderLaws.ScheduleKeepsEdges` | bidirectional_decomposition/simple_llm_reconciliation.py:1682-1704 | in terms of the edge list: every listed edge between known problems into one that no circle of listed edges reaches is respected |
| `OrderLaws.ScheduleServesReady` | bidirectional_decomposition/simple_llm_reconciliation.py:1695-1709 | in terms of the edge list: a problem whose listed predecessors are all out is never passed over for one with a larger key |
| `PriorityLoop.BuildAdjacency` | bidirectional_decomposition/simple_llm_reconciliation.py:1679-1688 | adjacency sets and in-degrees represent the graph of admitted edges, repeats counted once |
| `PriorityLoop.Release` | bidirectional_decomposition/simple_llm_reconciliation.py:1700-1704 | after the inner loop the counts and the sorted ready list are those of the larger emitted set; every node added uses up a count |
| `PriorityLoop.EmitByPriority` | bidirectional_decomposition/simple_llm_reconciliation.py:1695-1709 | terminates and emits every problem; the result is a schedule if and only if the ready list starts without repeats |
| `RepairSequence.DependencyOrder` | bidirectional_decomposition/simple_llm_reconciliation.py:1672-1709 | each problem once; every listed edge into a problem that no circle of edges reaches is respected; whoever is ready is served primaries first, then by validation order (10000 if missing), then by id; the result is the schedule of that key, self-loops counted as cycles |
| `RepairSequence.PriorityKeysNoTies` | bidirectional_decomposition/simple_llm_reconciliation.py:1690-1693 | no two problems have the same key, so the sequence is unique |
| `RepairSequence.RequestedOrder` | bidirectional_decomposition/normalize_output.py:10-44 | every id comes out; the result is the schedule under (place in the request, place in the list), self-loops ignored, if and only if no problem without predecessors is listed twice; then listed edges are respected and whoever is ready is served in that order |
| `RepairSequence.RankKeysNoTies` | bidirectional_decomposition/normalize_output.py:18-29 | requested and original rank together never tie |
| `RepairSequence.RankIs` | bidirectional_decomposition/normalize_output.py:18-19 | the rank of an id is its last place, 10000 if it has none |
| `RepairSequence.RequestReproducedIff` | bidirectional_decomposition/normalize_output.py:10-44 | a request comes back unchanged if and only if it lists each problem once and starts with a complete run |
| `RepairSequence.SecondPassAgrees` | bidirectional_decomposition/normalize_output.py:10-44 | cycles or not, the second pass reproduces the sequence of the first when there are no self-loops |
| `RepairSequence.SecondPassIdempotent` | bidirectional_decomposition/normalize_output.py:10-44 | asking for a result again returns it, whatever was asked for first |
| `RepairSequence.SelfLoopSplitsThePasses` | bidirectional_decomposition/normalize_output.py:24-24 | a concrete self-loop on which the two passes differ |
| `RepairSequence.AssignProblemIds` | bidirectional_decomposition/simple_llm_reconciliation.py:1605-1613 | problems keep their order and are numbered 1..n |
| `RepairSequence.NormalizeDependencies` | bidirectional_decomposition/simple_llm_reconciliation.py:1626-1655 | exactly the causal edges between two different known problems survive, each once |
| `RepairSequence.PlaceInSequence` | bidirectional_decomposition/simple_llm_reconciliation.py:1712-1721 | a stable sort by place, unlisted problems at 10000; a sequence that lists all problems is followed exactly with places 1..n |
| `RepairSequence.Reconcile` | bidirectional_decomposition/simple_llm_reconciliation.py:144-163 | the laws over the model's raw edges: 1..n once each, causal edges into problems that no circle reaches are respected, the ready are served by class, validation order and number; surviving edges are exact |
| `RepairSequence.ReconciledLaws` | bidirectional_decomposition/simple_llm_reconciliation.py:1626-1709 | a reconciled sequence keeps both laws over the raw edges |
| `RepairSequence.NormalizeOutput` | bidirectional_decomposition/normalize_output.py:143-195 | the normalised list is sorted by place in the recomputed sequence; with distinct ids it is that sequence, with places 1..n |
| `RepairSequence.ReconcileAndNormalize` | bidirectional_decomposition/normalize_output.py:133-195 | end to end, for every set of model edges: the final list is in the order of the first pass, with places 1..n and both laws over the raw edges |
| `RepairOrder.CountEdges` | backward_decomposition/decompose_ci_failure.py:4279-4289 | adjacency lists keep repeated edges and in-degrees count them |
| `RepairOrder.PendingAfter` | backward_decomposition/decompose_ci_failure.py:4313-4317 | emitting a problem lowers each count by as many edges as led there |
| `RepairOrder.TopologicalSort` | backward_decomposition/decompose_ci_failure.py:4270-4328 | repeated edges or cycles notwithstanding: each index once, listed edges into indices that no circle reaches respected, the ready served by key, ties by who was queued first |
| `RepairOrder.ArrivalsDiffer` | backward_decomposition/decompose_ci_failure.py:4295-4317 | no two problems are queued at the same moment, so the tie-break always decides |
| `RepairOrder.QueueOrderUnique` | backward_decomposition/decompose_ci_failure.py:4270-4328 | indices, edges and validation orders determine the result, equal orders and cycles included |
| `Sorting.SortStable` | backward_decomposition/decompose_ci_failure.py:4304-4326 | sorting never exchanges problems with equal keys |
| `MechanicalEdges.Detect` | backward_decomposition/decompose_ci_failure.py:4122-4206 | an edge is drawn for exactly the ordered pairs of the group that the three rules relate |
| `MechanicalEdges.DrawsEdge` | backward_decomposition/decompose_ci_failure.py:4139-4203 | an earlier and a later problem are related by configuration files, by sharing more than a fifth of one file list, or by having at most three files and fewer than the other |
| `MechanicalEdges.IsConfigProblem` | backward_decomposition/decompose_ci_failure.py:4209-4231 | some file contains one of ten configuration patterns |
| `MechanicalEdges.GroupByCommand` | backward_decomposition/decompose_ci_failure.py:4008-4014 | each group is the list of indices with that command, in increasing order |
| `MechanicalEdges.DetectAll` | backward_decomposition/decompose_ci_failure.py:4018-4042 | the edges of all groups, when every group falls back to the heuristics |
| `MechanicalEdges.ComputeRepairOrder` | backward_decomposition/decompose_ci_failure.py:4234-4267 | for every list of edges: 1..n once each, primaries first, edges inside a class respected unless a circle of the class reaches them, the ready served by validation order (999 if missing); the order is unique |
| `MechanicalEdges.RepairOrderUnique` | backward_decomposition/decompose_ci_failure.py:4234-4328 | problems and edges determine the repair order |
| `MechanicalEdges.RepairOrderLaws` | backward_decomposition/decompose_ci_failure.py:4234-4328 | these laws follow from being the repair order |
| `MechanicalEdges.ClassIsTopological` | backward_decomposition/decompose_ci_failure.py:4270-4328 | under increasing edges a class is in topological order, so the cycle fallback is never used |
| `MechanicalEdges.RepairOrderSound` | backward_decomposition/decompose_ci_failure.py:4234-4328 | a permutation of 1..n, primaries before hidden, every edge inside a class respected |
| `MechanicalEdges.MechanicalRepairOrder` | backward_decomposition/decompose_ci_failure.py:3996-4052 | the whole stage without a model: edges lead exactly from earlier to later related problems with the same command, and the repair order is sound |
| `NextFit.Pack` | bidirectional_decomposition/simple_llm_reconciliation.py:1785-1797 | the loop produces the next-fit partition: nothing lost, every batch fits or is single, no batch could take the next item |
| `NextFit.NextFitUnique` | bidirectional_decomposition/simple_llm_reconciliation.py:1781-1798 | these properties determine the batches |
| `NextFit.Fewest` | bidirectional_decomposition/simple_llm_reconciliation.py:1781-1798 | no partition into consecutive parts that fit or hold one record has fewer parts, oversized records included |
| `NextFit.RepackBatch` | bidirectional_decomposition/simple_llm_reconciliation.py:410-420 | packing a batch again gives that batch alone |
| `NextFit.PairsExceedLimit` | backward_decomposition/decompose_ci_failure.py:2772-2802 | m >= 2 packed chunks weigh more than floor(m/2) targets |
| `LosslessBatches.LosslessProblemBatches` | bidirectional_decomposition/simple_llm_reconciliation.py:1781-1798 | the batches are the next-fit partition of the records with 2 bytes of brackets |
| `LosslessBatches.MergeCluster` | bidirectional_decomposition/simple_llm_reconciliation.py:385-420 | an oversized cluster is cut losslessly and the recursion goes at most one level down |
| `SizeSplit.LargestFirst` | backward_decomposition/decompose_ci_failure.py:2769-2770 | a permutation of the files by falling size |
| `SizeSplit.PackBySize` | backward_decomposition/decompose_ci_failure.py:2772-2802 | oversized files stand alone, the others are packed next-fit within the target |
| `SizeSplit.SplitBySize` | backward_decomposition/decompose_ci_failure.py:2731-2838 | every file goes to exactly one non-empty piece; two or more files give halves if they fit the target together, else two or more next-fit bins |
| `SizeSplit.OneBinIff` | backward_decomposition/decompose_ci_failure.py:2772-2809 | two or more files end in a single bin if and only if together they stay within the target |
| `SizeSplit.PackedBins` | backward_decomposition/decompose_ci_failure.py:2772-2802 | bins of several files stay within the target, and m packed bins outweigh floor(m/2) targets |
| `SizeSplit.ClassifyWithFallback` | backward_decomposition/decompose_ci_failure.py:2851-2908 | terminates for every oracle; the calls are exactly those the replies ask for, in order, and each call that settles its files gives one leaf; every file ends in exactly one leaf; a well-counted chunk of n files costs at most 2n - 1 calls, one more with caller contexts |
| `SizeSplit.ClassifyWithDependencies` | backward_decomposition/decompose_ci_failure.py:2911-2987 | only a too-long answer leads to the regular path, anything else settles the chunk in one call |
| `SizeSplit.ClassifyRegular` | backward_decomposition/decompose_ci_failure.py:3114-3227 | only a too-long answer for more than one file splits, by size; any other call settles the chunk |
| `SizeSplit.ClassifyPieces` | backward_decomposition/decompose_ci_failure.py:3207-3221 | the recursive calls settle every file and together stay within the budget |
| `DependencyChunks.SplitContext` | backward_decomposition/decompose_ci_failure.py:1075-1167 | one chunk if the context fits, else consecutive callee batches around the whole caller, several callees only within the effective limit, and no batch could take the next callee |
| `DependencyChunks.GatherJoin` | backward_decomposition/decompose_ci_failure.py:1098-1101 | callees' changes are gathered in the order of the callees |
| `DependencyChunks.CalleeWholeInOneBatch` | backward_decomposition/decompose_ci_failure.py:1116-1167 | with distinct callees other than the caller, each chunk has the whole caller and each callee stands whole in exactly one chunk |
| `DependencyChunks.ContextCovers` | backward_decomposition/decompose_ci_failure.py:1075-1167 | a context covers every change of its named files and shows no other |
| `DependencyChunks.SliceRest` | backward_decomposition/decompose_ci_failure.py:1185-1203 | uncovered changes are sliced in order into full slices and a last one |
| `DependencyChunks.RestJoin` | backward_decomposition/decompose_ci_failure.py:1179-1183 | uncovered changes keep their order |
| `DependencyChunks.ChunkByDependencies` | backward_decomposition/decompose_ci_failure.py:1051-1207 | the chunks of each context in turn, cut as for one context, then full slices of the rest; uncovered changes come out exactly once, named ones at least as often as they went in, nothing foreign; the group comes back whole only if all would be lost |
| `DependencyChunks.ContextStandsTogether` | backward_decomposition/decompose_ci_failure.py:1075-1167 | in the finished list the chunks of a context are neighbours; with distinct callees other than the caller each repeats the whole caller, each callee is whole in exactly one, and several callees only within the effective limit |
| `DependencyChunks.ContextSizes` | backward_decomposition/decompose_ci_failure.py:1103-1138 | a chunk around several callees has at most the limit, or at most one change more than the caller; a larger context with two callees is cut, one within the limit is not |
| `DependencyChunks.ContextCarried` | backward_decomposition/decompose_ci_failure.py:1143-1167 | every chunk of a context carries that context with just the callees of its batch |
| `DependencyChunks.CoversAllIff` | backward_decomposition/decompose_ci_failure.py:1169-1207 | nothing is lost if and only if all changes or none of them have an unnamed file listed as a callee |
| `DependencyChunks.UnnamedCalleeIsLost` | backward_decomposition/decompose_ci_failure.py:1092-1101 | a concrete group that loses a change |
| `CapacitySplit.SplitEvenly` | backward_decomposition/decompose_ci_failure.py:2105-2120 | pieces in order, sizes differing by at most one, larger ones first |
| `CapacitySplit.GroupByType` | backward_decomposition/decompose_ci_failure.py:2386-2418 | three lists that keep order, one per kind of change, the kind read off the file suffix and the texts |
| `CapacitySplit.KindIs` | backward_decomposition/decompose_ci_failure.py:2403-2416 | a change is configuration by its path's suffix, else a dependency if a text mentions import or package, else code |
| `CapacitySplit.SplitByType` | backward_decomposition/decompose_ci_failure.py:2209-2229 | each piece holds all changes of one kind, kinds in rising order; together they hold every change exactly once |
| `CapacitySplit.SplitForCapacity` | backward_decomposition/decompose_ci_failure.py:2168-2231 | large prompts are cut evenly; others along contexts with the even share as limit if that gives two or more chunks, else by kind if there are several, else evenly; at least two pieces, nothing foreign, nothing lost from a safe chunk |
| `CapacitySplit.SplitCount` | backward_decomposition/decompose_ci_failure.py:2082-2102 | the largest number from 2 to 8 that neither the prompt size nor a tenth of the changes forbids, at least 2 |
| `AtomicProblems.SplitAndRequeue` | backward_decomposition/decompose_ci_failure.py:2258-2276 | the queue invariant is kept and the lexicographic depth measure falls, even if no piece shrinks |
| `AtomicProblems.LevelsAfterSplit` | backward_decomposition/decompose_ci_failure.py:2258-2276 | the queue stays sorted by depth, spans two adjacent depths and never passes depth 5 |
| `AtomicProblems.AfterSplit` | backward_decomposition/decompose_ci_failure.py:2325-2339 | a split keeps every change of the starting chunk in the queue or in a final call |
| `AtomicProblems.AfterCall` | backward_decomposition/decompose_ci_failure.py:2376-2378 | so does keeping the result of a call |
| `AtomicProblems.BuildAtomicProblems` | backward_decomposition/decompose_ci_failure.py:2279-2383 | terminates for every oracle; turns take up the queued chunks with changes first in, first out; each is cut for size, cut for a retry, kept or lost exactly as its reply says, and cut by the right strategy; the run aborts exactly when the last turn loses the connection, else it ends when all is taken up with the problems of the kept calls; if all files are named every change is in a kept call's chunk, and nothing foreign is |
| `AtomicProblems.FoundIsKept` | backward_decomposition/decompose_ci_failure.py:2343-2378 | every turn that fits and finds problems is the turn of a kept call with these problems |
| `AtomicProblems.ProblemsAppend` | backward_decomposition/decompose_ci_failure.py:2378-2378 | problems are collected in the order of the calls |
| `AtomicProblems.FirstAnswerEnds` | backward_decomposition/decompose_ci_failure.py:2343-2383 | a first answer that fits and finds problems is the whole result, after one call |
| `ValidationGroups.AddMissingFallbacks` | backward_decomposition/decompose_ci_failure.py:2657-2705 | every file that no entry mentions, and no other, gets an entry of its own behind the entries |
| `ValidationGroups.MergeByKey` | backward_decomposition/decompose_ci_failure.py:766-875 | each group lists the files of the resolving entries filed under its key, in order |
| `ValidationGroups.CmdForOrderIs` | backward_decomposition/decompose_ci_failure.py:766-777 | the command of an order is that of its last step, or nothing |
| `ValidationGroups.BuildLookup` | backward_decomposition/decompose_ci_failure.py:883-900 | changes of a file are concatenated over all chunks that mention it |
| `ValidationGroups.ChangesJoin` | backward_decomposition/decompose_ci_failure.py:883-900 | records of one file add up in order |
| `ValidationGroups.AttachAll` | backward_decomposition/decompose_ci_failure.py:921-940 | each group gets the tagged changes of its files, file by file |
| `ValidationGroups.InSomeGroupIff` | backward_decomposition/decompose_ci_failure.py:766-875 | a file is in some group if and only if a resolving entry lists it in a part that counts |
| `ValidationGroups.GroupChunk` | backward_decomposition/decompose_ci_failure.py:766-940 | a file reaches a group with all its changes if and only if an entry with an order and a usable command, its own or its step's, lists it, or no entry mentions it and the first step takes it |
| `ValidationGroups.AllCovered` | backward_decomposition/decompose_ci_failure.py:766-940 | if every entry is single-type with order and command, and the first step takes omitted files, that holds of every file |
| `Clusters.BuildAdjacency` | bidirectional_decomposition/simple_llm_reconciliation.py:357-364 | adjacency is the symmetric match relation |
| `Clusters.Explore` | bidirectional_decomposition/simple_llm_reconciliation.py:371-381 | the stack search collects exactly what is connected to its start, each index once |
| `Clusters.ClusterBySimilarity` | bidirectional_decomposition/simple_llm_reconciliation.py:318-382 | two indices share a cluster if and only if a chain of matches joins them; sorted inside, ordered by least index |
| `GlobalDecision.EnforcedIrrelevant` | bidirectional_decomposition/simple_llm_reconciliation.py:1046-1117 | exactly which problems stay irrelevant after both enforcement steps |
| `GlobalDecision.EnforcedPrimary` | bidirectional_decomposition/simple_llm_reconciliation.py:1052-1057 | a problem is primary if it was known to be or the answer names it |
| `Text.StripIs` | bidirectional_decomposition/simple_llm_reconciliation.py:1758-1758 | stripping takes blanks off both ends and nothing else |
| `Duplicates.UniqueStrings` | bidirectional_decomposition/simple_llm_reconciliation.py:1754-1762 | stripped, non-empty values without repeats, in order of first appearance |
| `Duplicates.FirstSeenInOrder` | bidirectional_decomposition/simple_llm_reconciliation.py:1755-1761 | what stands earlier was seen before every occurrence of what stands later |
| `Duplicates.ForwardReadsTable` | bidirectional_decomposition/simple_llm_reconciliation.py:1578-1583 | the guard that the loop reads off the working table is the guard on the ledger, which is replayed from the input alone |
| `Duplicates.MergeInto` | bidirectional_decomposition/simple_llm_reconciliation.py:1584-1592 | the keeper takes over both lists, its own values first; nothing else changes |
| `Duplicates.UnionValues` | bidirectional_decomposition/simple_llm_reconciliation.py:1586-1591 | the united list has exactly the values of both, stripped |
| `Duplicates.MergeGroup` | bidirectional_decomposition/simple_llm_reconciliation.py:1568-1592 | whatever the order of its drop ids, a group takes exactly the problems its guard lets through and hands all their data to its own keeper |
| `Duplicates.MergeDuplicates` | bidirectional_decomposition/simple_llm_reconciliation.py:1568-1592 | the working table carries what the ledger says after all groups in their order, and the dropped ids are those of the ledger |
| `Duplicates.DroppedIff` | bidirectional_decomposition/simple_llm_reconciliation.py:1571-1583 | a problem is gone if and only if the group at some place took it |
| `Duplicates.FirstRequestDecides` | bidirectional_decomposition/simple_llm_reconciliation.py:1571-1583 | for every table the first group that asks for a clustered problem decides whether it goes: it goes exactly if it shows no forward source by then |
| `Duplicates.ForwardPersists` | bidirectional_decomposition/simple_llm_reconciliation.py:1578-1592 | a forward source, once shown, is shown after all later groups |
| `Duplicates.BlankLabelSavesKeeper` | bidirectional_decomposition/simple_llm_reconciliation.py:1578-1592 | a label that is forward only once stripped does not save its problem, but saves the keeper from every later group |
| `Duplicates.ForwardHeldAlone` | bidirectional_decomposition/simple_llm_reconciliation.py:1578-1583 | a problem with a forward source of its own is never taken and nobody else holds its data |
| `Duplicates.CleanDroppedIff` | bidirectional_decomposition/simple_llm_reconciliation.py:1571-1583 | with labels free of blanks, the requests decide whatever the order of the groups |
| `Duplicates.HolderIffReached` | bidirectional_decomposition/simple_llm_reconciliation.py:1568-1592 | q ends up with the data of p if and only if groups at rising places hand it on from p to q |
| `GlobalDecision.ApplyGlobalDecision` | bidirectional_decomposition/simple_llm_reconciliation.py:1558-1602 | the selected ids in order; each carries exactly what the problems it holds for brought, has its final class and is otherwise unchanged |
| `GlobalDecision.FilterAndDeduplicate` | bidirectional_decomposition/simple_llm_reconciliation.py:1026-1043 | enforcement and decision together, for every answer: excluded problems are never selected, other backward singletons and other clustered forward problems always; the removed set; known and named primaries come out primary; nothing is lost if and only if every value has a holder that stays |
| `GlobalDecision.GuardsHold` | bidirectional_decomposition/simple_llm_reconciliation.py:1046-1117 | a singleton or a problem with a forward source goes only if the enforced answer rejects it |
| `GlobalDecision.RemovedExactly` | bidirectional_decomposition/simple_llm_reconciliation.py:1558-1602 | the removed set for every table, blanks in labels included: rejected, or taken by the group at some place |
| `GlobalDecision.RemovedWithCleanLabels` | bidirectional_decomposition/simple_llm_reconciliation.py:1558-1602 | the removed set in plain terms when labels have no blanks: excluded, rejected singletons without backward source, clustered problems without forward source that a group names as duplicates |
| `GlobalDecision.CarriedIffHeld` | bidirectional_decomposition/simple_llm_reconciliation.py:1584-1597 | a file or source id is in some selected problem if and only if a problem that brought it has, by the ledger of the input, a holder that is not removed |
| `GlobalDecision.OwnHeldIffKept` | bidirectional_decomposition/simple_llm_reconciliation.py:1584-1597 | what only one problem brought survives if and only if groups at rising places hand it on to a problem that stays |
| `GlobalDecision.NothingLostIfKeepersStay` | bidirectional_decomposition/simple_llm_reconciliation.py:1568-1597 | if no group that takes something has a keeper that goes, everything of every problem not rejected is carried, for any number and order of groups |
| `GlobalDecision.ChainInWrongOrderLoses` | bidirectional_decomposition/simple_llm_reconciliation.py:1568-1597 | three problems and two groups, 1 into 3 and then 2 into 1: only 3 is selected and file b is lost |
| `GlobalDecision.ChainInRightOrderKeeps` | bidirectional_decomposition/simple_llm_reconciliation.py:1568-1597 | the same two groups in the other order: 3 carries files a and b |
| `CacheFile.NoLostUpdate` | memory_plugin/decomposition_cache.py:218-243 | a committed entry is found with all its problems, each with its stored fields and values except the validation sequence, until its key is set again or the cache is cleared |
| `CacheFile.KeepsKey` | memory_plugin/decomposition_cache.py:236-243 | setting one key does not change what is found for another |
| `CacheFile.Readable` | memory_plugin/decomposition_cache.py:96-131 | after any operations the file is readable if and only if it was, or a clear was among them |
| `CacheFile.LookupIs` | memory_plugin/decomposition_cache.py:192-205 | the row of the key itself, else the first row whose key shares a prefix, else nothing |
| `CacheFile.PutNew` | memory_plugin/decomposition_cache.py:237-237 | a new key adds a row at the end |
| `CacheFile.PutOld` | memory_plugin/decomposition_cache.py:237-237 | a known key has its row replaced in place |
| `DecompositionCache.Cache.LoadCache` | memory_plugin/decomposition_cache.py:96-131 | the table becomes the file, row by row with the fields kept, or stays as it is if the file is unreadable |
| `DecompositionCache.Cache.SaveCache` | memory_plugin/decomposition_cache.py:138-164 | the file becomes the table, or stays as it is if saving fails |
| `DecompositionCache.Cache.Get` | memory_plugin/decomposition_cache.py:178-207 | exact match, else first prefix match, on the latest file |
| `DecompositionCache.Cache.Has` | memory_plugin/decomposition_cache.py:245-255 | true exactly when a lookup would hit |
| `DecompositionCache.Cache.Set` | memory_plugin/decomposition_cache.py:213-243 | the entry is merged into the latest file and found there with its fields; an unreadable file is left alone |
| `DecompositionCache.Cache.Clear` | memory_plugin/decomposition_cache.py:257-261 | the file becomes empty even if it was unreadable |
| `DecompositionCache.StoreThenRead` | memory_plugin/decomposition_cache.py:178-243 | what one worker stores another reads back, problem by problem and field by field |
| `CacheProtocol.InvStep` | memory_plugin/decomposition_cache.py:138-243 | every step of every thread, save failure, crash and restart keeps the protocol invariant |
| `CacheProtocol.RenameCommits` | memory_plugin/decomposition_cache.py:138-164 | the renamed file is what the operation makes of the file, never a torn one |
| `CacheProtocol.FileReplaysCommits` | memory_plugin/decomposition_cache.py:138-261 | in every run the file is the replay of the committed operations, a subsequence in lock order, and stays readable |
| `CacheProtocol.CommittedIsOnDisk` | memory_plugin/decomposition_cache.py:138-243 | at every point of every run a committed entry that was not replaced or cleared is in the file with its problems and fields |
| `CacheProtocol.MutualExclusion` | memory_plugin/decomposition_cache.py:166-176 | at most one thread of all processes holds the file lock |
| `CacheProtocol.MalformedOnlyCleared` | memory_plugin/decomposition_cache.py:236-261 | an unreadable file is only ever replaced by a clear |
| `CacheProtocol.GetSeesEarlierSets` | memory_plugin/decomposition_cache.py:178-207 | a get returns the latest entry committed before it began with its problems and fields, unless replaced before it answered |
| `CacheProtocol.SetCanFinish` | memory_plugin/decomposition_cache.py:213-243 | from every quiet state a thread can carry out a set step by step, and then the entry is in the file |
| `CacheProtocol.GetCanFinish` | memory_plugin/decomposition_cache.py:178-207 | so can a get, which answers from the file |
| `CacheProtocol.ClearCanFinish` | memory_plugin/decomposition_cache.py:257-261 | so can a clear, even on an unreadable file |
| `CacheProtocol.CanStartAndCrash` | memory_plugin/decomposition_cache.py:83-94 | a process can start whenever the file is readable and crash at any time |
| `Consolidation.KeyTransitive` | commit_decomposition/commit_analyzer.py:392-399 | tuple order on keys is transitive |
| `Consolidation.GroupEvents` | commit_decomposition/commit_analyzer.py:383-432 | one item per key with the files and texts of its events |
| `Consolidation.Consolidate` | commit_decomposition/commit_analyzer.py:379-458 | in terms of the events: every group of events that agree on command, types and flags has one record with exactly its files and its texts joined in order of first appearance, the fix texts only if fixed; records stand by validation order, command, types and flags |
| `Consolidation.RecordsConsolidate` | commit_decomposition/commit_analyzer.py:379-458 | these laws follow from being the consolidation |
| `Consolidation.TextLessIs` | commit_decomposition/commit_analyzer.py:434-435 | text order: the first difference decides, and a prefix comes first |
| `Consolidation.JoinLaw` | commit_decomposition/commit_analyzer.py:475-477 | one text stays as it is, lists of texts are joined by an empty line |
| `Consolidation.FilesAre` | commit_decomposition/commit_analyzer.py:418-420 | a record lists exactly the files of the events with its key, each once |
| `Consolidation.FilesReachTheirRecord` | commit_decomposition/commit_analyzer.py:418-420 | every file of every event is in the record of its key |
| `Consolidation.Idempotent` | commit_decomposition/commit_analyzer.py:379-458 | consolidating the records again changes nothing |
| `MemoryBudget.RunningSumIsExact` | memory_plugin/memory_optimizer.py:131-138 | the running sum is the serialised length of the kept list |
| `MemoryBudget.SizeIsWeight` | memory_plugin/memory_optimizer.py:131-138 | the serialised length of a list is the length of its items and two characters for each |
| `MemoryBudget.TruncateToSize` | memory_plugin/memory_optimizer.py:189-205 | the kept list is the longest prefix that fits |
| `MemoryBudget.Prioritize` | memory_plugin/memory_optimizer.py:141-186 | the first level stays whole, and if it takes at most 80% the three lists together stay within the limit |

## Left out

- DecompositionCache.Cache.constructor: the source raises on an unreadable file; the model yields an object with an empty table, because a Dafny constructor cannot fail.
- CapacitySplit.GroupByType: the texts of a change arrive in lower case, since lower-casing is not modelled.
- Duplicates.MergeGroup: the order of values inside a keeper's list after several merges follows the iteration order of a Python set and is left open; the `source` label derived from the source ids is not modelled.
- GlobalDecision.EnforcedIrrelevant: the list of kept ids is not modelled, because selection never reads it.
- ValidationGroups.GroupChunk: filling in missing orders and commands by `_normalize_classification_validations`, dependency contexts and pattern flags are not modelled.
- MechanicalEdges.DetectAll: the edge texts and strengths are not modelled, because the repair order does not read them.
- Model calls, prompts, JSON repair, rate limiting, logging and file contents below the level of parsed rows: foreign code or input and output.
- TF-IDF and cosine similarity: library code; the match relation is an arbitrary input of the component search.
- `_process_group` and `_build_group_problem`: they copy or merge text fields, which would only add easy members.
- `_validate_cluster_groups`: nothing in the pipeline calls it.
- `_chunk_validation_group`, `_copy_group_with_events`, `_attach_merged_chunk_files` and `_resolve_and_organize_groups` of the commit decomposition: plain slicing and collecting that repeats what is shown elsewhere.
- commit_decomposition/diff_filter.py and the renumbering in build_memory/build_l1.py: neither a round trip nor the preservation of edges is a property of that code.
- analysis, scripts, baseline and network clients: statistics, reports and plumbing without a law to prove.
