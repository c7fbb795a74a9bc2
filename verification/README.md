# lsql: a verified model

`lsql` answers SQL over log files: a query becomes relational IR, the optimizer rewrites the IR, the planner turns it into
a phased DAG of shared operations, and push-based operators stream the lines of the logs through that DAG. This project
models those stages in Dafny and proves what each promises, over one common notion of rows and relations.

Check it with `dafny verify dfyconfig.toml` (Dafny 4.11).

## What is modelled

**Rows, scalars, relations** (`Values`, `Scalars`, `Outcomes`, `Sequences`, `Sorting`, `Relations`). A relation is an
operator, its inputs and its columns; every well-formed tree denotes a sequence of rows. The denotation uses a stable sort and
a merge that prefers its left input. A tree is *sound* when it is well-formed and the inputs of every sorted merge are sorted,
which is what a sorted merge asks of its user. One tree *replaces* another when it is sound and has the same columns and rows.
Beside its value a scalar has an *outcome*: the value, or the failure that its executors throw.

**The optimizer** (`FilterPushdown`, `LimitPushdown`, `ScalarSimplify`, `ScalarPasses`, `ScalarCost`, `ScalarCache`,
`ProjectionCollapse`, `RelationSimplify`, `EmptyPrune`, `AggregateRewrites`, `RelationPasses`, `Optimizer`). Each pass is a
function on trees with a theorem that its result replaces its argument, and a method in the form of the C++ that loops over
sources, arguments and statements, sets the change flag, and computes that function. `Standards`, `FilterOutcomes`,
`ProperPasses` and `ProperCaching` show that every pass leaves the scalars of a tree as well typed, and its conditions as
decidable, as they were; so `Optimizer.OptimizeRounds` may run any number of rounds.

**Operators** (`MergeSpec`, `MergeOperator`, `UnionOperator`, `LimitOperator`, `TopKOperator`, `LazyScalars`,
`CachedOperators`). The sorted merge and the union are state machines whose steps are the lock-protected calls of their inputs;
the theorems hold for every schedule of calls and any subscriber that may refuse. Classes with the fields of the C++ compute
exactly these machines. The limit serves any number of subscribers, each of which may leave at any call. The top-k keeps a
bounded queue; `LazyScalars` evaluates scalars through memo slots shared by structural equality.

**Planning, building, running** (`Plans`, `Planning`, `Pruning`, `LateAggregates`, `Lowering`, `Programs`, `Interpretation`,
`Building`, `PhaseRun`, `Pipeline`). Minimum phases, the closure computed by `requestOutput`, exactly when column pruning over
the shared DAG delivers what is required, the links between operations and states, and a run of the phases in which a state
is finished only when the link that fills it delivers its end.

**Arrival order** (`Permutations`, `Arrivals`, `MergeArrivals`, `Cuts`, `Deliveries`, `SharedCuts`). A run decides, for every
operation and phase anew, what the operators leave open: how the rows of a union or merge interleave, the order of rows with
equal sort keys, which tied rows a top-k keeps, and the order of groups. `Honest` says what a run may decide. Column pruning
and the run of the phases are stated for every honest run; `InputOrder` is the run that follows the denotation. In any run an
operation delivers the rows of the full plan rearranged, as long as no limit or top-k cuts through rows that may come in
another order (`CutsSettled`), and in order where the order is settled (`Settled`).

`Pipeline.RunProgram` puts all stages together: the consumer of each query receives the rows the query means.

**Files** (`Files`, `SearchTimestamp`, `LineSource`, `LogRange`). Byte-offset binary search with chunked line scanning,
the paged and the streaming line reader, and the time-range scan built from them.

**Output and macros** (`Sinks`, `OrderedSinks`, `Macros`). The chain of ordered sinks under any order of `done` calls, and
macro expansion with its validation.

## Assumptions

- Sort keys are compared by a total order: the casts and the parser reject NaN.
- Functions other than `and`, `or`, `not`, `coalesce` and casts are uninterpreted and pure; which of their calls fail is left
  to the environment. Conversions through text or floating point are left to it as well. Costs are unbounded non-negative
  integers.
- The denotation of `and`, `or` and `not` reads anything that is not `true` as false, where the C++ executors throw. Outcomes
  (`Outcomes.Run`) model the failures. Scalar simplification, and so a whole round, is claimed on trees in which every scalar
  has its declared types, boolean operands and no failing call on the rows it sees (`ProperTree`); on such rows outcome and
  denotation agree (`ProperRuns`). The other passes are claimed on values for every sound tree.
- Aggregate functions other than counts, minimum and maximum are uninterpreted; results about runs in any order assume that
  their value does not depend on the order of the rows they are fed (`OrderFree`).
- A constant filter that is not a boolean is treated as false; the C++ throws on it while it optimizes. Likewise a call of
  constants that fails is folded to what the environment gives, where the C++ throws.

## Where the code does less than one might expect

- **Column pruning and malformed lines.** A log that is read for no column, or only for the whole line, does not parse its
  lines and keeps malformed ones; read for any other column it drops them (`src/back/exec/phys/ops/Log.h:38-50`,
  `src/back/exec/phys/ops/Log.h:96-116`). Pruning can therefore change the number of rows: `MalformedLineCounts` is an
  example, `ScanAgreesExactly` the exact condition.
- **Aggregates read only in a later phase** stop after their first input row, because no subscriber is active yet
  (`src/back/exec/phys/ops/Aggregate.h:44-52`), and the later phase has a record without values
  (`src/back/exec/phys/ops/Aggregate.h:14-17`). Reading one is undefined in the C++; here the rows of an operation that is
  asked for one are undefined too, and so are those of any operation that reads from it. `LateAggregates.CountLost` is such a
  query, as the planner plans it. An aggregate delivers in a phase if and only if it also runs in its own phase, has no input
  rows, or is asked for none of its values (`DeliversExactly`). `PruningExactly` puts both conditions together for a whole
  plan, `RunExactly` for a run in any order.
- **Limits over rows in any order.** A union forwards rows as threads deliver them (`src/back/exec/phys/ops/UnionAll.h:25-45`),
  so a limit above it keeps whichever came first, and a shared limit is evaluated anew in every phase that needs it.
  `SharedCuts.PhasesDisagree` is a query every row of which has a match in itself, and a run in which none has.
  `UnionLimitExactly`, `LimitExactly` and `TopKExactly` say exactly when a cut keeps the same rows in every run.
- **Filter pushdown and failing conditions.** `a and b` does not read `b` as a boolean when `a` is false, but `b` alone, pushed
  below a join, is read first. `PushedFilterFails` is a query that runs before the pass and throws after it;
  `SplitDecidesExactly` is the exact condition for one split, `JoinPushExactly` for all rows of one left join, and by
  `PushdownGood` no filter fails when all conjuncts are booleans.
- **Dropped operands.** Simplification can also remove a failure (`DroppedNullHidesFailure`); `SimplifyCallExactly` says on
  which rows a rule on calls keeps the outcome; the rule on coalesce always does (`SimplifyCoalesceOutcome`).
- **Ranges that end inside a line.** The paged reader can deliver the line that crosses the end of its range when that line's
  newline is in a later page. `ExactUnlessOverrun` gives the exact condition; the ranges the program makes never meet it.

## Model
| member | source | states |
|---|---|---|
| Relations.Congruence | src/optimize/optimize.cpp:20-34 | replacing the inputs of a node by trees with the same columns and rows keeps the rows of the node, and a sorted merge above stays sound |
| Relations.OpRowsFit | src/optimize/optimize.cpp:20-34 | every row an operator produces has one value per column of its schema |
| ScalarRewrites.ExchangeOp | src/optimize/optimize.cpp:20-34 | an operator may be exchanged for one whose scalars agree with it on the rows it actually reads, whatever they do elsewhere |
| ScalarRewrites.AgreeingRows | src/optimize/optimize.cpp:20-34 | sort, top-k, merge, joins, aggregates and groups depend on their scalars only through the values on their input rows |
| Optimizer.RunStage | src/optimize/optimize.cpp:20-34 | any of the passes, run on a sound tree with properly typed scalars, gives such a tree with the same columns and the same rows in the same order, and one that is unchanged when no change was reported |
| Optimizer.RunStageOnAll | src/optimize/optimize.cpp:20-34 | the same for one pass over all relations of a program |
| Optimizer.Optimize | src/optimize/optimize.cpp:20-34 | a full round of eleven passes keeps the columns and rows of every relation and the typing of its scalars, leaves no top-k or limit of nothing, adds no reference to a named relation, and returns the program unchanged when it reports no change |
| Pipeline.ReplacedProgram | src/optimize/optimize.cpp:20-34 | a program whose relations were replaced is well-formed, gives every name the same rows and asks the same queries |
| Pipeline.OptimizeProgram | src/optimize/optimize.cpp:20-34 | any number of rounds over the statements of a program gives a well-formed program with the same names and the same query results |
| Pipeline.CompileProgram | src/optimize/optimize.cpp:20-34 | optimizing and then planning: each query operation of the plan means the query as it was written and, column-pruned and run in input order, delivers its rows, given that no scan changes its lines and no late aggregate is asked for a value; after at least one round every top-k counts up to something |
| References.BottomUpRefs | src/optimize/optimize.cpp:20-34 | node-by-node passes introduce no reference to a named relation |
| References.FilterRefs | src/optimize/optimize.cpp:20-34 | nor does filter pushdown |
| References.LimitRefs | src/optimize/optimize.cpp:20-34 | nor does limit pushdown |
| References.RecachedRefs | src/optimize/optimize.cpp:20-34 | nor does scalar caching |
| Optimizer.OptimizeRounds | src/cli/run.h:147-156 | rounds are repeated until one changes nothing or the setting is reached; however many there are, every relation keeps its columns and rows and its scalars stay proper |
| Pipeline.PaddedRows | src/cli/run.h:38-52 | a consumer that reads one value per column receives the rows of the query from rows that agree with them on every column |
| Pipeline.QueryAnswered | src/cli/run.h:38-52 | in any run, under those conditions, the consumer of a query receives an arrangement of the rows the query means |
| Pipeline.RunProgram | src/cli/run.h:204-244 | optimized in rounds, planned, built and run phase by phase, with no lookup failing and no state found unfinished: given that no scan changes its lines and no late aggregate is asked for a value, each consumer receives exactly the rows its query means in a run in input order, and in any run the same rows in some order, in this order where the plan settles it and sorted where the plan sorts, if no limit or top-k cuts through rows that may come in another order |
| ProperPasses.BottomUpGood | src/optimize/optimize.cpp:20-34 | relation simplification, aggregate folding and deduplication, projection collapse and empty pruning leave every scalar of declared type, with boolean conditions and no failing call, on the rows it then sees |
| ProperPasses.LimitsGood | src/optimize/optimize.cpp:20-34 | so does limit pushdown: scalars see no row they did not see before |
| ProperCaching.RecachedGood | src/optimize/optimize.cpp:20-34 | so does caching: cache nodes have the types of what they cache |
| ProperPasses.CollapseProper | src/optimize/optimize.cpp:20-34 | a scalar proper on a projected row is proper on the row that was projected, once inner scalars are substituted |
| ProperPasses.DeduplicateNodeGood | src/optimize/optimize.cpp:20-34 | forwarded aggregates and group keys have the types they are declared with |
| FilterPushdown.Split | src/optimize/filter_pushdown.cpp:65-82 | the pushable part reads only the given fields, neither part reads new ones, and at least one part exists |
| FilterPushdown.ConjunctionHolds | src/optimize/filter_pushdown.cpp:39-58 | a conjunction of optional parts holds exactly when both parts hold |
| FilterPushdown.SplitMeaning | src/optimize/filter_pushdown.cpp:65-82 | a condition holds on a row exactly when its pushable and its remaining part both hold |
| FilterPushdown.SplitRemainder | src/optimize/filter_pushdown.cpp:65-82 | splitting a remainder again finds nothing pushable |
| FilterPushdown.RebindMeaning | src/optimize/filter_pushdown.cpp:18-25 | a rebound condition reads from the source row what the original reads from the renamed row |
| FilterPushdown.ProjectionMeaning | src/optimize/filter_pushdown.cpp:126-153 | filtering renamed columns after a projection is filtering the rebound condition before it |
| FilterPushdown.JoinMeaning | src/optimize/filter_pushdown.cpp:155-169 | a condition on left columns commutes with the left join, matches, padding and row order included |
| FilterPushdown.AllMeaning | src/optimize/filter_pushdown.cpp:110-124 | filtering all inputs of a union, sorted merge or sort is filtering its output, and merge inputs stay sorted |
| FilterPushdown.AddFilter | src/optimize/filter_pushdown.cpp:90-102 | pushing a filter into a well-formed relation keeps it well-formed and keeps its columns |
| FilterPushdown.AddFilterMeaning | src/optimize/filter_pushdown.cpp:90-199 | adding a filter denotes the filtered rows, however deep the condition sinks through unions, merges, sorts, joins and renamings |
| FilterPushdown.PushdownMeaning | src/optimize/filter_pushdown.cpp:177-199 | the pass gives every sound tree the same columns and the same row sequence |
| FilterPushdown.PushdownNormal | src/optimize/filter_pushdown.cpp:177-199 | afterwards no filter sits on a union, sorted merge or sort, and none on a projection or left join has a pushable conjunct |
| FilterPushdown.NormalFixpoint | src/optimize/filter_pushdown.cpp:177-199 | the pass leaves a tree alone if and only if it is in that normal form |
| FilterPushdown.PushdownIdempotent | src/optimize/filter_pushdown.cpp:177-199 | a second run of the pass changes nothing |
| FilterOutcomes.SplitDecidesExactly | src/optimize/filter_pushdown.cpp:65-82 | on a row the whole condition decides, the pushed filter and the one that remains above it fail exactly when some pushed conjunct that is not a boolean is no longer sheltered |
| FilterOutcomes.RemainingDecides | src/optimize/filter_pushdown.cpp:65-82 | what remains above never fails on a row that the whole condition decides and the pushed part lets through |
| FilterOutcomes.PushedFilterFails | src/optimize/filter_pushdown.cpp:155-169 | a left join whose condition decides every joined row, while the conjunct pushed to its left input fails on a left row |
| FilterOutcomes.JoinedRowDecides | src/optimize/filter_pushdown.cpp:155-169 | the conjuncts pushed below a left join decide a left row if and only if they are sheltered on any one of its joined rows |
| FilterOutcomes.JoinPushExactly | src/optimize/filter_pushdown.cpp:155-169 | for a filter that decides every joined row: the filter pushed below decides every left row if and only if every joined row is sheltered, and the one that remains never fails on the rows let through |
| FilterOutcomes.SplitGood | src/optimize/filter_pushdown.cpp:65-82 | when every conjunct is a boolean, so is every conjunct of both parts |
| FilterOutcomes.AddFilterGood | src/optimize/filter_pushdown.cpp:90-199 | adding a filter whose conjuncts are booleans on every row of the relation makes no filter of the tree fail, wherever its parts sink |
| FilterOutcomes.PushdownGood | src/optimize/filter_pushdown.cpp:177-199 | when every conjunct of every filter is a boolean on every row of the source of the filter, no filter fails after the pass either; likewise for trees no scalar of which fails, and for properly typed trees |
| FilterPushdownPass.AddFilter | src/optimize/filter_pushdown.cpp:90-194 | the mutating form computes the pushed tree; unless it reports a change the filter is where it was put |
| FilterPushdownPass.AddToAll | src/optimize/filter_pushdown.cpp:110-124 | every input of a union, merge or sort receives the filter |
| FilterPushdownPass.PushBelowProjection | src/optimize/filter_pushdown.cpp:126-153 | only the conjuncts on forwarded columns go below a projection, the others stay above |
| FilterPushdownPass.PushBelowJoin | src/optimize/filter_pushdown.cpp:155-169 | only the conjuncts on left columns go below a left join |
| FilterPushdownPass.Visit | src/optimize/filter_pushdown.cpp:196-211 | the visit is the pass; when it reports no change the tree is as it was |
| LimitPushdown.EnsureLimitedMeaning | src/optimize/limit_pushdown.cpp:31-54 | a capped relation is a prefix of the original and agrees with it up to the limit |
| LimitPushdown.OpLimited | src/optimize/limit_pushdown.cpp:101-110 | the first n rows of a union or sorted merge depend only on the first n rows of each input |
| LimitPushdown.LimitedMeaning | src/optimize/limit_pushdown.cpp:101-110 | capping all inputs of a union or sorted merge keeps its first rows and keeps merge inputs sorted |
| LimitPushdown.PushProjection | src/optimize/limit_pushdown.cpp:56-71 | a limit commutes with a projection |
| LimitPushdown.PushUnary | src/optimize/limit_pushdown.cpp:73-99 | limit over sort is a top-k; limits over limits and top-ks take the smaller count |
| LimitPushdown.PushNary | src/optimize/limit_pushdown.cpp:101-110 | a limit over a union or merge of capped inputs denotes the same rows |
| LimitPushdown.PushdownMeaning | src/optimize/limit_pushdown.cpp:18-110 | the pass gives every sound tree the same columns and the same row sequence |
| LimitPushdownPass.EnsureLimited | src/optimize/limit_pushdown.cpp:31-54 | lowers an existing limit or top-k or wraps the node; unreported, the node is unchanged |
| LimitPushdownPass.PushLimit | src/optimize/limit_pushdown.cpp:56-110 | one step at a limit; unreported, the node is unchanged |
| LimitPushdownPass.Visit | src/optimize/limit_pushdown.cpp:18-29 | the visit is the pass; when it reports no change the tree is as it was |
| ScalarSimplify.SimplifyCallRight | src/optimize/scalar_simplify.cpp:53-84 | each rule on calls keeps the value on a row where types and boolean operands are as declared, and the result is proper again |
| ScalarSimplify.SimplifyCallExactly | src/optimize/scalar_simplify.cpp:22-84 | a rule on calls keeps the outcome, value or failure, on exactly the rows where a kept boolean operand is a boolean or fails, a dropped operand would not have failed, the arguments before a failing one of coalesce are null, and a cast value has its declared type |
| ScalarSimplify.DroppedNullHidesFailure | src/optimize/scalar_simplify.cpp:22-38 | a null and the constant false fail, and are simplified to false |
| ScalarSimplify.FoldArgsRight | src/optimize/scalar_simplify.cpp:86-133 | dropping nulls, repetitions and everything after the first other constant keeps the first result that is not null, be it a value or an outcome |
| ScalarSimplify.SimplifyCoalesceRight | src/optimize/scalar_simplify.cpp:86-133 | a simplified coalesce has the value of the original |
| ScalarSimplify.SimplifyCoalesceOutcome | src/optimize/scalar_simplify.cpp:86-133 | on every row the simplified coalesce has the outcome of the original, value or failure |
| ScalarSimplify.OptimizeCoalesce | src/optimize/scalar_simplify.cpp:86-133 | the argument loop computes the simplified coalesce and reports a change if and only if the result differs |
| ScalarSimplify.RewriteRight | src/optimize/scalar_simplify.cpp:135-146 | rewriting a whole scalar, parts first, keeps its value and leaves it fit to be rewritten again |
| ScalarPasses.RewriteTree | src/optimize/scalar_simplify.cpp:135-157 | rewriting the scalars of every node keeps the rows of the tree, sort orders, join keys and group keys included |
| ScalarPasses.SimplifyScalarsMeaning | src/optimize/scalar_simplify.cpp:150-157 | the pass keeps columns and rows of every sound tree whose scalars are proper on the rows they see |
| ScalarPassesRun.OptimizeCall | src/optimize/scalar_simplify.cpp:53-84 | the mutating form of the call rules, reporting every change |
| ScalarPassesRun.SimplifyBinaryCall | src/optimize/scalar_simplify.cpp:22-38 | the loop over the two operands stops at the first boolean constant |
| ScalarPassesRun.VisitScalar | src/optimize/scalar_simplify.cpp:135-146 | parts are rewritten before the whole; unreported, the scalar is unchanged |
| ScalarPassesRun.VisitOp | src/optimize/scalar_simplify.cpp:135-146 | every scalar of an operator is rewritten, aggregate arguments and group keys included |
| ScalarPassesRun.Visit | src/optimize/scalar_simplify.cpp:150-157 | the visit is the pass; when it reports no change the tree is as it was |
| ScalarSimplify.FoldCallRight | src/optimize/const_scalar_fold.cpp:23-51 | a call of constants folds to the constant it evaluates to |
| ScalarPasses.FoldConstantsMeaning | src/optimize/const_scalar_fold.cpp:53-75 | constant folding keeps columns and rows of every sound tree, and its scalars proper |
| Outcomes.RunGives | src/back/exec/expr/BinaryFnScalar.h:23-25 | a scalar that is evaluated without a failure has the value of its denotation |
| Outcomes.RunAgree | src/back/exec/expr/BinaryFnScalar.h:23-25 | whether it fails, and its value, depend only on the fields it reads |
| Outcomes.BinaryOutcome | src/core/function/build/And.h:8-10 | both operands are evaluated first; the right value is read as a boolean only when the left one does not decide |
| ScalarSimplify.ProperRuns | src/core/function/build/And.h:8-10 | on a row where types, boolean operands and calls are in order, a scalar does not fail |
| Standards.FiltersDecide | src/back/exec/phys/ops/Filter.h:22-34 | no filter of a good tree fails on a row of its source |
| Standards.ConditionDecides | src/back/exec/phys/ops/Filter.h:22-34 | a condition all of whose conjuncts are booleans is one |
| RelationSimplify.ForwardedRow | src/optimize/relation_simplify.cpp:22-42 | a forwarding projection rebuilds each row of its source |
| RelationSimplify.ForwardingMeaning | src/optimize/relation_simplify.cpp:44-50 | removing a forwarding projection keeps columns and rows |
| RelationSimplify.ConstFilterMeaning | src/optimize/relation_simplify.cpp:52-67 | a true filter is its source, any other constant filter is empty |
| RelationSimplify.FlattenedMeaning | src/optimize/relation_simplify.cpp:69-83 | inputs of nested unions, spliced in place, give the same rows in the same order |
| RelationSimplify.SimplifyNodeMeaning | src/optimize/relation_simplify.cpp:44-83 | every step keeps columns and rows |
| RelationSimplify.FlattenUnion | src/optimize/relation_simplify.cpp:69-83 | the loop over the sources computes the flattened union; unreported, the union is unchanged |
| RelationSimplify.Simplify | src/optimize/relation_simplify.cpp:85-97 | one step, unreported only when nothing changed |
| EmptyPrune.NonEmptyRows | src/optimize/empty_relation_prune.cpp:39-65 | leaving out empty inputs does not change the rows of a union |
| EmptyPrune.UnionMeaning | src/optimize/empty_relation_prune.cpp:39-65 | a union of no input, one input or several non-empty inputs keeps its rows |
| EmptyPrune.MergeMeaning | src/optimize/empty_relation_prune.cpp:67-86 | a sorted merge with an empty side is the other side |
| EmptyPrune.NoRows | src/optimize/empty_relation_prune.cpp:24-121 | the operators that are pruned yield no row when the input that matters has none, or the count is zero |
| EmptyPrune.PruneNodeMeaning | src/optimize/empty_relation_prune.cpp:24-121 | every pruning step keeps columns and rows |
| EmptyPrune.PruneNodeNormal | src/optimize/empty_relation_prune.cpp:123-135 | a node with unprunable inputs becomes a tree in which nothing can be pruned |
| EmptyPrune.NormalNoZero | src/optimize/empty_relation_prune.cpp:88-100 | such a tree holds no top-k and no limit with count zero |
| EmptyPrune.PruneUnion | src/optimize/empty_relation_prune.cpp:39-65 | the loop over union sources, with its three outcomes |
| EmptyPrune.Prune | src/optimize/empty_relation_prune.cpp:24-135 | one step, unreported only when nothing changed |
| AggregateRewrites.FoldAggregateMeaning | src/optimize/const_aggregate_fold.cpp:21-74 | a non-null count, minimum or maximum of a constant folds to an aggregate of equal value over any rows, none included |
| AggregateRewrites.FoldNodeMeaning | src/optimize/const_aggregate_fold.cpp:76-98 | folding the aggregates of a node keeps its rows, per group as well |
| AggregateRewrites.FoldAll | src/optimize/const_aggregate_fold.cpp:76-98 | the loop over aggregates, reporting every fold |
| AggregateRewrites.DeduplicatedCovers | src/optimize/aggregate_deduplicate.cpp:31-52 | each aggregate has a kept one that computes the same and whose output is its column; kept outputs stay distinct |
| AggregateRewrites.ForwardedAggregates | src/optimize/aggregate_deduplicate.cpp:31-52 | reading the kept aggregates through the forwarding projection gives the row of all aggregates |
| AggregateRewrites.GroupsForwarded | src/optimize/aggregate_deduplicate.cpp:60-83 | the same for every group, with the group keys passed on |
| AggregateRewrites.DeduplicateNodeMeaning | src/optimize/aggregate_deduplicate.cpp:22-86 | computing equal aggregates once and forwarding their value keeps columns and rows |
| AggregateRewrites.DeduplicateAll | src/optimize/aggregate_deduplicate.cpp:31-52 | the loop with its table from aggregate to column computes the kept aggregates and the columns; keeping all means unchanged |
| AggregateRewrites.Deduplicate | src/optimize/aggregate_deduplicate.cpp:22-99 | one step, unreported only when nothing changed |
| ProjectionCollapse.CollapseMeaning | src/optimize/projection_collapse.cpp:83-94 | evaluating a collapsed scalar on an input row is evaluating the outer scalar on the row of the inner projection: fields are substituted simultaneously |
| ProjectionCollapse.CollapseFits | src/optimize/projection_collapse.cpp:83-94 | a collapsed scalar reads only fields of the inner source |
| ProjectionCollapse.CloneScalarView.Visit | src/optimize/projection_collapse.cpp:24-63 | a visit adds exactly the clone of the visited scalar to the address-keyed table, so the check for a duplicate entry cannot fail |
| ProjectionCollapse.CloneScalarView.VisitArgs | src/optimize/projection_collapse.cpp:71-79 | arguments are cloned and taken out again, leaving the table as it was |
| ProjectionCollapse.CloneScalarView.Clone | src/optimize/projection_collapse.cpp:52-55 | after a clone the table is empty again, so one inner scalar can be cloned any number of times |
| ProjectionCollapse.CollapseProjectors | src/optimize/projection_collapse.cpp:130-138 | the loop over outer projectors computes the composed projection |
| ProjectionCollapse.ComposedRows | src/optimize/projection_collapse.cpp:106-163 | projecting twice is projecting once by the composed scalars, row by row |
| ProjectionCollapse.CollapseNodeMeaning | src/optimize/projection_collapse.cpp:106-163 | a projection over a projection may be replaced by their composition |
| ProjectionCollapse.Optimize | src/optimize/projection_collapse.cpp:106-163 | composes unless that is estimated to cost more than both projections and the row between them |
| RelationPasses.BottomUpMeaning | src/optimize/optimize.cpp:20-34 | relation simplification, aggregate folding and deduplication, projection collapse and empty pruning each keep columns and rows of every sound tree |
| RelationPasses.PrunedNormal | src/optimize/optimize.cpp:20-34 | after the last pass nothing is left to prune |
| RelationPasses.NoZeroCountLeft | src/optimize/optimize.cpp:20-34 | after the last pass no top-k or limit of nothing is left, and running it again changes nothing |
| RelationPasses.Visit | src/optimize/optimize.cpp:20-34 | inputs are visited before the node; when no change is reported the tree is as it was |
| ScalarCost.ScalarCostEstimator.Visit | src/optimize/ScalarCostEstimator.h:20-32 | the walk over a scalar, its cost and the cached expressions it met |
| ScalarCost.ScalarCostEstimator.EstimateScalar | src/optimize/ScalarCostEstimator.h:102-109 | the total grows by the cost of each estimated scalar |
| ScalarCost.EstimateIs | src/optimize/ScalarCostEstimator.h:20-109 | the cost of a scalar is a lookup for each use of a cached expression plus, once each, the expressions not met before |
| ScalarCost.ScopeCostIs | src/optimize/ScalarCostEstimator.h:102-109 | the cost of a scope in closed form: every distinct cached expression is paid once |
| ScalarCost.CachedSmaller | src/optimize/ScalarCostEstimator.h:20-32 | no expression is cached inside itself |
| ScalarCost.EstimateScope | src/optimize/scalar_cache.cpp:88-101 | the cost of a scope is the sum of its estimates, in order, with one memory of cached expressions |
| ScalarCache.StripFree | src/optimize/scalar_cache.cpp:19-30 | stripping removes all cache nodes, and nothing from a scalar without any |
| ScalarCache.StripEval | src/optimize/scalar_cache.cpp:19-30 | cache nodes do not change the value of a scalar |
| ScalarCache.EstimateFree | src/optimize/scalar_cache.cpp:108-113 | in a stripped scope the cost of an expression does not depend on what was estimated before |
| ScalarCache.StripCacheExpr | src/optimize/scalar_cache.cpp:63-86 | wrapping an expression changes nothing but cache nodes |
| ScalarCache.ExpressionCollector.Visit | src/optimize/scalar_cache.cpp:38-61 | the collector counts every occurrence of every expression |
| ScalarCache.CollectRepeated | src/optimize/scalar_cache.cpp:112-121 | each collected expression has its exact number of occurrences and its cost, dearest first |
| ScalarCache.BuildCache | src/optimize/scalar_cache.cpp:108-140 | the wrappings that are kept change only cache nodes and never raise the cost |
| ScalarCache.UpdateCache | src/optimize/scalar_cache.cpp:148-164 | a rebuilt scope is taken only at a strictly lower cost, and a change is reported if and only if it is taken |
| ScalarCache.Visit | src/optimize/scalar_cache.cpp:166-195 | every scope of the tree is the old one but for cache nodes, and strictly cheaper where it differs |
| ScalarCache.RecachedMeaning | src/optimize/scalar_cache.cpp:166-195 | whatever was cached or no longer is, the tree has the same columns and rows |
| LazyScalars.ScalarContext.AddSlot | src/back/exec/expr/ScalarContext.h:15-19 | a new slot is empty and gets the next number |
| LazyScalars.ScalarContext.Reset | src/back/exec/expr/ScalarContext.h:23-27 | a reset empties every slot |
| LazyScalars.ScalarScope.SlotOf | src/back/exec/plan/plan.cpp:35-43 | structurally equal expressions share a slot, different ones do not |
| LazyScalars.PlanScalar | src/back/exec/plan/plan.cpp:524-568 | a planned scalar has the shape of the original, with a slot for each cached expression, nested ones included |
| LazyScalars.ExpressionList | src/back/exec/plan/plan.cpp:608-616 | the same for a list planned in one scope |
| LazyScalars.EvalLazy | src/back/exec/expr/LazyScalar.h:19-25 | a lazy scalar gives the value of its expression, computing it only while its slot is empty |
| LazyScalars.EvalPlan | src/back/exec/expr/LazyScalar.h:19-25 | evaluating a planned scalar gives the value of the plain one whatever slots are filled, at no more than its flat cost plus the expressions computed for the first time |
| LazyScalars.Fill | src/back/exec/expr/LazyScalar.h:19-25 | filling a slot keeps every filled slot right and pays for the expression once |
| LazyScalars.EvalFirst | src/back/exec/expr/CoalesceScalar.h:23-30 | coalesce stops at the first non-null argument; what it skipped is never charged |
| CachedOperators.Projection.Consume | src/back/exec/phys/ops/Projection.h:23-42 | each row is projected with freshly emptied slots, null where no consumer needs a column, within the estimated cost |
| CachedOperators.ProjectRows | src/back/exec/phys/ops/Projection.h:23-42 | projecting all rows through shared slots is the projection the relation means |
| CachedOperators.WithinEstimate | src/back/exec/phys/ops/Projection.h:23-42 | the work on one row is at most the estimated cost of the scope |
| CachedOperators.FilterRows | src/back/exec/phys/ops/Filter.h:22-34 | filtering all rows through shared slots keeps exactly the rows the relation keeps |
| MergeSpec.DrainMid | src/back/exec/phys/ops/MergeSorted.h:128-157 | draining both buffers keeps the order of every input and leaves at most one buffer non-empty |
| MergeSpec.DrainSideMid | src/back/exec/phys/ops/MergeSorted.h:159-174 | draining one side after the other ended |
| MergeSpec.DrainRecordMid | src/back/exec/phys/ops/MergeSorted.h:176-207 | placing a new record against the buffer of the other side |
| MergeSpec.HeadMayEmit | src/back/exec/phys/ops/MergeSorted.h:138-139 | the head chosen by the comparison of either direction may be emitted next |
| MergeSpec.StepInv | src/back/exec/phys/ops/MergeSorted.h:54-110 | every call of either side keeps the invariant: one buffer empty at rest, every emitted key before every buffered or future one |
| MergeSpec.RunInv | src/back/exec/phys/ops/MergeSorted.h:54-110 | the invariant holds after every schedule of calls |
| MergeSpec.HistoryPrefix | src/back/exec/phys/ops/MergeSorted.h:54-110 | the emitted keys are the first keys of the merge the relation stands for |
| MergeSpec.EveryRunIsSorted | src/back/exec/phys/ops/MergeSorted.h:54-110 | in every run, ascending or descending, whatever subscribers accept, the rows interleave both inputs in order; if the inputs are sorted, so are the rows, and their keys are the first keys of the merge |
| MergeSpec.EveryFinishedRun | src/back/exec/phys/ops/MergeSorted.h:54-110 | when both sides have been stopped the operator is back in its initial state, and either emitted both inputs, sorted or not, and exactly one end of stream, with the keys of the merge if they are sorted, or was refused and emitted none |
| MergeSpec.EarlyStop | src/back/exec/phys/ops/MergeSorted.h:57-61 | once refused it emits nothing more, and the next call of the other side returns false and resets the state |
| MergeSpec.EveryInputStops | src/back/exec/phys/ops/MergeSorted.h:78-78 | a side that makes one call more than it has rows is told to stop |
| MergeSpec.EntryChecksHold | src/back/exec/phys/ops/MergeSorted.h:57-63 | the debug checks on entry hold in every run |
| MergeOperator.MergeSorted.Consume | src/back/exec/phys/ops/MergeSorted.h:54-110 | the class with its two queues does exactly what the state machine does |
| MergeOperator.MergeSorted.Drain | src/back/exec/phys/ops/MergeSorted.h:128-157 | the drain loop over both queues |
| MergeOperator.MergeSorted.DrainSide | src/back/exec/phys/ops/MergeSorted.h:159-174 | the drain loop over one queue |
| MergeOperator.MergeSorted.DrainRecord | src/back/exec/phys/ops/MergeSorted.h:176-207 | the loop that places one record |
| MergeOperator.MergeSorted.Terminate | src/back/exec/phys/ops/MergeSorted.h:213-223 | either both sides have ended and the state is initial, or the other side is asked to stop |
| MergeOperator.MergeSorted.Reset | src/back/exec/phys/ops/MergeSorted.h:227-231 | the initial state again |
| MergeArrivals.EveryMerge | src/back/exec/phys/ops/MergeSorted.h:54-110 | what any schedule of calls makes the merge emit before its end is an interleaving of its inputs, sorted if they are |
| LimitOperator.Limit.Consume | src/back/exec/phys/ops/Limit.h:17-36 | the countdown operator does what the limit machine does, for any number of subscribers any of which may leave at any call |
| LimitOperator.LimitHeard | src/back/exec/phys/ops/Limit.h:17-36 | after any rows each subscriber has heard, as far as it wanted to, the first `limit` of them and, as soon as there were that many, one end of stream |
| LimitOperator.LimitHeardEnd | src/back/exec/phys/ops/Limit.h:17-20 | at the end of input each subscriber that still listens has heard the first rows and one end of stream |
| LimitOperator.LimitReceives | src/back/exec/phys/ops/Limit.h:17-36 | after any rows the writer has the first `limit` of them and, as soon as there were that many, exactly one end of stream |
| LimitOperator.LimitEnd | src/back/exec/phys/ops/Limit.h:17-20 | at the end of input the writer has the first rows and exactly one end of stream |
| LimitOperator.LimitedMerge | src/back/exec/phys/ops/Limit.h:17-36 | a whole run of a sorted merge under a limit: rows sorted, keys the first `limit` keys of the merge, one end of stream |
| Cuts.LimitExactly | src/back/exec/phys/ops/Limit.h:17-36 | over rows that may come in any order, such as groups, a limit keeps the same rows if and only if it keeps none or all, or all rows are the same |
| UnionOperator.UnionAll.Consume | src/back/exec/phys/ops/UnionAll.h:25-45 | the class with its flag and its count does what the union machine does |
| UnionOperator.EveryUnion | src/back/exec/phys/ops/UnionAll.h:25-45 | once all inputs were told to stop, an interleaving of all their rows went out and one end after it, or the last row was refused and nothing followed; for any number of inputs and any schedule of calls |
| UnionOperator.EveryInterleaving | src/back/exec/phys/ops/UnionAll.h:25-45 | every interleaving of the inputs is what some schedule emits |
| Cuts.UnionLimitExactly | src/back/exec/phys/ops/UnionAll.h:25-45 | a limit over a union of two inputs keeps the same rows in every run if and only if the rows that may take its last place are the same |
| TopKOperator.TopK.Push | src/back/exec/phys/ops/TopK.h:132-156 | a row is inserted while there is room, replaces a worst kept row only when strictly better, and is skipped otherwise |
| TopKOperator.InsertOk | src/back/exec/phys/ops/TopK.h:133-139 | inserting keeps the queue invariant: kept and dropped rows are all rows seen, and no dropped row beats a kept one |
| TopKOperator.SkipOk | src/back/exec/phys/ops/TopK.h:143-145 | skipping keeps it |
| TopKOperator.ReplaceOk | src/back/exec/phys/ops/TopK.h:147-154 | replacing a worst row keeps it |
| TopKOperator.TopK.Drain | src/back/exec/phys/ops/TopK.h:160-170 | the drained rows are the kept ones, best first |
| TopKOperator.BestAreFirst | src/back/exec/phys/ops/TopK.h:102-188 | the kept keys are the first k keys of all rows sorted, the kept rows a sub-multiset of size min(n, k) |
| TopKOperator.TopK.Consume | src/back/exec/phys/ops/TopK.h:52-91 | records are pushed while someone listens; at the end the best rows go out in order |
| TopKOperator.TopK.Finish | src/back/exec/phys/ops/TopK.h:82-90 | the emitted rows are a prefix of the best rows, all of them and one end of stream unless a subscriber refuses |
| Cuts.CleanCutPermuted | src/back/exec/phys/ops/TopK.h:132-156 | when the last row kept is strictly better than the first left out, every best selection has the same rows |
| Cuts.TopKExactly | src/back/exec/phys/ops/TopK.h:132-156 | whichever ties the heap keeps, it keeps the rows a stable sort puts first, if and only if the cut is clean or all rows tied at the cut are the same |
| Plans.MinPhaseBounds | src/back/exec/plan/plan.cpp:260-517 | an operation runs no earlier than its inputs and strictly after the build side of a join |
| Plans.InputFieldsFit | src/back/exec/plan/plan.cpp:77-178 | the columns asked of an input exist there |
| Plans.AskInput | src/back/exec/plan/plan.cpp:184-191 | a permitted request leads only to permitted requests, so neither check can fail |
| Planning.Requirements.Merge | src/back/exec/plan/plan.cpp:188-189 | requests for one phase add up |
| Planning.Requirements.RequestOutput | src/back/exec/plan/plan.cpp:184-191 | afterwards the request is recorded and everything below is closed under what it needs; operations above are untouched |
| Planning.Requirements.Init | src/back/exec/plan/plan.cpp:77-182 | every input is asked for what one phase needs |
| Planning.Requirements.Query | src/back/exec/plan/plan.cpp:234-240 | a query requires all its columns in its own phase, and the plan stays closed |
| Planning.Requirements.Queries | src/back/exec/plan/plan.cpp:197-204 | after all queries every need is recorded below, and every recorded phase is that of a query or asked for by a reader |
| Lowering.AppendNode | src/back/exec/plan/plan.cpp:211-214 | an operation appended over operations that stand for its inputs stands for the relation |
| Lowering.PlanBuilder.PlanRelation | src/back/exec/plan/plan.cpp:211-522 | planning a relation succeeds exactly when its references are known, and the operation has its columns and rows; shared operations are reused |
| Lowering.ReferenceMeaning | src/back/exec/plan/plan.cpp:519-522 | a reference has the rows of the operation it names |
| Programs.PlanStatements | src/back/exec/plan/plan.cpp:229-240 | every query becomes an operation with the columns and rows of the query |
| Programs.PlanProgram | src/back/exec/plan/plan.cpp:197-204 | planning a program: no check fails, exactly the needed phases are recorded, query operations mean the queries and, in a run in input order, deliver their rows, given that no scan changes its lines and no late aggregate is asked for a value |
| Interpretation.DenoteNamed | src/back/exec/plan/plan.cpp:519-522 | the rows of a relation depend only on the rows of the names it refers to |
| Interpretation.InterpretationExists | src/back/exec/plan/plan.cpp:229-240 | every well-formed program gives its names rows that agree with their definitions |
| Interpretation.InterpretationUnique | src/back/exec/plan/plan.cpp:229-240 | and only one choice of rows does |
| Pruning.PhysAgrees | src/back/exec/phys/build.cpp:24-36 | an operation built with only the required projectors agrees with the full one on the required columns |
| Pruning.LeftJoinAgrees | src/back/exec/phys/build.cpp:177-192 | for a left join, matches and padding included |
| Pruning.GroupAgrees | src/back/exec/phys/build.cpp:105-116 | for groups, whose keys are always computed |
| Pruning.ProjectionAgrees | src/back/exec/phys/build.cpp:225-235 | for projections, whose other slots stay null |
| Pruning.PruningSound | src/back/exec/phys/build.cpp:95-293 | over the whole shared DAG, in every phase of a run in input order, every operation of the pruned plan delivers the rows of the full plan on the required columns, given that scans and late aggregates do |
| Pruning.DeliversExactly | src/back/exec/phys/build.cpp:76-93 | an operation whose inputs deliver what it reads delivers too, if and only if a scan keeps its lines and an aggregate also runs in its own phase, has no input rows, or is asked for none of its values |
| Pruning.PruningExactly | src/back/exec/phys/build.cpp:95-293 | every operation delivers in every phase if and only if that holds of all scans and all aggregates of the plan |
| LateAggregates.AskedLate | src/back/exec/phys/build.cpp:76-93 | an aggregate on the probe side of a semi-join is asked for in the later phase only |
| LateAggregates.CountLost | src/back/exec/phys/build.cpp:76-93 | so a query for a count that is in a list reads a value the aggregate does not have, where it should select the count |
| LateAggregates.PlanCount | src/back/exec/phys/build.cpp:76-93 | the planner does plan that query so |
| Programs.QueriesDelivered | src/back/exec/phys/build.cpp:51-63 | in a run in input order each query operation delivers the rows of its query |
| Building.Builder.Insert | src/back/exec/phys/build.cpp:301-305 | an operation is registered for a phase at most once |
| Building.Builder.Build | src/back/exec/phys/build.cpp:65-74 | after building, an operation is available in each of its phases and its inputs and states are connected |
| Building.Builder.FillStates | src/back/exec/phys/build.cpp:158-211 | hash states and collectors are subscribed to the inputs that fill them |
| Building.Builder.BuildPhases | src/back/exec/phys/build.cpp:95-293 | each phase connects the operation to its inputs in that phase; every lookup finds its operation |
| Building.BuildAll | src/back/exec/phys/build.cpp:51-63 | building all queries of a closed plan fails nowhere |
| Building.StateReadAfterFilled | src/back/exec/phys/build.cpp:158-211 | the phase a state is filled in lies strictly before every phase it is read in |
| Building.JoinRunsAfterBuild | src/back/exec/phys/build.cpp:158-192 | a join runs in no phase before its build side is complete |
| Building.AllBuilt | src/back/exec/phys/build.cpp:51-63 | building the queries builds every operation the planner recorded |
| PhaseRun.BuilderBuilt | src/cli/run.h:84-113 | what the builder leaves is connected as the run needs it |
| PhaseRun.SubscribedExactly | src/cli/run.h:84-113 | an operation was built for exactly the phases somebody subscribed to it in |
| PhaseRun.EmittedRight | src/cli/run.h:84-113 | in every phase of any run every operation emits the rows of the pruned plan for that run, from its inputs in that phase and the states earlier phases filled, none of which it finds unfinished |
| PhaseRun.RunRight | src/cli/run.h:84-113 | when a phase begins, exactly the states filled in earlier phases are filled, and a finished one holds what its input emitted in this run |
| PhaseRun.ReadsFinishedState | src/cli/run.h:84-113 | a state that is read is finished with the rows of this run, always for joins and materializations, and for an aggregate if and only if it also runs in its own phase or its input has no rows; unless an operation below read a missing value |
| PhaseRun.Run | src/cli/run.h:79-113 | running the phases in order, the sink of each query receives the rows of its operation in the pruned plan for this run, whatever the order in which operations leave rows |
| Arrivals.InputOrderHonest | src/cli/run.h:84-113 | emitting in input order, with stable ties and groups in order of appearance, is one of the runs |
| Arrivals.OpPermuted | src/cli/run.h:84-113 | on rearranged inputs whatever an operator other than a limit or top-k may emit is a rearrangement of its rows |
| Deliveries.TurnArranged | src/cli/run.h:84-113 | one operation in one phase of any run: on rearranged inputs it emits the rows of the full plan, rearranged, on the required columns |
| Deliveries.ArrivesExactly | src/cli/run.h:84-113 | in any run whose cuts are settled, an operation whose inputs arrive delivers too, if and only if its scan keeps its lines and its aggregate is not asked for a value it lacks |
| Deliveries.RunArrives | src/cli/run.h:84-113 | in any run, under those conditions, every operation delivers in every phase the rows of the full plan, rearranged, and in order where the order is settled |
| Deliveries.RunExactly | src/cli/run.h:84-113 | a run whose cuts are settled delivers everywhere if and only if that holds of all scans and all aggregates |
| Deliveries.SortedArrives | src/cli/run.h:84-113 | in any run, rows that a sort, a top-k or a merge of sorted rows orders are sorted, through filters, limits, semi-joins and materializations |
| SharedCuts.PhasesDisagree | src/cli/run.h:84-113 | a query over a limit over a union that has a row in a run in input order, and none in a run where two phases see the union in different orders |
| SharedCuts.PlanFirst | src/cli/run.h:84-113 | the planner does plan that query so |
| Deliveries.SortInOrder | src/back/exec/phys/ops/Sort.h:48-86 | when no two keys are equal, the sorted rows are those of the stable sort, however they came |
| Arrivals.GroupsPermuted | src/back/exec/phys/ops/Group.h:34-93 | the groups of rearranged rows are the groups, rearranged, with the same aggregates |
| Arrivals.LeftJoinPermuted | src/back/exec/phys/ops/HashLeftJoin.h:112-133 | joining rearranged sides gives the joined rows, rearranged, unmatched rows included |
| PhaseRun.FeedAllIs | src/back/exec/phys/ops/Aggregate.h:44-65 | a collector sees the end of its input, with every row collected, exactly when it keeps its link or there is no row |
| Pruning.ScanAgrees | src/back/exec/phys/ops/Log.h:35-120 | a log read for some columns agrees with the log read for all when both readings parse, or no line is malformed |
| Pruning.ScanAgreesExactly | src/back/exec/phys/ops/Log.h:35-120 | and only then: otherwise the pruned scan keeps malformed lines that the full scan drops |
| Pruning.MalformedLineCounts | src/back/exec/phys/ops/Log.h:38-50 | one malformed line and a query that needs no column: the pruned scan counts a row the full one drops |
| SearchTimestamp.AfterLastNewline | src/back/exec/phys/log/search/SearchTimestamp.cpp:58-61 | where the last newline of a chunk ends |
| SearchTimestamp.FindLineBegin | src/back/exec/phys/log/search/SearchTimestamp.cpp:36-67 | the begin of the line that contains an offset, for every buffer size |
| SearchTimestamp.ReadLine | src/back/exec/phys/log/search/SearchTimestamp.cpp:69-95 | the text of a line and where the next one begins, for every buffer size |
| SearchTimestamp.ReadLineAt | src/back/exec/phys/log/search/SearchTimestamp.cpp:97-105 | the line that contains an offset |
| SearchTimestamp.SkipsUpTo | src/back/exec/phys/log/search/SearchTimestamp.cpp:136-139 | skipping a line skips every line up to it |
| SearchTimestamp.KeepsFrom | src/back/exec/phys/log/search/SearchTimestamp.cpp:141-144 | keeping a line keeps every line from it on |
| SearchTimestamp.LineWithin | src/back/exec/phys/log/search/SearchTimestamp.cpp:126-144 | the line of an offset between two boundaries lies between them, so the interval shrinks and ends at boundaries |
| SearchTimestamp.BoundLine | src/back/exec/phys/log/search/SearchTimestamp.cpp:113-148 | the begin of the first line not skipped, or none; it fails only on a line without a timestamp |
| SearchTimestamp.LowerBoundLine | src/back/exec/phys/log/search/SearchTimestamp.cpp:152-159 | the begin of the first line stamped `ts` or later, or none |
| SearchTimestamp.UpperBoundLine | src/back/exec/phys/log/search/SearchTimestamp.cpp:161-169 | the begin of the first line stamped later than `ts`, or the end of the file |
| Files.PiecesAppend | src/back/storage/LineSource.cpp:48-101 | newline-terminated pieces can be cut at any line boundary |
| LineSource.FoundInPage | src/back/storage/LineSource.cpp:48-54 | the first newline of a page, as a position of the file |
| LineSource.NextPage | src/back/storage/LineSource.cpp:38-46 | the next page, exactly when it begins before the end of the range |
| LineSource.LaterPages | src/back/storage/LineSource.cpp:52-85 | gathering a line over several pages |
| LineSource.PagedLines | src/back/storage/LineSource.cpp:19-102 | the lines delivered for a range, for every page size |
| LineSource.DeliveredIs | src/back/storage/LineSource.cpp:48-101 | they are the newline-terminated pieces of the range, and possibly the line that crosses its end |
| LineSource.ExactUnlessOverrun | src/back/storage/LineSource.cpp:48-101 | they are exactly the pieces if and only if no such line ends in a later page that begins before the end |
| LineSource.ExactOnLineRanges | src/back/storage/LineSource.cpp:48-101 | which never happens when the range ends after a newline or with the file |
| LineSource.OverrunExample | src/back/storage/LineSource.cpp:66-72 | a range that ends inside a line can deliver that line whole |
| LineSource.ReadChunk | src/back/storage/LineSource.cpp:131-150 | one chunk completes the partial line, yields whole lines and keeps the rest |
| LineSource.StreamLines | src/back/storage/LineSource.cpp:109-152 | for every sequence of chunk sizes, the pieces and then the tail if it is not empty |
| LineSource.ReadersAgree | src/back/storage/LineSource.cpp:19-152 | both readers yield the same lines of a whole file if and only if its last line is terminated |
| LogRange.RangeIsFilter | src/back/exec/phys/log/log.cpp:67-75 | the lines from the lower to the upper bound are those in the time range, the empty-range reset included |
| LogRange.FileRange | src/back/exec/phys/log/log.cpp:57-82 | the byte range ends at a line boundary, and in a stamped and sorted file holds exactly the lines in the time range |
| LogRange.ScanRange | src/back/exec/phys/log/log.cpp:57-82 | a time-range scan gives the lines of the whole file filtered by timestamp, in order, for every buffer and page size |
| Sinks.NotifyOrdered | src/util/sinks.cpp:51-67 | a notification flushes a run of finished sinks up to one that still consumes, which becomes ready |
| Sinks.StepOrdered | src/util/sinks.cpp:21-67 | any enabled event keeps the sinks complete, then one ready, then waiting, with the complete blocks in the stream |
| Sinks.RunOrdered | src/util/sinks.cpp:21-67 | in every run in keep-order mode |
| Sinks.AllInQueryOrder | src/util/sinks.cpp:21-67 | when all have finished, in any order, the stream is the concatenation of all blocks in query order |
| Sinks.AllInDoneOrder | src/util/sinks.cpp:21-67 | without keep-order it is the concatenation in the order they finished |
| Sinks.NoPanic | src/util/sinks.cpp:35-37 | no schedule reaches the invalid state |
| OrderedSinks.OrderedSink.Done | src/util/sinks.cpp:21-38 | a linked sink does what the model does, or refuses when it is already done |
| OrderedSinks.OrderedSink.PrevComplete | src/util/sinks.cpp:51-67 | the chained notification, sink by sink |
| OrderedSinks.OrderedSink.Flush | src/util/sinks.cpp:40-43 | the buffer goes to the stream and is emptied, as in the model |
| OrderedSinks.AddSink | src/cli/run.h:169-180 | a sink is linked behind the last one and waits in keep-order mode unless it is the first |
| OrderedSinks.AddSinks | src/cli/run.h:185-196 | the chain starts in the initial state of the model |
| OrderedSinks.Play | src/cli/run.h:183-202 | any schedule played on the linked sinks writes what the model says |
| Macros.SubstituteCalls | src/front/sql/bind/expand_macros.cpp:19-47 | substitution brings in no call that is not in the body or an argument |
| Macros.ExpandMeaning | src/front/sql/bind/expand_macros.cpp:103-138 | expansion succeeds if and only if every call is a built-in function or a macro with as many arguments as parameters; afterwards only built-in calls are left, subqueries included |
| Macros.FirstDuplicate | src/front/sql/bind/expand_macros.cpp:88-94 | none exactly when parameter names are distinct |
| Macros.FirstUnknown | src/front/sql/bind/expand_macros.cpp:49-72 | none exactly when a body mentions only parameters outside subqueries |
| Macros.DefineMeaning | src/front/sql/bind/expand_macros.cpp:78-101 | a definition is accepted if and only if its name is new and not built in, parameters are distinct, the body mentions only them and calls only earlier macros and built-in functions; stored bodies stay expanded |
| Macros.ExpandBodyOk | src/front/sql/bind/expand_macros.cpp:96-100 | expanding a body brings in no identifier that is not a parameter |
| Macros.SubstituteMeaning | src/front/sql/bind/expand_macros.cpp:19-31 | evaluating a substituted body is evaluating the body with parameters bound to the values of the arguments: parallel, capture-free substitution |
| Macros.ExpansionKeepsMeaning | src/front/sql/bind/expand_macros.cpp:103-138 | an expanded expression evaluates like the original with macros read as functions of their written bodies |
| Macros.MacroExpander.DefineMacro | src/front/sql/bind/expand_macros.cpp:78-101 | the stored definitions grow by one, or stay as they are and the first error is returned |
| Macros.ProgramMeaning | src/front/sql/bind/expand_macros.cpp:145-160 | an expanded program calls built-in functions only |
| Macros.ExpandMacros | src/front/sql/bind/expand_macros.cpp:145-160 | the statement loop expands queries under the definitions before them and stops at the first error |
| Sorting.SortSorted | src/back/exec/phys/ops/Sort.h:59-70 | sorting gives a sequence ordered by key in the requested direction |
| Sorting.SortMultiset | src/back/exec/phys/ops/Sort.h:59-70 | of the same rows |
| Sorting.SameKeys | src/back/exec/phys/ops/Sort.h:59-70 | two sorted arrangements of the same rows have the same keys, which is how unstable sorts and heaps relate to the relation |
| Sorting.FilterSort | src/optimize/filter_pushdown.cpp:171-175 | sorting commutes with filtering, ties in place |
| Sorting.FilterMerge | src/optimize/filter_pushdown.cpp:118-124 | merging two sorted inputs commutes with filtering |
| Sorting.TakeMerge | src/optimize/limit_pushdown.cpp:107-110 | the first n rows of a merge are determined by the first n rows of each input |

## Left out

- In-place overwriting of IR nodes: the C++ moves uniquely owned boxes into one another; passes here take and return trees,
  and only the change flag, the collectors and the clone table are mutable state.
- Pointer identity: plan operations are indices into a sequence, addresses of scalars are paths from the root, and the
  per-pointer costs of the estimator are the costs of the scalars themselves, which agree on stripped scopes.
- Order of the denotation: a stable sort, a merge that prefers its left input, unions in input order and groups in order of
  first appearance. A run may leave rows in another order; how its rows relate to the denotation is said in `Deliveries`.
- Convergence: that rounds reach a program they leave unchanged is not claimed.
- Pruning.PruningSound: assumes `ScansOk` and `AggregatesKept`, which by `PruningExactly` is exactly when the code is right.
- Programs.QueriesDelivered: assumes the same two conditions, since the code loses rows or values without them.
- Programs.PlanProgram: delivers queries under the same two conditions.
- Pipeline.CompileProgram: delivers queries under the same two conditions, in a run in input order; other runs are the subject
  of `Pipeline.RunProgram`.
- Deliveries.RunArrives: for a whole run `CutsSettled` and `Settled` are sufficient, not exact: a limit or an order is taken as
  settled by the shape of the plan and by keys and row counts. Single cuts have exact conditions in `Cuts`.
- Pipeline.RunProgram: delivers queries under the same two conditions, and in runs that are not in input order under
  `CutsSettled`, since the code keeps other rows without it.
- FilterPushdown.SplitMeaning: is about values; failing conjuncts are the subject of `FilterOutcomes.SplitDecidesExactly`.
- FilterPushdown.AddFilterMeaning: is about values; failing conjuncts are the subject of `FilterOutcomes.AddFilterGood`.
- FilterPushdown.PushdownMeaning: is about values; failing conjuncts are the subject of `FilterOutcomes.PushdownGood`.
- RelationSimplify.ConstFilterMeaning: treats a constant condition that is not a boolean as false, where the C++ throws while
  it optimizes.
- Planning records the needs of all queries after all relations are planned, while the code interleaves the
  two; neither step reads what the other writes.
- Operations of one phase exchange whole streams in `PhaseRun`, whose order the run decides. That a subscriber leaves early is
  modelled for the collectors of aggregates, which lose rows by it, and in the operators themselves.
- Max phases, operation ids, profiling scopes, edges, notes and reports of the optimizer.
- Hash tables of the join build sides: a semi- or mark-join matches against the set of slot 0 of its match rows, a left
  join against the right rows in order; probing row by row is not modelled.
- Sort, group and aggregate operators as push operators, materialization buffers and value sources.
- Executors, regular expressions, timestamp parsing, JSON access, log formats and log type detection: a timestamp search is
  a parameter that may find nothing in a line.
- Files are byte sequences read in full; short reads, I/O errors, memory mapping, archives and child processes are absent.
- Thread pool scheduling, except that sink events, calls of merges and unions, and what the operations of a run emit come in
  any order the locks and barriers allow.
- SimpleSink, output formats, the command line, lexer, parser, binder and the lowering from syntax to IR, apart from macros.
- Source spans of macro errors; statements are a sequence of definitions and queries, and the parts of a query in which
  macros can occur are kept without their clause names.
- Macros.SubstituteMeaning: covers bodies without subqueries, for the reason given next.
- Macros.ExpansionKeepsMeaning: covers expressions and bodies without subqueries, because a subquery in a body can capture
  names of its own relation; that no macro call survives holds inside subqueries too.
