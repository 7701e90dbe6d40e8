# FinA core: scheduler kernel, staged driver, ETL engine, process scheduler

A Dafny 4.11 model of the three cores of the repository, with proofs about every
run, every input and every config. Check it with `dafny verify dfyconfig.toml`.

**Scheduler kernel** (`src/scheduler.rs`). `Kernel.Step` is what one actor message, or
the tick, does to the registry, the priority heap with its stale entries, the delayed
list, the slot counter, the append-only id index and the patched snapshot.
`Actor.SchedulerActor` is the actor itself: a class whose handlers change those fields
in place, each proved to be one `Step`. The run theorems (invariants, slot accounting,
priority order, retry cap and delay, recovery, the record and the hooks of one task) are
about every sequence of messages.

**Staged driver** (`src/etl_sched.rs`). `StagedRun.Sys` is the driver, the mailbox, the
kernel and the worker threads; a run is any interleaving of delivering mail, ticking,
workers reporting, the driver sending and polling. `Planning` is config expansion with
its loops, `PlanMeaning` what it comes to in terms of the config alone, and `Fanout`,
`FanoutTheorems`, `FanoutRows` and `FanoutExamples` the splitting of a pipeline over
the values of a field.

**ETL engine** (`src/lazy.rs`, `src/plazy.rs`, `src/columnar.rs`, `src/store.rs`). The
record splitter, the expression compiler (a class with a cursor), the path walkers, the
evaluator, the filters of products and the conditions of unwind rules, the fused scan,
columns and partitioned writing. JSON is read back by readers that follow RFC 8259
(section 2 structure, section 4 objects, section 5 arrays, section 7 strings).

**Process scheduler** (`python/fina_core/process_scheduler.py`). A class whose run loop
is re-entered when handlers wake declared threads, which may make further threads of the
same name.

Each imperative member is proved equal to a function (or to an explicit property), and
the lemmas about that function say what it means. Where a claim is false of the code,
the exact condition is proved instead, or a concrete run that breaks it is exhibited:

- a restore that names a Running task leaks its slot: the drift law gives the exact
  count, and the counter is exact if and only if no restore ever does so;
- a restore that changes the priority of a known task leaves its old queue entries behind:
  a restore keeps every entry at its task's priority if and only if the last row of each
  task agrees with the entries the task still owns and with its earlier live rows, and a
  reachable state can dispatch out of order later if and only if some entry in it is not
  at its task's priority;
- `retries == 0` becomes a cap of 0, which the kernel reads as no cap: a plan is sure to
  end if and only if `retries > 0` or it has no task;
- a restore forgets that a resumed task was still waiting to be resumed and starts it
  again: with a cap of m, the starts before a crash and after it stay within m if and only
  if the saved row is not such a one or a start was lost before, and m + 1 is never
  exceeded;
- a retry waits for its delay if and only if the task owns no other entry that comes up
  before;
- an id planned twice in a stage is started once, for the first task that has it: a run
  that ends ok has run every planned payload if and only if no stage repeats an id with
  another payload;
- fan-out, of unwound and plain datasets alike, conserves rows if and only if the text the
  filter tests is in exactly one chunk for every row (`universe_values` does not remove
  duplicates, so a value can straddle two chunks), and keeps their order if and only if,
  besides, the chunks of the rows ascend; when an unwind alias has the field's name the
  filter tests the unwound elements, and a fan-out over distinct values can lose every row;
- the injected filter is the intended test if and only if the field is one key; with a
  blank in its name, which `parse_partition` accepts, every task makes the same rows;
- the text walker `resolve_path` agrees with the compiled path on every record if and
  only if no key of the path reads as an array index;
- the word `contains` is looked up in a trimmed condition that is then cut untrimmed, so
  such a condition with one to eight blanks in front never holds;
- the pair filter takes quotes off its right side only, so a quoted text on the left of an
  equality matches no value without quotes, and on the left of `contains` it lets every
  pair through;
- the record splitter cuts an array at its elements if and only if all of them are in
  brackets: scalars, and all that follows them, are cut otherwise;
- `to_json_string` of a string escapes nothing, so its text is JSON for that string if
  and only if the string has no quote, backslash or control character;
- a partitioned write leaves every row on disk if and only if some column is not a
  partition column and no two different keys of the table share a directory, since the
  later file replaces the earlier; with one partition column no two keys can, with more
  some can for any base and names, and none without slashes in names and values; without
  slashes the directories also give the texts of the partition cells back, but a null
  cannot be told from the text `__HIVE_DEFAULT_PARTITION__`;
- the run of a process ends if and only if the wakes between the names that can run go
  round in no circle.

The documentation calls a cast a typed coercion; the code leaves a signed integer that is
cast to a string as it is, and so does the model. The documentation says `reschedule`
moves only running or pending tasks; the code looks at no state and revives terminal ones,
and so does the model. A source comment says that either side of a pair filter may be
compared to a literal; the code does so only for the right side, and so does the model.

## Model

| member | source | states |
|---|---|---|
| KernelInvariants.DispatchKeepsCore | src/scheduler.rs:512-558 | whatever the queue holds, stale entries included, filling the free slots keeps the snapshot equal to the registry, loses no pending task, keeps entry orders distinct, leaves no slot idle beside a waiting entry, and keeps the slot drift |
| KernelInvariants.HandleKeepsCore | src/scheduler.rs:677-910 | every handler's edit keeps the same invariant and changes the drift by exactly the running tasks a restore overwrites |
| KernelInvariants.StepKeepsValid | src/scheduler.rs:454-613 | one message keeps: snapshot is the registry in row order with an exact index, each pending task owns a queue or delayed entry, full slots or an empty queue; the counter drifts by exactly what a restore leaks |
| KernelRuns.RunKeepsValid | src/scheduler.rs:677-910 | the invariant over every run from any valid state |
| KernelRuns.SlotAccounting | src/scheduler.rs:512-613 | after every run the slot counter is the number of running tasks plus the slots leaked by restores, and equals it exactly if and only if no restore ever named a running task |
| KernelRuns.FreeSlotMeansNoPending | src/scheduler.rs:512-558 | work conservation: with nothing delayed, a free slot means that no task is pending |
| KernelRuns.StepKeepsRows | src/scheduler.rs:454-464 | no step moves or drops a row, and the counter never rises while at or above the limit |
| KernelRuns.RowsNeverMove | src/scheduler.rs:454-464 | a task's row position is the same for the whole run |
| KernelRuns.NeverOverSlots | src/scheduler.rs:512-558 | while the limit stands, no run ever counts more than `slots` running tasks |
| KernelRuns.LimitIsLastSet | src/scheduler.rs:904-910 | the limit is the last one set, and at least one slot |
| KernelRuns.CountsAgree | src/scheduler.rs:1015-1029 | counting snapshot rows per state counts the registry, each task once |
| Actor.SchedulerActor.Counts | src/scheduler.rs:1015-1029 | the five totals are the registry's set sizes, though read off the snapshot |
| Actor.SchedulerActor.FillSlots | src/scheduler.rs:512-558 | the dispatch loop, in place, is the kernel's dispatch |
| Actor.SchedulerActor.HandleStart | src/scheduler.rs:677-709 | one kernel step; a known id is ignored |
| Actor.SchedulerActor.HandlePause | src/scheduler.rs:711-743 | one kernel step; the invariant is kept |
| Actor.SchedulerActor.HandleResume | src/scheduler.rs:745-765 | one kernel step; the invariant is kept |
| Actor.SchedulerActor.HandleKill | src/scheduler.rs:589-613 | one kernel step; terminal tasks are left alone |
| Actor.SchedulerActor.HandleFinish | src/scheduler.rs:560-587 | one kernel step; only a running task finishes |
| Actor.SchedulerActor.HandleReschedule | src/scheduler.rs:784-841 | one kernel step, giving up at the cap, requeueing or delaying otherwise, in any state |
| Actor.SchedulerActor.HandleRestore | src/scheduler.rs:863-902 | one kernel step over all restored rows in order |
| Actor.SchedulerActor.HandleTick | src/scheduler.rs:494-510 | one kernel step: due delayed entries join the queue, then slots are filled |
| KernelPriority.DispatchOrder | src/scheduler.rs:151-170 | dispatch takes entries in heap order, and each taken entry pops before each entry left |
| KernelPriority.PriorityThenFifo | src/scheduler.rs:512-558 | with current entries, a dispatched task has a higher priority than any pending task left in the queue, or an equal one and a smaller order |
| KernelPriority.RestoreKeepsIff | src/scheduler.rs:863-902 | from a state whose entries are current, a restore leaves every entry at its task's priority if and only if the last row of each task agrees with the entries the task owns and with its earlier live rows |
| KernelPriority.EveryDispatchInOrder | src/scheduler.rs:512-558 | over whole runs whose restores meet that condition, every dispatch is by priority, then first in first out |
| KernelOrder.OrderExactlyWhenCurrent | src/scheduler.rs:512-558 | in every reachable state: every entry has its task's priority if and only if no continuation that keeps all registered priorities ever dispatches a task ahead of a pending one that outranks it |
| KernelPriority.RestoreCanOvertake | src/scheduler.rs:870-894 | a concrete run in which a restore lowers a priority and the old entry then starts the task before one that outranks it |
| KernelRetry.StepSpends | src/scheduler.rs:784-841 | one message cannot raise a task's starts plus its remaining budget, in any state |
| KernelRetry.RetryCap | src/scheduler.rs:534-554 | a task started with cap m > 0 has its start hook called at most m times over any later messages that do not restore it, and while not killed its attempts stay within m |
| KernelRetry.CapIsReached | src/scheduler.rs:786-815 | the cap is tight: k starts happen for every k up to m, and for every k at all when m is 0 |
| KernelDelay.RetryWaitsIff | src/scheduler.rs:784-841 | a task that failed at time t, to be retried after d, is given no slot by any messages handled before t + d, none of which resumes, fails or restores it, if and only if it owns no other entry in the queue or due before then |
| KernelDelay.DueRetryIsBack | src/scheduler.rs:494-510 | whatever is handled before t + d, if the task still waits, a tick from t + d on starts it, or leaves it in the queue while every slot is taken |
| KernelDelay.RetryAtOnce | src/scheduler.rs:822-841 | without a delay the failed task is started, or queued while every slot is taken, in the same step |
| KernelTask.RecordIsLastWord | src/scheduler.rs:677-861 | over any run that does not restore the task its checkpoint, payload, result, error and times are the last that a message which took effect gave, its state and resume flag the last said, its attempts the failures reported and a first start, and the rest never changes |
| KernelTask.StepHooks | src/scheduler.rs:512-613 | one step calls, for a task, the hook of the message if it took effect, with its own reason, error or result, and then the hook of a slot given out, with the record as it then is |
| KernelTask.ResumeGetsLastCheckpoint | src/scheduler.rs:534-554 | a task given a slot is resumed, not started, exactly when the last thing said of it was to resume it, and then with the last checkpoint reported for it |
| KernelTask.HooksInOrder | src/scheduler.rs:534-613 | over any run that does not restore the task: a start or resume hook comes first or after a pause or a retry, a pause or finish hook only after a start or resume, and the last hook called tells whether the task runs, is finished or is killed |
| KernelTask.FreshRecord | src/scheduler.rs:677-709 | a start of a new id registers a task with that payload, priority and cap and no past, waiting or at work for the first time |
| KernelCrash.CapSurvivesCrashIff | src/scheduler.rs:863-902 | for a task started with cap m > 0 whose actor's rows are saved after any messages that do not restore it and restored into a new actor: its starts before and after stay within m, whatever follows, unless the saved row is pending to be resumed and its starts so far and its budget left are m, and then they need not; they never exceed m + 1 |
| KernelCrash.PausedRunBreaksCap | src/scheduler.rs:870-894 | with cap 1 and one slot, start, pause, resume while the slot is taken, save and restore: the start hook can be called twice |
| KernelRecovery.RecoveredRow | src/scheduler.rs:863-902 | restoring rows into a new actor keeps ids and row order, leaves terminal rows as they were, and sets exactly the first live rows by priority, then position, running |
| KernelRecovery.RecoveredCalls | src/scheduler.rs:863-902 | the hooks called are exactly those of the top min(slots, live) rows, and the resume hook is called exactly for rows that were running or paused |
| KernelRecovery.RecoveredRecord | src/scheduler.rs:863-902 | a recovered live row keeps its record but for state, order, a missing creation time and, if it runs, start time and attempts; its hook is handed the saved checkpoint |
| KernelRecovery.DispatchedByRank | src/scheduler.rs:512-558 | a live row is dispatched if and only if fewer than `slots` live rows outrank it |
| KernelRecovery.ReachableIsRecoverable | src/scheduler.rs:1004-1010 | the snapshot queried after any run has distinct ids, so recovery applies to it |
| StagedTheorems.RunOk | src/etl_sched.rs:454-493 | over every interleaving: each running task has one worker or one report under way, mail is expected mail, earlier stages are finished, kills seen are kills |
| StagedTheorems.StageBarrier | src/etl_sched.rs:454-493 | when a worker starts on a task of one stage, every task of every earlier stage is finished |
| StagedTheorems.TerminalForever | src/etl_sched.rs:467-493 | in a staged run a terminal task never changes again |
| StagedTheorems.KillBlocksLaterStages | src/etl_sched.rs:479-493 | once a task is killed, no later stage is ever submitted |
| StagedTheorems.OkMeansAllFinished | src/etl_sched.rs:520-521 | at the end the run is ok if and only if every planned id is finished |
| StagedReports.ReportLands | src/etl_sched.rs:327-354 | in every run, once the mail before it is delivered, a worker's report finishes its task with its result, kills it with its error, or has it retried with its error while the cap allows |
| StagedReports.PollSeesKills | src/etl_sched.rs:467-493 | a poll sees exactly the killed tasks of its stage, each with its error |
| StagedReports.RetriesAreExtra | src/etl_sched.rs:444-446 | with `retries` > 0, no task of a staged run is ever started more than retries + 1 times |
| StagedPayloads.RegisteredIsFirst | src/scheduler.rs:677-709 | in every reachable state of a staged run the task registered under an id has the payload and the priority of the first task of its stage with that id |
| StagedPayloads.OkRunsEveryPayloadIff | src/etl_sched.rs:454-493 | a run that ends ok has run every planned payload if and only if no stage repeats an id with another payload, and of the tasks that share an id it ran the first one's |
| PlanIds.PlainConfigRunsEverything | src/etl_sched.rs:180-200 | for every config whose stages name each pipeline once, without slashes, a run that ends ok has run every planned payload |
| StagedTermination.NeverStuck | src/etl_sched.rs:467-493 | until the run has ended some action other than the clock changes the state |
| StagedTermination.EveryRunEnds | src/etl_sched.rs:444-493 | with a cap, a run whose every action changes the state is no longer than a measure of attempts left, mail, workers and unsent tasks |
| StagedTermination.NoCapNeedNotEnd | src/scheduler.rs:794-805 | with cap 0 every plan with a task has, for any number of slots, runs of every length, changing at every action, in which its first task is retried and nothing ends |
| StagedTermination.EndsExactlyWithRetries | src/etl_sched.rs:444-446 | for each plan and number of slots: every run is sure to end if and only if retries > 0 or the plan has no task |
| Planning.ChunkEvenly | src/etl_sched.rs:235-250 | the slicing loop yields the consecutive slices of the list |
| Planning.SlicesCover | src/etl_sched.rs:235-250 | the chunks put together are the list, chunk c has n/k elements plus one for the first n mod k, and no two differ by more than one |
| Planning.UniverseValues | src/etl_sched.rs:254-277 | the loop collects, in order, the non-empty texts and rejects a document that is not an array |
| Planning.BuildPlan | src/etl_sched.rs:66-141 | the stage and node loops yield the plan, or the first error in config order |
| PlanMeaning.PlanIsFromConfig | src/etl_sched.rs:66-148 | a plan holds, stage after stage and node after node, for a plain node one task with the first pipeline of its name and the node's priority; for a fan-out the values of the first source of the name in that pipeline, in order, over as many workers as have one, in tasks whose pipeline is that one but for the filter; and planning fails, with an error, if and only if that is why the first node refused is refused |
| PlanMeaning.NoWorkers | src/etl_sched.rs:213-232 | a partition over 0 workers is refused |
| PlanTheorems.PlansAreStaged | src/etl_sched.rs:180-200 | whatever the config, no task id is planned in two stages |
| PlanTheorems.ConfigBarrier | src/etl_sched.rs:454-493 | the stage barrier for the plan of every config |
| PlanTheorems.PartitionRoundTrip | src/etl_sched.rs:213-232 | a partition expression reads back to its source, field and worker count |
| Fanout.ChunkFilterMeans | src/etl_sched.rs:163-171 | in every context, unwound or not, the injected filter text, compiled and evaluated, lets through exactly the contexts whose needle, the text of the path `$.f`, is one of the chunk's units |
| Fanout.TaskSays | src/etl_sched.rs:173-183 | `$task` of a worker: its id and job, and for a chunk its index, the number of chunks, and the source and field that were split; `$task.ctx` is null without a chunk |
| Fanout.TaskFreeIsBlind | src/lazy.rs:805-827 | unwind conditions whose compiled expressions do not read `$task` offer every task the same rows |
| Fanout.NeedleIs | src/lazy.rs:308-328 | the needle is the text of the record's field, or of the unwound element when the alias has the field's name |
| Fanout.TaskKeepsItsUnits | src/etl_sched.rs:151-184 | a chunk's task makes, of the rows its records offer it, exactly those with one of its units, whatever the unwind conditions read |
| Fanout.FanoutGathers | src/etl_sched.rs:151-184 | the tasks of a fan-out make, chunk after chunk, the rows of the unsplit dataset that have that chunk's units, whatever the chunks and the source of the dataset |
| FanoutTheorems.ConservesIff | src/etl_sched.rs:235-277 | no row is lost or doubled if and only if every row's needle is in exactly one chunk |
| FanoutTheorems.OrderIff | src/etl_sched.rs:235-277 | the rows end to end are the original rows in order if and only if, besides, the chunks of the needles ascend |
| FanoutTheorems.FanoutPreservesMeaning | src/etl_sched.rs:96-124 | both laws for the planned tasks of any pipeline, worker count and dataset without a filter of its own, unwound or not; with the field named in all records and hidden by no alias, the rows are the original ones if and only if each record that offers rows has its value in one chunk, which holds when no value straddles chunks and whenever the values are distinct |
| FanoutTheorems.ShadowedFanoutConservesIff | src/plazy.rs:549-580 | when the alias of every unwind rule is the field, rows are conserved if and only if each unwound element's text is in one chunk; for distinct values, if and only if each element's text is one of the values |
| FanoutTheorems.AliasCanLoseRows | src/plazy.rs:549-580 | for one record, a rule with the condition `$.legs[0]` and one named value, such a fan-out keeps nothing of the one row there is, with any number of workers |
| FanoutExamples.SharedValueDoubles | src/etl_sched.rs:235-277 | two records that share a value, over two workers, make every row twice |
| FanoutExamples.TwoFanoutsShareIds | src/etl_sched.rs:180-200 | a stage that fans one pipeline out by two fields plans two tasks of one id with different chunks |
| FanoutRows.RowsFollowContexts | src/plazy.rs:492-518 | whenever the kept contexts are the original ones, what the tasks append cell by cell, join keys and raw rows included, is what one scan of the unsplit dataset appends |
| FanoutRows.UnsplitIsRepeated | src/etl_sched.rs:163-171 | a partition without a field, or a dataset with a filter of its own that does not read the task, is repeated whole by every task; its rows are conserved if and only if there is one task or nothing to keep |
| FanoutRows.BlankFieldIsRepeated | src/etl_sched.rs:163-171 | with a field `a b` every task makes all rows whose `a` is true |
| Compilation.Compiler.ParseExpr | src/lazy.rs:587-638 | from any cursor the recursive descent reads what the grammar reads, within bounds, and ends |
| Compilation.Compiler.ParseAtom | src/lazy.rs:640-715 | as above for paths, quoted strings, words and numbers |
| Compilation.Compiler.PathSegments | src/lazy.rs:718-749 | the segment loop reads exactly the trailing segments |
| Compilation.CompileText | src/lazy.rs:158-164 | compiling any text ends, with the node the grammar gives it |
| CompilerTheorems.CompilerRoundTrip | src/lazy.rs:536-795 | compiling the printed text of a printable node gives the node back |
| CompilerTheorems.ImageIsPrintable | src/lazy.rs:536-795 | a node is printable if and only if some text compiles to it |
| CompilerTheorems.RecompileIsStable | src/lazy.rs:158-164 | printing what any text compiles to, and compiling that, changes nothing |
| CompilerTheorems.PrintInjective | src/lazy.rs:536-795 | distinct printable nodes have distinct texts |
| CompilerTheorems.FilterCompilesIff | src/etl_sched.rs:165-165 | the injected filter compiles to the membership test of the field in the task's units if and only if the field is one key |
| CompilerTheorems.BlankFieldCompiles | src/etl_sched.rs:165-165 | with a blank in the field the filter compiles to the path of the text before it |
| SpellingTheorems.CastSpelling | src/lazy.rs:587-594 | a cast compiles to the same whatever blanks are in it, whatever word stands for `as`, and by whichever of its names, in whichever case, the type is called |
| SpellingTheorems.InSpelling | src/lazy.rs:158-164 | `in` may be written in any case, between any blanks |
| SpellingTheorems.BlanksBeforeTokens | src/lazy.rs:541-585 | blanks before a token make no difference to what is read |
| SpellingTheorems.ThirdArgument | src/lazy.rs:617-638 | the third argument of a product is its pair filter if it is a quoted text, and any other expression there is read and dropped |
| SpellingTheorems.LiteralsMean | src/lazy.rs:640-715 | numerals, quoted texts and the words true, false and null compile and evaluate to what they say, and a float to what it parses to, or 0 |
| SpellingTheorems.WordCompiles | src/lazy.rs:640-715 | a bare word is known by its first letter: only `true` is true, words with an f are false, those with an n null |
| SpellingTheorems.WideNumeralIsZero | src/lazy.rs:640-715 | a numeral outside 64 bits compiles to 0 |
| SpellingTheorems.BadIndexIsSkipped | src/lazy.rs:718-749 | a bracket with neither blanks only nor a number in it counts for nothing |
| Walk.ResolveSingle | src/lazy.rs:308-328 | the walk without lists reaches the node the path names, alias overlay included |
| Walk.CollectPath | src/lazy.rs:332-369 | the fanning walk, with its early exit, collects the nodes generation by generation |
| Walk.ResolvePath | src/lazy.rs:900-944 | the walk over the path's text follows its segments |
| WalkTheorems.SingleWalkIsCollect | src/lazy.rs:257-369 | on wildcard-free segments the collecting walks return the list of the one node of the single walks, for record and task paths |
| WalkTheorems.CollectReaches | src/lazy.rs:332-369 | a walk with wildcards reaches exactly the nodes that some choice of indices for the wildcards reaches |
| WalkTheorems.TextWalkAgrees | src/lazy.rs:900-967 | the text walk on a rendered path of names and indices reaches the node of the compiled path |
| WalkTheorems.TextWalkAgreesIff | src/lazy.rs:953-967 | they agree on every record if and only if no key of the path reads as an index |
| WalkTheorems.TextPaths | src/lazy.rs:900-957 | a rule path that does not start with `$` reaches nothing, and dots at the end of one make no difference |
| Evaluation.EvalNode | src/lazy.rs:167-231 | the evaluator, which takes the walk without lists where it can, gives the value defined by full walks |
| Evaluation.EvalVector | src/lazy.rs:372-416 | the same for operand lists |
| Evaluation.MakePairs | src/lazy.rs:205-219 | the product loop keeps the passing pairs in order |
| PairTheorems.PairCompares | src/lazy.rs:434-476 | the pair filter `X op Y`, for !=, == and =, compares without regard to case what the sides stand for: one of the two values, or the side's own text, with quotes taken off the right side only |
| PairTheorems.PairContains | src/lazy.rs:434-449 | the pair filter `X contains Y` passes, for X one of the values, if and only if the unquoted Y occurs in it, and for any other X always |
| PairTheorems.LeftLiteralIsNever | src/lazy.rs:434-476 | a quoted text on the left of an equality is never the same as a right value without quotes |
| EvalTheorems.ProductIsGrid | src/lazy.rs:205-219 | an unfiltered product has one entry per pair, at row-major positions |
| EvalTheorems.ProductKeepsPassing | src/lazy.rs:205-219 | a filtered product holds exactly the texts of the passing pairs |
| EvalTheorems.ProductIsJson | src/lazy.rs:478-506 | the value of a product is JSON that reads back to its pairs, whatever the operands hold |
| EvalTheorems.CoalesceIsFirst | src/lazy.rs:194-202 | a coalesce is null only if all arguments are, and else the first that is not |
| ValueTheorems.PathToJson | src/lazy.rs:969-979 | `to_json_string` of a path is, by the kind of the first node it reaches: the node's text if it is an object or array, the record's own if it is the record, a numeral that reads back to the integer, the words for true, false and null, a string in quotes as it is, and null if it reaches none |
| ValueTheorems.JsonReadsBack | src/lazy.rs:969-979 | for a parser that undoes the serializer, parsing it gives the node back if and only if the node is no string with a quote, backslash or control character |
| ValueTheorems.PathGives | src/lazy.rs:372-416 | a path as an operand list gives, node after node, the texts of what it reaches: of an array its elements that are not null; `$` gives what the record itself does |
| ValueTheorems.PathIn | src/lazy.rs:220-231 | `L IN R` for a path L is whether the text of the first node is in the list of R, and false without one or with a null |
| ValueTheorems.PathCast | src/lazy.rs:58-118 | a cast of a path is its first node's text (but a signed integer stays an integer), or integer (itself, wrapped at 64 bits; 0 or 1; read from the trimmed text), or float, and null where there is none |
| ValueTheorems.IntegerIsNoText | src/lazy.rs:60-68 | an integer cast to a text stays an integer, and so a `contains` condition on it never holds |
| ValueTheorems.CastTwice | src/lazy.rs:59-115 | casting twice to one kind is casting once |
| ValueTheorems.IntegerThroughText | src/lazy.rs:59-115 | an integer or text cast to a text and then to an integer is cast to an integer |
| ValueTheorems.BooleanCells | src/lazy.rs:59-115 | what a boolean column stores as true and as false; anything else is null |
| Conditions.EvalCondition | src/lazy.rs:805-827 | the evaluator of conditions decides what the condition, taken apart at `contains` or the first equals sign, means by full walks |
| Text.FindsFirst | src/lazy.rs:805-827 | the search behind both finds the first occurrence, and nothing only if there is none |
| Conditions.PlainCondition | src/lazy.rs:805-827 | a condition with neither is the truth of its one expression |
| ConditionTheorems.ContainsMeans | src/lazy.rs:805-816 | the text `L contains R`, the word in any case and blanks around it, holds if and only if both values are texts and the right one occurs at some place of the left one |
| ConditionTheorems.EqualsMeans | src/lazy.rs:817-842 | the text `L = R` holds if and only if the values are the same text, integer or boolean or equal floats, or one is a text that reads as the number on the other side |
| ConditionTheorems.LeadingBlankNeverHolds | src/lazy.rs:805-816 | with one to eight blanks in front a `contains` condition never holds |
| Json.WriteArray | src/lazy.rs:478-490 | the writing loop produces the array text |
| Json.EscapeText | src/lazy.rs:492-506 | the escaping loop, shared by the table reader, produces the escaped text |
| Json.StringRoundTrip | src/store.rs:314-328 | a reader by RFC 8259 section 7 gets the string back and stops right after it |
| Json.ArrayRoundTrip | src/lazy.rs:478-506 | a reader by RFC 8259 section 5 gets every string list back |
| Json.RawQuoteIsJsonIffPlain | src/lazy.rs:969-979 | the unescaped text of a string is JSON for it if and only if the string is plain |
| Scanner.RecordScanner.Next | src/plazy.rs:209-266 | one call skips separators and cuts one record, or is done for good |
| Scanner.RecordScanner.ReadRecord | src/plazy.rs:234-264 | the loop over depth, string and escape state cuts the record the specification cuts |
| Scanner.CollectRecords | src/plazy.rs:209-266 | the scanner always ends, with all records |
| Splitting.SplitterCutsArray | src/plazy.rs:209-266 | on an array of bracketed texts, strings and words the splitter yields exactly the elements if and only if all are bracketed, whatever strings hold, however the document is laid out and whatever follows it |
| Splitting.ReadTableJson | src/store.rs:182-203 | the row and column loops print the table |
| Splitting.SplitterUndoesPrinter | src/store.rs:182-203 | splitting a printed table gives exactly the texts of its rows |
| Splitting.TableRoundTrip | src/store.rs:182-203 | each record cut from a printed table reads back to the names and cells of its row |
| Scan.DatasetAcc.EvalRow | src/plazy.rs:492-518 | one context appends one cell to every column, the join key and the raw rows |
| Scan.DatasetAcc.ScanRecord | src/plazy.rs:549-586 | a record adds its kept contexts: itself, or the elements of every matching rule |
| Scan.ScanGroup | src/plazy.rs:542-589 | one pass leaves every dataset with exactly what a scan for it alone adds |
| Scan.ScanKeepsEven | src/plazy.rs:492-518 | all columns of a dataset stay equal in length, one row longer per passing context |
| ScanTheorems.RowsAre | src/plazy.rs:542-589 | a scan's rows are, record after record and rule after rule, one for each element of the array the rule's path reaches, in order and under the rule's alias or else its name, if its condition holds, and none otherwise; of these, in order, those that the filter makes neither null nor false |
| ScanTheorems.RowsAreElements | src/plazy.rs:550-580 | without a filter an unwound dataset has as many rows as those arrays have elements |
| ScanTheorems.CellsAre | src/plazy.rs:492-518 | each cell is the value of its column's expression for its row, cast to the column's kind; join keys are texts; raw rows keep the record's text and the element under its alias |
| ScanTheorems.ParsedAre | src/plazy.rs:543-549 | the records are the texts that parse to something other than null, in order, each with its own text |
| PipelineRun.ScanPipeline | src/plazy.rs:125-165 | grouping datasets by source and scanning each group once gives each dataset what its own source alone gives; an undefined source is reported exactly |
| PipelineRun.DatasetReads | src/plazy.rs:132-165 | a dataset gets the rows of the first source of the name it gives, or of the first source if it gives none, and fails exactly without either |
| Columns.CoerceIsCastIff | src/columnar.rs:95-136 | coercing a pushed cell is casting the value it stands for, if and only if it is not an integer that is to be a text |
| Columns.StoredCell | src/columnar.rs:50-58 | cast and then pushed, a value becomes its text in a column of texts and its cast in any other |
| Columns.Column.Push | src/columnar.rs:50-58 | a push appends the coerced cell and nothing else |
| Columns.Column.Gather | src/columnar.rs:278-284 | gathering gives a new column with the cells of the rows, in order |
| Hive.WriteRowGroups | src/columnar.rs:190-201 | the row groups of each column, end to end, are the column; groups are even, non-empty and at most 8192 rows, and all but the last hold exactly 8192 |
| Hive.GroupingIsOk | src/columnar.rs:332-346 | group keys are distinct, each group's rows ascend and share its key, and every row is in a group |
| Hive.RowHasOnePlace | src/columnar.rs:332-346 | every row has exactly one place in exactly one group |
| Hive.WritePartitioned | src/columnar.rs:317-363 | the loops leave the specified files, each path holding the last file written to it, or fail on a missing partition column |
| HiveTheorems.RowSurvivesIff | src/columnar.rs:348-360 | a row is left on disk if and only if its group was the last to write its path |
| HiveTheorems.AllRowsSurviveIff | src/columnar.rs:317-363 | every row is left if and only if some column is not a partition column and no two different keys of the table share a directory |
| HiveTheorems.PartitionedConserves | src/columnar.rs:317-363 | whenever no two keys share a directory, the cells of the files, put back at their rows, rebuild every column that is not a partition column |
| HiveTheorems.DirInjective | src/columnar.rs:348-353 | without slashes in names and values, different keys have different directories |
| HiveTheorems.NoSlashKeepsApart | src/columnar.rs:348-353 | so no two keys of such a table share one |
| HiveTheorems.DirsCanCollide | src/columnar.rs:348-353 | for any base and any two or more columns, two keys that share a directory |
| HiveTheorems.NeverCollideIff | src/columnar.rs:348-353 | no two keys can share a directory if and only if there is at most one partition column |
| HivePartitions.PartitionTextsReadBack | src/columnar.rs:348-360 | without slashes in names and values, the directory of every file reads back, for each of its rows, to the texts of the row's partition cells |
| HivePartitions.SameTextIff | src/columnar.rs:332-346 | two text cells have one directory text if and only if they are equal, or one is null and the other is the name that stands for null |
| HivePartitions.NullLooksSpelledOut | src/columnar.rs:332-353 | spelling a null of a partition column out as that name leaves the same files |
| HivePartitions.UnpartitionedIsWhole | src/columnar.rs:317-327 | without partition columns the table is one whole file at the base path, and an empty table leaves none |
| Processes.Process.RunReady | python/fina_core/process_scheduler.py:202-231 | the run loop, re-entered by handlers, ends with nothing ready; threads that had run are untouched, nothing new is left running and no wake is left due that was not before |
| Processes.Process.PickReady | python/fina_core/process_scheduler.py:206-218 | the ready thread of highest priority, the first in order of creation of those, if any is ready |
| Processes.Process.WakeOne | python/fina_core/process_scheduler.py:133-162 | waking a name ends the waiting of its declared thread, or else makes a further thread, and then runs whatever is ready |
| Processes.Process.FreshSerial | python/fina_core/process_scheduler.py:152-156 | the suffix loop finds the number after those of the further threads of the name, counted from 2 |
| Processes.CreateProcess | python/fina_core/process_scheduler.py:86-114 | creating a process ends whenever some closed multiset of runs exists, and what runs is the least one: each declared thread at most once, when eligible and its dependencies have succeeded, and one run for each wake but the first of a waiting thread; it is finished if and only if every declared thread has run and succeeded; whenever a run started no ready thread had a higher priority, or the same and an earlier place; threads end with what their handlers gave |
| Processes.RestIsClosed | python/fina_core/process_scheduler.py:202-231 | a process comes to rest only in a closed multiset of runs, so if there is none the loop never ends |
| Processes.EndIsLeast | python/fina_core/process_scheduler.py:202-231 | at rest, what ran was forced and all that could run has |
| ProcessEnds.EndsIffNoCircle | python/fina_core/process_scheduler.py:133-162 | a closed multiset of runs exists, so the run ends, if and only if there is no circle of names that can run, each waking the next |
| ProcessEnds.RankedIsBounded | python/fina_core/process_scheduler.py:133-162 | if no thread can wake itself, directly or through others, the run ends |
| ProcessEnds.WokenOnceIsBounded | python/fina_core/process_scheduler.py:133-162 | if names are woken from one place, once, and wait for it, the run ends, whatever the circles |
| ProcessEnds.SelfWakeNeverRests | python/fina_core/process_scheduler.py:116-131 | a thread that runs by itself and wakes its own name never comes to rest |
| ProcessTheorems.PrioritiesDontMatter | python/fina_core/process_scheduler.py:202-231 | what runs, further threads included, is the same whatever the priorities and the order of declaration |

## Left out

- Actor runtime, OS threads, Python hooks, tracing, database and Parquet files: a message is one atomic step, workers are nondeterministic actions, a source is its parsed document or text, and a written file is its columns.
- Clock: one reading per message; `now_ms` inside a message may differ by microseconds in the original.
- Integer widths: priorities, orders, attempts and times are unbounded; only the 64-bit parses and casts of expressions are bounded as in the source.
- Floating point: a float is the text it formats as, and its conversions are parameters; so are equality of floats and the JSON parser and serializer, and the theorems hold for every choice of them.
- Characters: letters and digits of identifiers and the lower case of conditions are ASCII, and the record splitter works on characters instead of bytes, which agree because its structural characters are ASCII.
- JSON reading: surrogate escapes are rejected, since nothing here writes them; of two equal keys the first counts.
- Binary heap: a bag of entries whose greatest element is popped.
- Hook calls: recorded in the order in which they are spawned, not in the order in which their threads run.
- KernelRetry.RetryCap: messages that restore the task itself are excluded, because a restore may set any attempts and any cap; what a restore of the saved rows does is KernelCrash.CapSurvivesCrashIff.
- StagedTheorems.StageBarrier: workers report once per start and retries are not delayed, as the ETL worker does; pausing and resuming a staged run from outside is not modelled.
- FanoutTheorems.FanoutPreservesMeaning: unwind conditions that read `$task` are excluded, because they make the offered rows depend on the task; the rows are taken in chunk order, while tasks run concurrently, so a shared table may receive the chunks in another order.
- FanoutRows.UnsplitIsRepeated: filters of their own that read `$task` are excluded, because they may keep anything in each task; what is said of them is what the filter evaluator says.
- FanoutRows.RowsFollowContexts: fields and join keys that read `$task` are excluded, because their cells are meant to differ from task to task.
- HiveTheorems.AllRowsSurviveIff: paths are compared as strings; a file system that folds case, resolves `..`, limits names or has a directory where a file is to be written is not modelled.
- Expression `Cast` to a float, `json_path` extraction, joins, row-root assembly, URI parsing, retry classification, type inference from expression text: no model, or only as parameters.
- The result document of a staged run (timings and row counts summed over finished tasks), the checks on empty configs and the choice of the slot count: one-line folds and guards.
- Processes: what a thread does is fixed by its name, so a further thread wakes and ends as the declared one; names hold no `#`, are declared once, and only declared names are woken, without new dependencies.
- Process commands (pause, resume, cancel, preempt) and exceptions raised by subscriptions: not modelled.
- `payoff.py`, `integrations.py`, `scheduler_mcp.py`, builders and bindings: wrappers and reshaping that would add easy members only.
