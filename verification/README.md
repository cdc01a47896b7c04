# YACMO in Dafny

YACMO runs chaos experiments: it floods services, breaks the network of a host, kills pods and
scales deployments down, stresses a machine, and it plans such experiments as scenarios with
prerequisites, retries and conditions. This project models the program's own logic and proves what
it promises over every input, every outcome of the outside world and every interleaving.

- **The flood worker pool** (`flood.dfy`, `payload.dfy`). One dispatcher, any number of workers, a
  bounded channel, cancellation and atomic counters, as a step system in which each atomic operation
  of the program is an action of its own. One definition covers the HTTP, gRPC and message-queue
  floods; they differ in an extra early-error path and in the byte counter.
- **The scenario engine** (`scenarios.dfy`, `parallel.dfy`, `engine.dfy`). Which steps of a sequential
  scenario run depends on the steps before, so `WalkTo` and `SuccessMap` follow the code step by step and
  the engine's loops, flags and goroutines are proved against them. Whether a scenario succeeds and
  which names are marked successful is then given a meaning without history, and the two are proved
  equal.
- **The undo stack of network chaos** (`kernel.dfy`, `network.dfy`, `ruleorder.dfy`). Commands change a
  root queueing discipline and an OUTPUT chain while inverse commands pile up; undoing them takes
  everything back, up to the order of the chain, for which the exact condition is given.
- **Kubernetes chaos** (`targets.dfy`, `selection.dfy`, `scaling.dfy`, `runplan.dfy`, `k8s.dfy`) **and the
  safety policy** (`safety.dfy`, `estimate.dfy`). Target selection, what a run does to the cluster, that
  it is lawful and how much it can be, the scale-down records and their replay, the agreement of the
  preflight count with the engine's cap.
- **Whole runs** (`runlog.dfy`, `campaign.dfy`, `scenariorun.dfy`, `scenariocap.dfy`,
  `restoring.dfy`). RunAll's guard and loop with the Kubernetes experiment really in it, without scenarios
  and with any plan of them, where what its runs come to decides what is run next; what the cap comes to
  under scenarios; a run and the rollback at the end of the program, and which configurations get every
  replica count back.
- **HTML escaping** (`htmlescape.dfy`). Five replacements in a row are one invertible pass.
- **Accounting across rounds** (`scheduler.dfy`, `report.dfy`) **and the stress error channel**
  (`stress.dfy`).

`config.dfy` holds the configuration the models read, `sums.dfy` sums and multiset unions over
sequences. Code that updates fields is a class here, with a loop where the source has one; a
protocol of goroutines is a step system, and `Flood.RunFlood`, `Parallel.RunAll` and `Stress.Run` drive
such a system under any scheduler.

Everything the program does not decide itself is a parameter that the theorems quantify over: the
outcome of each attempt and the moment of cancellation (`World`, `Attempt`), the scheduler, which
API calls and host commands fail (`faults`), what list calls return and how shuffles go (`View`), the
order that the unstable sort gives to scenarios of equal order (`plan`, any sorted permutation), regular
expressions, the PATH lookup, clocks and cron parsing.

Assumed of `tc` and `iptables`: adding a root discipline fails when an explicit one exists and deleting
it needs one; `-A` appends, `-D` removes the first match and fails without one; a failed command
changes nothing. Assumed of the Kubernetes API: a failed call changes nothing, calls on names that do
not exist fail, and listing the deployments of a namespace returns existing ones, each once.

## Where the code and its documentation differ

- `README.md:118` promises that rolling back `scale_down` restores the original count. Records are
  replayed in order and never cleared, so a second scale-down of a deployment remembers zero.
  `Restoring.CountsComeBackIff` says exactly which configurations get every count back on every
  cluster: no scale_down, or just one and no namespace twice. `Campaign.TwoScaleDowns` is a run that
  loses a count, `Campaign.RunAndRollback` has the condition for one run, `Scaling.RestoredIff` over any
  history.
- A network rollback restores root and rules exactly when no undo command meets a fault
  (`Kernel.RollbackExact`), but even then not always the order of the rules: `-D` removes the first match
  rather than the appended rule. `RuleOrder.UndoOrderIff` gives the exact condition wherever a run
  stopped, `RuleOrder.RunOrderIff` what it comes to for completed actions, `RuleOrder.HalfAppliedIff` for a
  `dns_failure` that got halfway; `RuleOrder.OrderLost` and `RuleOrder.HalfAppliedLosesOrder` have chains
  that come back in another order.
- `README.md:381` calls the cap the maximum of kills, scale-downs and deletes per run. The guard counts an
  action once per namespace instead. `Campaign.TwoPodsAtOnce` is a run that passes preflight with a cap of one
  and kills two pods, `Estimate.CapIsBoundIff` says exactly when the cap is such a maximum,
  `Campaign.RunAll` what holds in any case.
- The guard does not read scenarios. `ScenarioCap.RunAll` bounds the changes of any plan by its calls of
  the Kubernetes experiment, `ScenarioCap.CallsAgainstCapIff` and `CallsWithinCapIff` say exactly which
  numbers of calls keep to the cap, `ScenarioCap.TwoKubernetesSteps` is a run that does not.
- The target estimate of `pkg/safety/safety.go:141` is called an upper bound on the targets touched, and
  `README.md:380` calls `max_targets_per_run`, which is compared with it, the maximum of resources. It
  counts namespaces and actions, not resources. `Estimate.EstimateIsNoBound` passes preflight and touches
  more, `Estimate.EstimateIsBoundIff` says exactly which configurations it bounds, `Estimate.TouchedIff`
  exactly which keep to any other number.

## Model

| member | source | states |
|---|---|---|
| Flood.ReachableSafe | pkg/httpflood/httpflood.go:119-219 | In every reachable state of every interleaving: no sent job is lost or duplicated; requests counted differ from successes plus errors by exactly the workers standing between two updates, counted with the sign of the order of the updates; bytes equal message size times the published messages already paid for; workers exit only after cancellation or once the channel is closed and empty |
| Flood.RunsAreBounded | pkg/httpflood/httpflood.go:127-216 | No interleaving, however requests end and whenever the run is cancelled, has more than 11 actions per job plus one per worker plus 5 |
| Flood.NoDeadlock | pkg/httpflood/httpflood.go:127-219 | Until dispatcher and workers have ended, some action other than cancellation is possible; once the channel is closed it is a worker's, so flood always returns |
| Flood.CountersWhenReturned | pkg/httpflood/httpflood.go:153-219 | When flood returns, cancelled or not, total equals successes plus errors equals the jobs executed, and the byte counter equals message size times successes |
| Flood.CountersAreOutcomes | pkg/httpflood/httpflood.go:153-190 | In every reachable state the success counter, with the workers that have still to count one, is the number of requests answered with success, and the error counter likewise that of the other answers and of the requests that could not be built |
| Flood.OutcomesWhenReturned | pkg/mqflood/mqflood.go:180-194 | When flood returns each counter is the number of requests that ended so, and the bytes are the message size times the messages published |
| Flood.EverySendHasItsTick | pkg/mqflood/mqflood.go:198-222 | With a rate every job sent has taken a tick, without one none is taken |
| Flood.UncancelledRunsEverything | pkg/grpcflood/grpcflood.go:80-195 | An uncancelled flood counts exactly the requested number and executes each job index exactly once; nothing is left in the channel |
| Flood.FinalConservation | pkg/httpflood/httpflood.go:193-219 | At the end sent jobs are those executed, discarded and left in the channel, as multisets; each of the last two is at most the concurrency |
| Flood.CancellationStopsTheFlood | pkg/httpflood/httpflood.go:133-138 | From any point after the cancellation at most one more job is sent and at most one more request per worker counted |
| Flood.RunFlood | pkg/mqflood/mqflood.go:132-224 | Under any scheduler the pool of as many workers as configured, or else one, ends in a state reached by a real interleaving; successes are the requests answered with success, errors the others and those that could not be built; a message queue counts the bytes of its successes at the configured size, or else 256, other protocols none; if not cancelled it has executed each of the configured jobs, or else 100, once |
| Flood.StepConserved | pkg/httpflood/httpflood.go:127-216 | Each single action preserves the conservation of jobs |
| Flood.StepCounters | pkg/mqflood/mqflood.go:170-196 | Each single action preserves the relation of the four counters, for all three protocols |
| Flood.StepExits | pkg/httpflood/httpflood.go:133-138 | Each single action keeps discards at one per exited worker, only after cancellation, and exits justified |
| Flood.StepDecreases | pkg/httpflood/httpflood.go:127-216 | Each single action lowers one integer measure |
| Payload.BuildPayload | pkg/mqflood/mqflood.go:227-245 | The buffer-filling loop ends with exactly `size` bytes: the random ones, or byte i equal to the pattern's byte i modulo its length |
| Payload.CyclesExtend | pkg/mqflood/mqflood.go:237-242 | Appending part of the pattern after whole copies keeps the payload periodic |
| Scenarios.RetryLaw | pkg/chaos/engine.go:282-347 | An uncancelled step of a known experiment calls Run up to the first success and at most once more than the step's retries, else the scenario's, else none; it succeeds exactly when one of those attempts does, and is reported |
| Scenarios.ReportLaw | pkg/chaos/engine.go:267-347 | What a step comes to in every case: result, name, detail, calls and whether callbacks hear of it, for an unknown experiment, a dry run, a context found done, a success and a failure of all attempts |
| Scenarios.StepsTaken | pkg/chaos/engine.go:213-258 | The reports of a scenario are those of the steps it takes, in order: all of a parallel one, and of a sequential one just the steps that are due, `on_success` unless the last step taken failed, `on_failure` only if it did, any other always |
| Scenarios.FoldIsConjunction | pkg/chaos/engine.go:232-258 | The two success flags of the sequential loop compute a stateless conjunction: every step not conditional on a failure succeeds |
| Scenarios.ParallelIrrelevant | pkg/chaos/engine.go:212-258 | Without on_failure steps a scenario succeeds alike in parallel and in sequence |
| Scenarios.MapMeaning | pkg/chaos/engine.go:186-261 | A name is marked successful exactly when the last enabled scenario of that name ran and succeeded |
| Scenarios.ClosureRanEarlier | pkg/chaos/engine.go:195-209 | If a scenario runs, everything it transitively requires is enabled, ran and succeeded, at an earlier position |
| Scenarios.HopelessNeverRuns | pkg/chaos/engine.go:179-209 | A scenario whose requirements lead to itself, or to an unknown, disabled or later-ordered scenario, never runs, whatever the outcomes and the sort |
| Scenarios.CycleNeverRuns | pkg/chaos/engine.go:195-209 | Neither does one whose requirements lead into a cycle |
| Scenarios.PlanMonotone | pkg/chaos/engine.go:189-261 | Turning step failures into successes never stops a scenario from running or succeeding, over the whole plan |
| Scenarios.BetterAttemptsImprove | pkg/chaos/engine.go:291-337 | Turning single attempts into successes turns no step's success into a failure |
| Scenarios.DryRunCallsNothing | pkg/chaos/engine.go:306-316 | A dry run calls Run for no step of the whole plan |
| Scenarios.DryRunRuns | pkg/chaos/engine.go:189-261 | In an uncancelled dry run over known experiments a scenario runs exactly when it is enabled and each prerequisite ran earlier |
| Parallel.InterleavingIrrelevant | pkg/chaos/engine.go:212-230 | For every interleaving of the goroutines: the results are a permutation of the steps' results, callbacks heard exactly the reported ones, Run was called as often as the steps make it, the flag is the conjunction of successes |
| Parallel.RunAll | pkg/chaos/engine.go:213-230 | Under any scheduler the goroutines all finish, with those results |
| Parallel.AdvanceInv | pkg/chaos/engine.go:218-227 | Each single step of a goroutine keeps results, notifications, calls and flag in agreement with what the goroutines have done |
| ChaosEngine.Engine.RegisterNamed | pkg/chaos/engine.go:76-82 | Registers under the id and appends to the list, changing nothing else |
| ChaosEngine.Engine.Register | pkg/chaos/engine.go:68-73 | Appends to the list only |
| ChaosEngine.Engine.TryStep | pkg/chaos/engine.go:290-340 | The attempts loop stops at the first attempt that succeeds or finds the context done, counting the Run calls |
| ChaosEngine.Engine.RunScenarioStep | pkg/chaos/engine.go:267-347 | The step's result, its Run calls and whether callbacks hear of it are those of its meaning; unknown and cancelled steps are not reported |
| ChaosEngine.Engine.RunSequential | pkg/chaos/engine.go:231-258 | The loop succeeds exactly when the stateless conjunction holds and yields the results, notifications and calls of just the steps that are due after those before, in order |
| ChaosEngine.Engine.RunParallel | pkg/chaos/engine.go:213-230 | The parallel branch yields, under any scheduler, a permutation of the steps' results and the same success as the meaning |
| ChaosEngine.Engine.RunTurn | pkg/chaos/engine.go:189-261 | One scenario's turn takes the success map to the plan's next one: disabled leaves it, an unmet prerequisite marks a failure and runs nothing |
| ChaosEngine.Engine.SomeUnmet | pkg/chaos/engine.go:196-209 | A scenario is skipped exactly when some prerequisite has not succeeded |
| ChaosEngine.Engine.RunScenarios | pkg/chaos/engine.go:177-264 | For all schedulers and any sorted plan: the success map is the plan's, results, callbacks and calls are those of the plan's reports, as multisets and, with nothing parallel, in order |
| ChaosEngine.Engine.RunFlat | pkg/chaos/engine.go:120-167 | The plain run calls Run of each experiment before the first that finds the context done exactly once, in order, or of none in a dry run; each result has the name of its experiment and is a success exactly in a dry run or if Run succeeded, with the detail to match; callbacks hear all of them |
| ChaosEngine.NoticesAre | pkg/chaos/engine.go:327-347 | What callbacks hear of some reports is the results of just those marked for it, in order |
| ChaosEngine.Engine.RunAll | pkg/chaos/engine.go:92-174 | Past the cap the round carries out exactly its reports, one result for each experiment before a cancellation where there are no scenarios, and Results() grows by them, except that a plain run in which some experiment finds the context done keeps them to itself; over the cap nothing happens |
| ChaosEngine.Engine.RollbackAll | pkg/chaos/engine.go:350-366 | Every experiment is rolled back once, last registered first, whatever fails |
| ChaosEngine.PlanNotified | pkg/chaos/engine.go:267-347 | In an uncancelled run over known experiments callbacks hear every result, in the order of the reports |
| Kernel.UndoRestores | pkg/network/network.go:123-139 | Undoing a stack that accounts for the changes last-in-first-out never fails and restores the root and the rule multiset, and the rule order if the start held no inserted rule |
| Kernel.InjectionsBalanced | pkg/network/network.go:142-270 | Any accepted injections, with their inverses pushed, keep the stack accounting for all changes since any earlier start |
| Kernel.UndoInvertsInjections | pkg/network/network.go:123-139 | Undo is the inverse of any accepted series of injections |
| Kernel.OneRootAtMost | pkg/network/network.go:142-191 | At most one injection of a root discipline can succeed, and none if a root was set |
| RuleOrder.OrderRestoredIff | pkg/network/network.go:194-220 | For any chain and one appended rule: deleting it restores the order exactly when only copies of it follow its first earlier copy |
| RuleOrder.UndoneIff | pkg/network/network.go:123-139 | For any chain and any DNS rules appended: deleting them, the last first, leaves the chain as it was exactly when the chain traces them, which is read off chain and rules backwards |
| RuleOrder.CyclesIff | pkg/network/network.go:123-139 | For any positive number of completed dns_failures, undone, that is exactly when the chain's DNS rules are a suffix: copies of one of the two rules, then (UDP, TCP) pairs |
| RuleOrder.UndoOrderIff | pkg/network/network.go:49-139 | Whatever injections took effect, of one run or several and wherever they stopped: undoing them restores the order of the chain exactly if it traced the rules they appended |
| RuleOrder.RunOrderIff | pkg/network/network.go:49-139 | After any completed actions the order is restored exactly if none of them blocked DNS or the chain met that suffix condition |
| RuleOrder.HalfAppliedIff | pkg/network/network.go:194-220 | After any completed actions and the first command of another dns_failure it is restored exactly if the chain traced the alternating rules with UDP last |
| RuleOrder.OrderLost | pkg/network/network.go:194-220 | A run of one dns_failure on the chain TCP, UDP is accepted, undone without failure and leaves UDP, TCP |
| RuleOrder.HalfAppliedLosesOrder | pkg/network/network.go:194-220 | After a completed and a half-applied dns_failure even an orderly chain may come back in another order |
| Kernel.UnwindFaultless | pkg/network/network.go:123-139 | A rollback reports no failed command exactly when none of its commands meets a fault, and then it is the plain undo |
| Kernel.RollbackExact | pkg/network/network.go:123-139 | A rollback reports no error exactly when the start is restored |
| Kernel.UnwindLeaves | pkg/network/network.go:123-139 | Whatever fails, a rollback goes on, reports as many errors as its commands met faults, and leaves exactly what those were to take away |
| Network.ChaosNetwork.InjectDNSFailure | pkg/network/network.go:194-220 | None, one or both commands take effect, exactly as faults strike, each with its inverse pushed; if only the second fails the first stays |
| Network.ChaosNetwork.InjectRoot | pkg/network/network.go:142-167 | Succeeds exactly when no explicit root is set and the command meets no fault, and then pushes the root's deletion |
| Network.ChaosNetwork.InjectLatency | pkg/network/network.go:142-167 | On success exactly the configured command took effect, with its default and optional jitter |
| Network.ChaosNetwork.InjectPacketLoss | pkg/network/network.go:170-191 | The same for packet loss |
| Network.ChaosNetwork.InjectBandwidthLimit | pkg/network/network.go:223-246 | The same for the bandwidth limit |
| Network.ChaosNetwork.InjectCorruption | pkg/network/network.go:249-270 | The same for corruption |
| Network.ChaosNetwork.RunAction | pkg/network/network.go:54-98 | A refused action issues nothing; an admitted one issues its commands up to the first that fails and succeeds exactly when none does |
| Network.ChaosNetwork.RunActions | pkg/network/network.go:54-98 | The action loop on its own: which commands took effect and whether it got through |
| Network.ChaosNetwork.Run | pkg/network/network.go:49-115 | The run gets to just the actions before the first that is cancelled or, being known, forbidden by the policy. Of these it carries out all by their names, or else the first ones up to one that meets a fault or an explicit root, with their inverses pushed: two rules at the end of the chain for each `dns_failure`, possibly one more for a half-applied one, and at most one root discipline, of the kind named and with the configured value or its default. It succeeds exactly when it carried out all; on an expired duration it unwinds its own stack |
| Network.ByName | pkg/network/network.go:62-98 | However many commands of some actions took effect, they amount to the first of the named actions and possibly the UDP rule of the next |
| Network.StopMeans | pkg/network/network.go:55-97 | The policy check of a run forbids exactly the known actions, under an enabled policy that allows no destructive ones |
| Network.ChaosNetwork.Rollback | pkg/network/network.go:123-139 | The loop unwinds the whole stack, goes on after failures, reports exactly whether there were any and empties the stack |
| Network.RunKeepsBalance | pkg/network/network.go:49-139 | Wherever a run stopped, after any number of runs: undoing the stack is accepted throughout and restores the state the stack began with |
| Network.RunsThroughIff | pkg/network/network.go:49-98 | Of commands that meet no fault all take effect exactly when they set at most one root discipline, or none if one is in place |
| Stress.SendNeverBlocks | pkg/stress/stress.go:55-105 | In every interleaving, also after an early refusal, a goroutine about to send finds the channel open and with room |
| Stress.ReturnedNilIff | pkg/stress/stress.go:101-113 | At the end every known action was admitted and started and drained, and no error is reported exactly when none failed |
| Stress.ErrorsAreFailures | pkg/stress/stress.go:101-113 | At the end the errors reported are as many as the goroutines that failed, and all started have ended |
| Stress.AlwaysFinishes | pkg/stress/stress.go:55-113 | Something can always move until all is over, within four steps per action plus three |
| Stress.Run | pkg/stress/stress.go:46-114 | Under any scheduler the run ends; it is refused exactly when one of the four known actions is configured under an enabled policy that allows no destructive ones; else it starts one goroutine for each known action and reports one error for each that failed |
| Stress.StepInv | pkg/stress/stress.go:55-113 | Each single step keeps sends, drains and errors in agreement with the goroutines |
| Safety.NewPolicy | pkg/safety/safety.go:21-40 | Succeeds exactly when every pattern compiles, keeping all of them in order |
| Safety.CheckName | pkg/safety/safety.go:227-245 | Passes exactly the empty name and names that no blocked pattern and, if there are any, some allowed pattern matches |
| Safety.CheckK8sTarget | pkg/safety/safety.go:99-110 | Passes exactly targets in an allowed and not blocked namespace, with an allowed name, and with destructive actions allowed if the action is one of the three; everything when disabled |
| Safety.DestructiveActionCount | pkg/safety/safety.go:123-139 | The loop sums to the policy's count |
| Safety.CountWithinEstimate | pkg/safety/safety.go:123-171 | The destructive count never exceeds the target estimate |
| Safety.EngineCount | pkg/chaos/engine.go:411-419 | The engine's loop sums what the registered experiments report |
| Safety.CountsAgree | main.go:172-211 | The engine's sum over what main registers equals the policy's count, for every configuration |
| Safety.ValidateNamespaces | pkg/safety/safety.go:178-192 | Succeeds exactly when every namespace passes the per-target namespace check |
| Safety.ValidateRun | pkg/safety/safety.go:81-96 | Succeeds exactly when namespaces, both limits and the needed binaries are in order |
| Safety.Preflight | pkg/safety/safety.go:43-78 | Succeeds exactly under its documented conditions, spelled out on the configuration; then RunAll's cap never fires, and in an enabled run every configured namespace passes the per-target check |
| Safety.PassesMeans | pkg/safety/safety.go:123-215 | Those conditions by the configuration alone: the destructive count and the estimated targets as sums over the enabled packages, against limits, approval, namespaces and binaries |
| Safety.RegisteredIds | main.go:172-211 | Just the enabled packages are registered, each under its own id |
| Selection.SelectRandom | pkg/k8s/k8s.go:337-345 | The in-place shuffle and slice yield the specified selection and leave the array alone when there is nothing to cut |
| Selection.SelectionLaw | pkg/k8s/k8s.go:337-345 | For every shuffle the selection is a sub-multiset of the items, of size min(max, n) or n without a limit, and repeats nothing the items do not |
| Selection.ShufflePermutes | pkg/k8s/k8s.go:341-343 | Any series of swaps permutes the items |
| Targets.ParseKnown | pkg/k8s/k8s.go:87-107 | The actions Run carries out are exactly those the policy calls destructive |
| Targets.EligibleLaw | pkg/k8s/k8s.go:292-303 | The candidates are exactly the listed names that match no exclusion and are not the kubernetes service when services are deleted |
| Targets.ChosenLaw | pkg/k8s/k8s.go:153-208 | In one namespace all attempts are lawful and at most `max_targets` many |
| Targets.LawfulMeans | pkg/k8s/k8s.go:153-324 | Lawful changes are exactly those by one of the three named actions, configured, in a configured namespace, of a name without an exclusion in it, not of the `kubernetes` service, and under an enabled policy with destructive actions, namespace and name allowed |
| K8s.ChaosK8s.IsExcluded | pkg/k8s/k8s.go:327-334 | True exactly when the name contains some exclusion, that is, has it between some front and some back |
| K8s.ChaosK8s.Pick | pkg/k8s/k8s.go:173-191 | The filter loop and the selection yield the specified choice |
| K8s.ChaosK8s.KillPodsIn | pkg/k8s/k8s.go:171-205 | In one namespace exactly the admitted choices are attempted, one call each; the pods gone are exactly those recorded as killed, all of them attempted, and all that were attempted when no call fails |
| K8s.ChaosK8s.DeleteServicesIn | pkg/k8s/k8s.go:293-321 | In one namespace exactly the admitted choices are attempted, one call each; only attempted services go, and all of them when no call fails |
| K8s.ChaosK8s.ScaleDownOne | pkg/k8s/k8s.go:245-270 | A record is made exactly when the scale can be read, before the update and whether or not that goes through; other deployments are untouched |
| K8s.ChaosK8s.ScaleDownIn | pkg/k8s/k8s.go:228-271 | Whatever the list names: every record is of an admitted choice, at most one each; when no call fails all of them are recorded and set to zero; exactly the deployments whose update went through change |
| K8s.ChaosK8s.KillPods | pkg/k8s/k8s.go:153-208 | Over all namespaces: stops at the first failing list call and succeeds exactly if none failed; up to there the attempts are exactly those called for, whichever deletes fail; the pods gone are those recorded, all of them attempted, and all attempted when no call fails |
| K8s.ChaosK8s.ScaleDownDeployments | pkg/k8s/k8s.go:211-274 | The same outcome, with attempts that are those called for when no call fails and records that account for the cluster, one for each attempt in order; only deployments whose update went through change, to zero; each deployment once when namespaces are distinct |
| K8s.ChaosK8s.DeleteServices | pkg/k8s/k8s.go:277-324 | As for pods, without records |
| K8s.ChaosK8s.Run | pkg/k8s/k8s.go:87-107 | Against any outside and any API failures: the run succeeds exactly if none of its list calls failed, upon which it made one for each namespace and known action, and none but the last can have failed; every pod or service gone and every deployment changed was lawful to touch and attempted; attempts are lawful, at most the destructive action count times `max_targets`, and exactly the plan when no call fails, when all of it takes effect; by name, pods go only by `kill_pod`, services only by `delete_service`, deployments change only by `scale_down` and to zero, and without a failed call exactly those attempted by it do; the scale-downs recorded are exactly those attempted, and account for the cluster over this and earlier runs |
| RunPlan.EffectsLawful | pkg/k8s/k8s.go:153-324 | If what happened to a cluster is what lawful attempts account for, nothing was added and whatever is gone or changed was lawful to touch |
| RunPlan.EffectsByName | pkg/k8s/k8s.go:87-107 | What lawful attempts account for, by the names of the actions: only pods attempted by `kill_pod` are gone, only services by `delete_service`, only deployments by `scale_down` changed, all of them to be touched, and all attempted if no call failed |
| K8s.ChaosK8s.DestructiveActionCount | pkg/k8s/k8s.go:110-119 | The experiment reports what the policy counts for Kubernetes |
| K8s.ChaosK8s.Rollback | pkg/k8s/k8s.go:122-150 | Replays the records in order, each with one call if its scale cannot be read and two otherwise, and goes on after failures; a record goes through exactly when its deployment exists and both calls work; reports success exactly when all did |
| K8s.ChaosK8s.RollbackOne | pkg/k8s/k8s.go:126-138 | A record goes through exactly when its deployment exists and neither of its two calls fails |
| K8s.RunThenRollback | pkg/k8s/k8s.go:122-138 | After one run that records each deployment at most once, a rollback that goes through gives every deployment its replica count back, even where scaling it down failed |
| K8s.RunsThenRollback | pkg/k8s/k8s.go:122-138 | After any number of runs it leaves each recorded deployment at the value of its last record and every other one as it was |
| RunLog.RunOnce | pkg/k8s/k8s.go:87-150 | One more run in a series: attempts, list calls, records, call count and cluster go on from where the run before left them |
| RunLog.SeriesLedger | pkg/k8s/k8s.go:87-324 | Any series of runs attempts only what is lawful, at most one run's bound for each, and what it attempted is what changed; without API failures every run succeeds and they attempt exactly what they call for, one after the other |
| Campaign.RunAll | pkg/chaos/engine.go:92-174 | Without scenarios, whatever the outside does: Kubernetes chaos runs once, exactly if it is enabled, this is no dry run and the loop gets to it; each result has its experiment's name and, outside a dry run, that of Kubernetes chaos is a success exactly if none of its list calls failed, any other as that experiment answers; it touches only what is lawful, and without API failures does exactly what is called for; it attempts at most cap times `max_targets` changes under a positive enabled cap, at most its share of the estimate times `max_targets`, and at most any number its configuration is restrained to; over the cap nothing happens |
| Campaign.TwoPodsAtOnce | pkg/chaos/engine.go:92-118 | With a cap of one, target limit two and one destructive action preflight and guard pass, and RunAll over a cluster of two listed pods kills both |
| Campaign.KubernetesFirst | main.go:172-211 | Kubernetes chaos is the first experiment registered, and no other has its id |
| ScenarioRun.RunScenarios | pkg/chaos/engine.go:177-264 | Any plan with its Kubernetes steps run for real. The runs are exactly the attempts that the plan calls for, in its order and none where the context was done, and each attempt ended as its run did; in the world these outcomes make, the scenarios marked successful, the results, the Run calls and what callbacks hear are those of the plan's meaning |
| ScenarioRun.TryKubernetes | pkg/chaos/engine.go:290-340 | The attempts of a Kubernetes step: one real run for each attempt up to the first run that succeeds or the first attempt that finds the context done, with result, notification and Run calls to match |
| ScenarioRun.RunStep | pkg/chaos/engine.go:267-347 | One step, Kubernetes or not: its result, Run calls and notification, and the runs made, are those of its meaning given how the runs ended |
| ScenarioRun.RunSteps | pkg/chaos/engine.go:213-258 | A scenario's results, notifications and runs are those of just the steps it takes, given how the runs ended |
| ScenarioRun.OnceWhereAllSucceed | pkg/chaos/engine.go:290-340 | Where every run succeeded, a Kubernetes step that was reached ran once and succeeded, whatever its retries |
| ScenarioCap.PlanTotals | pkg/chaos/engine.go:177-264 | The calls of one experiment are among the engine's, and all of them if no step names another |
| ScenarioCap.PlainCalls | pkg/chaos/engine.go:189-261 | Without retries, prerequisites and conditions a plan calls an experiment once for each step of an enabled scenario that names it, whatever the outcomes |
| ScenarioCap.RunAll | pkg/chaos/engine.go:92-118 | RunAll over any sorted plan with real Kubernetes steps: past the guard as many runs as the plan calls for in the world that their own outcomes make, for a plain plan the number of its Kubernetes steps, with that world's results and notifications; changes at most `max_targets` times destructive count times runs, lawful, and exactly the repeated plan without API failures, when all runs succeed; over the cap nothing happens |
| ScenarioCap.CallsAgainstCapIff | pkg/chaos/engine.go:100-105 | On all clusters that many calls keep within cap times `max_targets` exactly when calls times destructive count are within the cap |
| ScenarioCap.CallsWithinCapIff | pkg/chaos/engine.go:100-105 | And within the cap itself exactly when there is nothing to do or the target limit keeps the whole product there |
| ScenarioCap.TwoKubernetesSteps | pkg/chaos/engine.go:92-118 | A run with cap and target limit one and a scenario naming Kubernetes twice: preflight and guard pass, the experiment runs twice, finds another pod each time, and both pods are gone |
| Campaign.RunAndRollback | main.go:230-271 | A fresh experiment run once and rolled back: every count is back after a rollback that goes through, for distinct namespaces and one scale_down; without API failures it does go through, after scaling down just what the plan does, and a count is back exactly when it is zero or the plan scales that deployment down at most once |
| Campaign.TwoScaleDowns | pkg/k8s/k8s.go:211-274 | Two scale_down actions without any API failure leave the only deployment at zero after a successful rollback |
| Restoring.CountsComeBackIff | pkg/k8s/k8s.go:122-274 | Without exclusions and with an admitting policy: on every cluster, for all list results, every count is back in what a calm run and its rollback leave, exactly when no action scales down, there is no namespace, or one action does and no namespace is given twice |
| Estimate.PlanBound | pkg/k8s/k8s.go:337-345 | No plan is longer than the destructive count times `max_targets` |
| Estimate.CrowdedPlan | pkg/k8s/k8s.go:337-345 | Where every list call finds `max_targets` names, or any number without a limit, the plan is exactly that long |
| Estimate.RepeatedBound | pkg/k8s/k8s.go:337-345 | Several runs call for at most that often one run's bound |
| Estimate.CrowdedRepeated | pkg/k8s/k8s.go:337-345 | Where every list call finds enough they call for exactly that |
| Estimate.KeepsIff | pkg/k8s/k8s.go:87-119 | Without exclusions and with an admitting policy: a number bounds what so many runs call for, on every cluster and for all list results, exactly when there is nothing to do or a target limit is set and its product with destructive count and runs is within the number |
| Estimate.CapIsBoundIff | pkg/chaos/engine.go:100-105 | The cap bounds the changes of a run on every cluster exactly when Kubernetes chaos is off, nothing is destructive, or a target limit is set and its product with the destructive count is within the cap |
| Estimate.CapIsNoBound | pkg/chaos/engine.go:100-105 | A configuration with cap one that passes preflight and, on some cluster, calls for more under its policy |
| Estimate.TouchedIff | pkg/safety/safety.go:141-171 | A number bounds all targets touched, the other packages' counted as the estimate counts them, exactly when it leaves Kubernetes chaos room for `max_targets` times the destructive count, or for nothing when nothing is destructive |
| Estimate.EstimateIsBoundIff | pkg/safety/safety.go:141-171 | Without exclusions and with an admitting policy, the estimate bounds all targets a run touches on every cluster exactly when Kubernetes chaos is off, nothing is destructive, or a target limit is set and its product with the destructive count is within Kubernetes' own share of the estimate |
| Estimate.PreflightAdmits | pkg/safety/safety.go:43-78 | After a preflight that passes, with destructive actions allowed and no name patterns, the policy admits every name in the configured namespaces |
| Estimate.EstimateIsNoBound | pkg/safety/safety.go:141-171 | A configuration that passes preflight with estimate and limit one, and a cluster on which it touches more under its policy |
| Scaling.RollbackValue | pkg/k8s/k8s.go:122-138 | Over any history the replayed records leave each deployment at its last record's value: its first count, or zero if it had been scaled to zero before |
| Scaling.RestoredIff | pkg/k8s/k8s.go:122-138 | A deployment has its original count back exactly when that is zero, or it had not been scaled to zero before its last record |
| Scaling.OnceRestoresAll | pkg/k8s/k8s.go:251-262 | Recording each deployment at most once is enough |
| HtmlEscape.EscapeIsSinglePass | pkg/report/report.go:332-339 | The five ordered replacements equal one pass mapping each character once, on every string |
| HtmlEscape.EscapeByCharacter | pkg/report/report.go:332-339 | Each of the five characters comes out as its entity and any other as itself, whatever surrounds it |
| HtmlEscape.EscapedTextIsSafe | pkg/report/report.go:332-339 | The output holds no raw markup character, and every ampersand in it starts one of the five entities |
| HtmlEscape.UnescapeInverts | pkg/report/report.go:332-339 | Reading the entities back gives the original |
| HtmlEscape.EscapeInjective | pkg/report/report.go:332-339 | Different texts stay different |
| Report.Builder.RecordExperiment | pkg/report/report.go:69-88 | Appends one entry: skipped for a dry run, else failed with an error, else a success |
| Report.Builder.Build | pkg/report/report.go:91-104 | The three counts are the numbers of entries with each status and add up to the total |
| Report.Deliver | main.go:145-159 | The callback counts each result as the success or failure it is and appends its entry, in the order of the trace |
| Report.MetricsAddUp | main.go:145-159 | If callbacks hear the results in any order, as many of what they hear are successes, and failures, as of the results |
| Scheduler.Scheduler.RunContinuous | pkg/scheduler/scheduler.go:66-88 | Watched for any number of rounds: it has finished exactly if it reached the positive maximum of rounds, been aborted exactly if the context was found done after the rounds so far and that was not the maximum, and otherwise carried out all rounds watched; the engine then holds exactly the results of those rounds |
| Scheduler.Scheduler.RunCron | pkg/scheduler/scheduler.go:93-129 | The same, with no round for an invalid expression and possibly none before a cancellation |
| Scheduler.CleanRounds | pkg/scheduler/scheduler.go:69-87 | Over uncancelled rounds of known experiments Results() is the concatenation of what the rounds returned; callbacks heard a permutation of it, and the same sequence when nothing is parallel |
| Scheduler.WholeRunAddsUp | pkg/chaos/engine.go:369-375 | From a fresh engine: Results() is the rounds' results in sequence, and callbacks heard as many successes and failures |
| Scheduler.RunAndReport | main.go:145-261 | Rounds, callbacks and report in one: each round is one RunAll and Results() is what they returned in sequence; the metrics' total is successes plus failures and the number of results, with the results' own successes and failures; without parallel scenarios the report's total is succeeded plus failed plus skipped and the same number, and it sees the same failures as the metrics |

## Left out

- Flood.ReachableSafe: latency totals, durations and tick times are not modelled; requests, publishes and ticks are outcomes and events of the environment, a deadline is a cancellation.
- ChaosEngine.Engine.RunAll: start times, durations and error texts are dropped; all callbacks are one trace, as each hears the same results.
- ChaosEngine.Engine.RunParallel: the outcomes of the goroutines' attempts are fixed per step and attempt rather than dependent on the interleaving.
- Scheduler.RunAndReport: claims about the report need runs without parallel scenarios, because the report builder appends without a lock; the metrics collector is locked and counted as atomic.
- Campaign.RunAll: the other experiments answer as an oracle says; only Kubernetes chaos is run for real. Its loop is the engine's with that experiment in it, so the results are proved to be the engine's.
- ScenarioRun.RunScenarios: the Kubernetes steps of a parallel scenario run one after another; the experiment appends to its records without a lock, so concurrent runs of it have no defined effect.
- Restoring.CountsComeBackIff: policies and exclusions that protect some deployments can save a count under other configurations too; `Campaign.RunAndRollback` has the condition for those.
- Estimate.KeepsIff: with exclusions or name patterns the same configurations keep within the number, and possibly more.
- K8s.ChaosK8s.Run: label selectors and grace periods only affect what list calls return and how pods end, so they are not modelled; a replica count is an unbounded integer.
- Safety.NewPolicy: compiling and matching regular expressions are uninterpreted functions.
- HtmlEscape.EscapeInjective: texts are sequences of characters; the source works on UTF-8 bytes, where the five characters are single bytes as well.
- The HTTP, gRPC, AMQP, Kafka, NATS and Kubernetes clients, and running `tc` and `iptables`: foreign calls, present only by their outcomes.
- The CPU, memory and disk stress bodies and their temporary files: resource use without a contract.
- Configuration loading and validation, health probes, notifications, logging, the metrics server, the prompt and flags of the command line, report file formats: single checks, layout or input and output.
- The "once" mode of the scheduler: it is one engine round.
