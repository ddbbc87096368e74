# Run: the phase sequencer of a perf benchmark run

This project models `Run`, the class of perf's ssh module that drives one benchmark run
over a set of remote hosts. A run keeps:

- its hosts;
- its roles;
- for every host, a setup-script set (kept in insertion order) and a run-script set;
- a queue of pending downloads per host;
- the name of its completion latch.

Running it goes through these phases. The check comes first and setup second. The run batch
follows the end of the setup batch, and the downloads come last. The latch is named once setup
has returned, which may be before or after the run batch has started (see Findings).

1. **Check.** The signal graph is checked statically. Every name emitted by a run script is
   counted on the coordinator, whatever the verdict. The run is refused when a script summary
   carries warnings, or when some waited name is never emitted.
2. **Setup batch.** Each host with setup scripts gets one composite script `<hostname>-setup`
   that invokes those scripts in order. A session is opened for it and the script is
   scheduled on the dispatcher. A session that fails to open aborts the run: the dispatcher
   is stopped and the latch is signalled.
3. **Run batch.** When the setup batch is over, its observer queues every (host, run script)
   pair the same way. When the run batch is over, the run observer signals the latch.
4. **Latch.** After setup returns, the completion latch is named from the clock, initialised
   with count 1 and waited on.
5. **Downloads.** Once the latch is released, every queued download is fetched, host by host
   and in queue order, and the queue is emptied.

Every call the run makes on a collaborator is appended to a log, `effects`. The collaborators
are the coordinator, the dispatcher, remote sessions and the local downloader. Properties
about order ("setup before the latch", "one download per entry, in queue order") are stated
about that log.

Three inputs cannot be seen from `Run` and are passed in as parameters:

- whether a session opens for a (host, script): `opens`;
- the static summary of a script: `summarize`;
- the clock reading that names the latch: `now`.

Hash-set and hash-map iteration order is unspecified. Such loops pick an element with `:|`
and return the visiting order as a ghost out-parameter, so that every contract holds for
every order.

Files:

- `model.dfy` (module `Model`): the values (hosts, scripts, summaries, downloads, effects)
  and the duplicate-free predicate.
- `host_scripts.dfy` (module `HostScriptSets`): the per-host script sets.
- `downloads.dfy` (module `Downloads`): the download queue and what a flush fetches.
- `signal_graph.dfy` (module `SignalGraph`): the check before a run.
- `phases.dfy` (module `Phases`): the call traces of the setup and run batches.
- `run.dfy` (module `Sequencer`): the `Run` class itself, plus the findings.

`run()` is modelled as three methods, cut where other threads can act on the run. A ghost
field `phase` (`Idle`, `Prepared`, `Awaiting(latch)`) records how far the current call of
`run()` has got, so that the three are called in the code's order. `Run` and
`RunLatchFirst` start from `Idle`, as one call of `run()` does:

- `Run` is the check and the setup phase (`Run.java:283-288`). Setup starts the dispatcher
  as its last step, so the setup batch may end, and its observer fire, before `run()` goes on.
  Only a run that passes the check becomes `Prepared`; a refused or throwing one returns
  from `run()` with its phase unchanged (`Run.java:284-287`).
- `AwaitLatch` requires `Prepared`. It names the completion latch from the clock,
  initialises it and waits on it (`Run.java:290-292`), and the phase becomes `Awaiting`
  that latch.
- `FinishRun` is the rest of `run()` (`Run.java:293`). It requires `Awaiting` a latch that
  is released: signalled after its initialisation (the predicate `Released`). The phase
  goes back to `Idle`.

The two dispatcher observers are the events `OnStop(SetupObserver)` and
`OnStop(RunObserver)`. A caller may send one whenever that observer is registered, so
`OnStop(SetupObserver)` may come between `Run` and `AwaitLatch`.

Where the specification of the system and the code disagree, the model follows the code.
These are the differences:

- The specification says the check fails exactly when a waited name has no emitter. The code
  also fails it when a script summary has warnings (`Run.java:190-196`).
- The specification says a failed check has no side effects. The code initialises the
  coordinator with every emit count before it reaches the verdict (`Run.java:205-209`);
  `PreRun` and `Run` state those calls for the refused outcome too.
- The specification says an abort releases the completion latch. In the code, an abort
  signals the latch as it is at that moment, so an abort before `run()` names its latch
  signals the previous one (see Findings).
- The specification says an abort skips the download flush. In the code, an abort after the
  latch is named and initialised (`Run.java:290-291`) signals that latch, so `waitFor`
  returns and `runPendingDownloads()` fetches the queue (`Run.java:293`). In the model,
  `LatchFirstRunAbortReleases` gives `Released` for the awaited latch, which is what
  `FinishRun` requires.
- The specification lists the latch before the run batch. In the code the setup batch can
  end, and the run batch start or even finish, before line 290 names the latch.

## Model

| member | source | states |
|---|---|---|
| HostScriptSets.Insert | ssh/src/main/java/perf/ssh/Run.java:43-45 | adding to the ordered setup set keeps the earlier scripts in place as a prefix, adds at most one script, leaves exactly the old scripts plus the new one, and keeps the set duplicate-free |
| HostScriptSets.Without | ssh/src/main/java/perf/ssh/Run.java:46-48 | removing a setup script leaves exactly the other scripts (their order is `WithoutRemovesAt`) |
| HostScriptSets.WithoutKeepsDistinct | ssh/src/main/java/perf/ssh/Run.java:31 | the setup set never holds a script twice after a remove |
| HostScriptSets.WithoutAbsent | ssh/src/main/java/perf/ssh/Run.java:46-48 | removing a script that is not there changes nothing |
| HostScriptSets.WithoutRemovesAt | ssh/src/main/java/perf/ssh/Run.java:46-48 | removing a script from the duplicate-free setup list leaves the scripts before it and after it, each part in its order |
| HostScriptSets.WithoutUndoesInsert | ssh/src/main/java/perf/ssh/Run.java:43-48 | adding a new setup script and removing it again restores the original order |
| HostScriptSets.HostScripts.constructor | ssh/src/main/java/perf/ssh/Run.java:33-36 | both sets start empty |
| HostScriptSets.HostScripts.AddRunScript | ssh/src/main/java/perf/ssh/Run.java:37-39 | the run set gains the script |
| HostScriptSets.HostScripts.RemoveRunScript | ssh/src/main/java/perf/ssh/Run.java:40-42 | the run set loses the script |
| HostScriptSets.HostScripts.AddSetupScript | ssh/src/main/java/perf/ssh/Run.java:43-45 | the setup set becomes the insertion-ordered add and stays duplicate-free |
| HostScriptSets.HostScripts.RemoveSetupScript | ssh/src/main/java/perf/ssh/Run.java:46-48 | the setup set becomes the order-keeping removal and stays duplicate-free |
| HostScriptSets.HostScripts.SetupScripts | ssh/src/main/java/perf/ssh/Run.java:49 | the list is the setup scripts in insertion order, each once |
| HostScriptSets.HostScripts.RunScripts | ssh/src/main/java/perf/ssh/Run.java:50 | the list holds exactly the run scripts, each once |
| Downloads.Ensure | ssh/src/main/java/perf/ssh/Run.java:128-134 | a host without a queue gets an empty one; every other queue is unchanged |
| Downloads.EnsureIdempotent | ssh/src/main/java/perf/ssh/Run.java:128-134 | ensuring a queue twice is the same as once |
| Downloads.Append | ssh/src/main/java/perf/ssh/Run.java:135-138 | the download goes to the end of the host's queue, created on first use; other hosts' queues are unchanged |
| Downloads.FlushFetchesQueueInOrder | ssh/src/main/java/perf/ssh/Run.java:139-151 | a flush fetches, for every host, exactly its queue: one download per entry, in queue order |
| Downloads.FlushOnlyDownloads | ssh/src/main/java/perf/ssh/Run.java:139-151 | a flush makes only download calls, and none when nothing is queued |
| SignalGraph.Tally | ssh/src/main/java/perf/ssh/Run.java:197-199 | counting a summary's signals adds one per emit site |
| SignalGraph.EmittedRemove | ssh/src/main/java/perf/ssh/Run.java:186-202 | the emit count does not depend on the order the pairs are visited in |
| SignalGraph.EmittedInsert | ssh/src/main/java/perf/ssh/Run.java:186-202 | visiting one more pair adds exactly its emit sites to the counts |
| SignalGraph.EmittedMembers | ssh/src/main/java/perf/ssh/Run.java:197-201 | a name has a positive count exactly when some pair emits it |
| SignalGraph.ConsistentIffCounted | ssh/src/main/java/perf/ssh/Run.java:210-219 | the check passes iff no summary has warnings and every waited name has a positive count; names nobody waits for do not matter |
| SignalGraph.ScanPair | ssh/src/main/java/perf/ssh/Run.java:188-201 | folding in one pair keeps the warnings flag, counts, waited names and emitted names equal to their definitions over the visited pairs |
| SignalGraph.ScanHost | ssh/src/main/java/perf/ssh/Run.java:187-202 | after one host's run scripts, the warnings flag, counts, waited names and emitted names equal their definitions over the earlier pairs plus that host's pairs |
| Phases.HostSetupScript | ssh/src/main/java/perf/ssh/Run.java:248-251 | the composite script is named `<hostname>-setup` and invokes each setup script once, in order |
| Phases.BuildHostSetup | ssh/src/main/java/perf/ssh/Run.java:248-251 | building the composite script step by step yields that script |
| Phases.SetupStartsIffAllConnect | ssh/src/main/java/perf/ssh/Run.java:245-270 | the setup phase starts the dispatcher iff every visited host's session opens |
| Phases.SetupAbortEndsTrace | ssh/src/main/java/perf/ssh/Run.java:258-262 | a failed setup session ends the phase with stop-then-signal of the latch current at that moment; no other latch is signalled |
| Phases.SetupSchedule | ssh/src/main/java/perf/ssh/Run.java:245-270 | when all sessions open, setup schedules exactly the composite scripts of the hosts that have setup scripts, in host order |
| Phases.SetupJobsMembers | ssh/src/main/java/perf/ssh/Run.java:246-251 | a host gets a composite script iff it is visited and has setup scripts, and that script invokes them in insertion order |
| Phases.QueueSchedule | ssh/src/main/java/perf/ssh/Run.java:315-339 | the run phase schedules the visited pairs in order, all of them when every session opens; the run observer is added and the dispatcher started iff no session failed |
| Phases.QueueAbortEndsTrace | ssh/src/main/java/perf/ssh/Run.java:325-328 | a failed run session ends the phase with stop-then-signal of the latch |
| Phases.QueueSignalsOnly | ssh/src/main/java/perf/ssh/Run.java:315-339 | the run phase signals no latch but the one set when it began |
| Sequencer.Run.constructor | ssh/src/main/java/perf/ssh/Run.java:80-125 | a new run has no roles, hosts, script sets or downloads, no latch, and has made no calls |
| Sequencer.Run.EnsurePendingDownload | ssh/src/main/java/perf/ssh/Run.java:128-134 | the queue map becomes `Ensure` of the old one and the host's queue is returned |
| Sequencer.Run.AddPendingDownload | ssh/src/main/java/perf/ssh/Run.java:135-138 | the queue map becomes `Append` of the old one |
| Sequencer.Run.RunPendingDownloads | ssh/src/main/java/perf/ssh/Run.java:139-151 | every queued host is visited once and its queue fetched; the calls are the flush trace of the old queue; the queue is emptied |
| Sequencer.Run.EnsureHostScripts | ssh/src/main/java/perf/ssh/Run.java:152-158 | an existing entry is returned as is; a missing one is created empty; no other entry changes |
| Sequencer.Run.AddRunScript | ssh/src/main/java/perf/ssh/Run.java:166-169 | the host's run scripts gain the script; its setup scripts and every other host's scripts are unchanged |
| Sequencer.Run.RemoveRunScript | ssh/src/main/java/perf/ssh/Run.java:170-172 | as written: the script leaves the host's setup scripts, and the run scripts are unchanged |
| Sequencer.Run.RemoveRunScriptIntended | ssh/src/main/java/perf/ssh/Run.java:170-172 | the script leaves the host's run scripts, and the setup scripts are unchanged |
| Sequencer.Run.AddSetupScript | ssh/src/main/java/perf/ssh/Run.java:173-176 | the host's setup scripts become the insertion-ordered add; nothing else changes |
| Sequencer.Run.RemoveSetupScript | ssh/src/main/java/perf/ssh/Run.java:177-179 | the host's setup scripts lose the script, keeping their order; nothing else changes |
| Sequencer.Run.GetRunScripts | ssh/src/main/java/perf/ssh/Run.java:360-362 | returns the host's run scripts, each once; creates an empty entry when missing and changes no scripts |
| Sequencer.Run.GetSetupScripts | ssh/src/main/java/perf/ssh/Run.java:363-365 | returns the host's setup scripts in insertion order; creates an empty entry when missing and changes no scripts |
| Sequencer.Run.AddHost | ssh/src/main/java/perf/ssh/Run.java:372-374 | the hosts gain the given host |
| Sequencer.Run.AddAllHosts | ssh/src/main/java/perf/ssh/Run.java:375-377 | as written: the parameter is appended to itself and the registered hosts are not touched |
| Sequencer.Run.AddAllHostsIntended | ssh/src/main/java/perf/ssh/Run.java:375-377 | the hosts gain every listed host |
| Sequencer.Run.AllHosts | ssh/src/main/java/perf/ssh/Run.java:369-371 | lists exactly the registered hosts, each once |
| Sequencer.Run.AddRole | ssh/src/main/java/perf/ssh/Run.java:349-351 | the role is stored under its name, replacing any earlier one |
| Sequencer.Run.GetRole | ssh/src/main/java/perf/ssh/Run.java:353-358 | an existing role is returned and nothing changes; a missing one is created under that name and returned |
| Sequencer.Run.GetRoleNames | ssh/src/main/java/perf/ssh/Run.java:352 | lists exactly the role names, each once |
| Sequencer.Run.Abort | ssh/src/main/java/perf/ssh/Run.java:159-164 | stops the dispatcher, then signals the latch as currently set |
| Sequencer.Run.PostRun | ssh/src/main/java/perf/ssh/Run.java:341-345 | signals the latch as currently set |
| Sequencer.Run.PreRun | ssh/src/main/java/perf/ssh/Run.java:181-220 | throws (no calls made) iff a host has no script entry; otherwise visits exactly the (registered host, run script of that host) pairs, initialises every emitted name once with its emit count over those pairs whatever the verdict, and passes iff the pairs are consistent |
| Sequencer.Run.InitializeCounts | ssh/src/main/java/perf/ssh/Run.java:205-209 | one initialisation per counted name, each with its count |
| Sequencer.Run.ScheduleHostSetup | ssh/src/main/java/perf/ssh/Run.java:246-268 | one host's setup calls; reports whether the host's session opened (or it had nothing to set up) |
| Sequencer.Run.Setup | ssh/src/main/java/perf/ssh/Run.java:221-271 | visits each registered host at most once and all of them unless a session fails; the calls are the setup trace; the setup observer is registered |
| Sequencer.Run.QueueRunScripts | ssh/src/main/java/perf/ssh/Run.java:296-340 | queues distinct pairs of the run, all of them unless a session fails; the calls are the run-batch trace; the run observer is registered iff no session failed |
| Sequencer.Run.OnStop | ssh/src/main/java/perf/ssh/Run.java:235-239 | the end of the setup batch removes its observer and queues the run scripts (every registered host needs a script entry for that); the end of the run batch removes its observer and signals the latch (`Run.java:309-312`), whatever hosts were added since |
| Sequencer.Run.Run | ssh/src/main/java/perf/ssh/Run.java:277-288 | throws (no calls) iff a host has no entry; is refused iff the check fails, and then only the counts are initialised; in both cases the phase is unchanged, so the rest of `run()` cannot follow; otherwise the calls are the counts, then the setup trace under the latch as it is before naming, the setup observer is registered and the run is `Prepared` |
| Sequencer.Run.AwaitLatch | ssh/src/main/java/perf/ssh/Run.java:290-292 | only after a run that was set up: the latch becomes `run-<now>`, is initialised with count 1 and waited on, and the run is `Awaiting` it |
| Sequencer.Run.RunLatchFirst | ssh/src/main/java/perf/ssh/Run.java:277-292 | the same throw and refusal cases, counts and unchanged state as `Run`; when it goes on, the calls are the counts, the latch initialise(1), the setup trace under that latch, and the wait, with the setup observer registered, all hosts visited unless a session fails, and the run `Awaiting` that latch |
| Sequencer.Run.FinishRun | ssh/src/main/java/perf/ssh/Run.java:293 | only while awaiting a latch that was signalled after its initialisation: every queued download is fetched, the queue emptied, and the run is `Idle` again |
| Sequencer.SetupAbortStrandsLatch | ssh/src/main/java/perf/ssh/Run.java:159-164 | as written, a failed setup session signals the latch as it was before naming, every signal from the check to the wait is of that latch, and the latch initialised and waited on afterwards is not released at the wait |
| Sequencer.RunBatchAbortStrandsLatch | ssh/src/main/java/perf/ssh/Run.java:325-328 | as written, a run batch that starts before the latch is named and loses a session signals the unnamed latch and no other, never registers the run observer, and the latch waited on afterwards is not released |
| Sequencer.RunBatchEndStrandsLatch | ssh/src/main/java/perf/ssh/Run.java:341-345 | as written, a run batch that ends normally before the latch is named has the run observer signal the unnamed latch, no other latch is signalled in either batch, and the latch waited on afterwards is not released |
| Sequencer.LatchFirstAbortReleases | ssh/src/main/java/perf/ssh/Run.java:286-292 | with the latch named first, a failed setup session releases it before the wait |
| Sequencer.LatchFirstRunAbortReleases | ssh/src/main/java/perf/ssh/Run.java:325-328 | once the latch is named and initialised, a failed run session releases it, which is what lets `FinishRun` fetch the downloads |
| Sequencer.RemoveRunScriptKeepsIt | ssh/src/main/java/perf/ssh/Run.java:170-172 | a run script that was added, then removed, is still listed |
| Sequencer.RemoveRunScriptIntendedDropsIt | ssh/src/main/java/perf/ssh/Run.java:170-172 | removed as intended, the run script is no longer listed |
| Sequencer.AddAllHostsRegistersNone | ssh/src/main/java/perf/ssh/Run.java:375-377 | a new run given a host list registers no host |
| Sequencer.AddAllHostsIntendedRegistersAll | ssh/src/main/java/perf/ssh/Run.java:375-377 | added as intended, exactly the listed hosts are registered |

## Left out

- Logging, the Logback appender wiring (`Run.java:91-121`) and the coordinator's
  signal-reached logger: they have no effect on the run.
- Threads and concurrency. The download queue and the script maps are not safe under
  concurrent access; the model is sequential. The dispatcher's worker pools and the moment
  its observers fire are reduced to the `OnStop` events.
- State, Profiler, Profiles and CommandContext objects: they are created but only passed on
  to the dispatcher.
- The internals of the coordinator, the dispatcher, `SshSession`, `Local.download`, the
  script repository and `CommandSummary`. They are calls in `effects`, or the `opens` and
  `summarize` parameters.
- Hash-set and hash-map iteration order: it is left unspecified, and contracts hold for
  every order.
- Script identity is modelled as value equality. The code uses the scripts' own `equals`
  and `hashCode`, which is not part of this model.
- Sequencer.Run.Setup, Sequencer.Run.QueueRunScripts and `OnStop(SetupObserver)` require
  that every registered host has a script entry. Without one the code throws a null-pointer exception; within `run()`
  the check throws first, and `PreRun` and `Run` model that throw as an outcome.
- `SshRunner` and `EventFields` are not part of this model.
- The clock reading is the parameter `now`, and the latch name is `"run-"` followed by its
  decimal digits.
- The dispatcher's observers run on its own threads. The model interleaves them only
  between whole methods: `OnStop(SetupObserver)` may come between `Run` and `AwaitLatch`, or
  after `AwaitLatch`, but not in the middle of a method.
- Sequencer.Run.RunLatchFirst is one method from the check to the wait. Since its latch is
  named before setup starts the dispatcher, an observer firing in between signals that same
  latch, so nothing is lost by not interleaving there.
- The coordinator's counting is reduced to the predicate `Released`: a latch is released
  when it has been signalled after its initialisation with count 1, and not initialised
  again since. Whether `Coordinator.signal(null)` throws is not part of this model.
- Whether `dispatcher.stop()` fires the observers still registered is not part of this
  model. If it did, the setup observer left registered by an abort during setup would
  queue the run batch.
- Sequencer.Run.AddAllHosts models `hosts.addAll(hosts)` on a growable list. On a
  fixed-size or unmodifiable list (`Arrays.asList`, `List.of`) the call throws
  `UnsupportedOperationException` instead. The registered hosts are untouched either way.

## Findings

| source | as written | input that shows it | evidently intended | confidence | as-written member | corrected member |
|---|---|---|---|---|---|---|
| ssh/src/main/java/perf/ssh/Run.java:170-172 | `removeRunScript` removes the script from the host's setup scripts | add run script `s` to host `h`, then remove run script `s`: `s` is still a run script of `h` (`RemoveRunScriptKeepsIt`) | the script leaves the run scripts (`RemoveRunScriptIntendedDropsIt`) | high, not executed | Sequencer.Run.RemoveRunScript | Sequencer.Run.RemoveRunScriptIntended |
| ssh/src/main/java/perf/ssh/Run.java:375-377 | the parameter `hosts` shadows the field, so the list is appended to itself and no host is registered | a new run given the list `[h]` registers no host (`AddAllHostsRegistersNone`) | every listed host is registered (`AddAllHostsIntendedRegistersAll`) | high, not executed | Sequencer.Run.AddAllHosts | Sequencer.Run.AddAllHostsIntended |
| ssh/src/main/java/perf/ssh/Run.java:286-292 | the latch is named only after `setup()`, so an abort before line 290 signals the previous (initially null) latch name | (1) a host with setup scripts whose session does not open (`SetupAbortStrandsLatch`); (2) no host has setup scripts, the setup batch ends at once, and a run session does not open before line 290 runs (`RunBatchAbortStrandsLatch`); (3) the setup batch and then the run batch both end normally before line 290 runs, and `postRun()` (line 343) signals the null latch (`RunBatchEndStrandsLatch`; in the model, `Run`, `OnStop(SetupObserver)`, `OnStop(RunObserver)`, then `AwaitLatch`). In each case the run initialises and waits on a latch nothing has signalled since. The hang in (1) and (2) also depends on whether `dispatcher.stop()` fires the setup observer still registered, and all three depend on whether `Coordinator.signal(null)` throws; both are outside this model | the latch is named and initialised before setup, so an abort in either batch releases the wait (`LatchFirstAbortReleases`, `LatchFirstRunAbortReleases`) | medium, not executed | Sequencer.Run.Run | Sequencer.Run.RunLatchFirst |
