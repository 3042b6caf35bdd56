# BypssEng: a verified model

BypssEng is an asyncio engine that diagnoses how a network is filtered, tries bypass strategies in order of their scores,
starts the proxy processes of the first one that works, and keeps watching the connection. This project models its
decision, connection and recovery logic in Dafny and proves what the code keeps, over every input, every environment
and every run. Where the code falls short of its own documentation, the exact condition is proved instead.

Check everything with `dafny verify dfyconfig.toml`.

## How the model is built

Code that changes state is modelled by classes and methods whose contracts equate the new state with a specification
function; the theorems are lemmas about those functions. Everything outside the program (probe results, spawn failures,
registry writes, exceptions, crashes, clocks) is a parameter chosen freely by the environment: `Plan` in `Connection`,
`Env` in `Orchestrator`, the interruption point `cut` in `DnsJournal`.

| file | subject |
|---|---|
| `Connection.dfy` | one connection attempt as a sequence of effects on tracked processes, session ports and the system proxy, with its rollback |
| `Interleaving.dfy` | attempts of the engine and of manual connects interleaving at every effect under one lock |
| `Executor.dfy` | three score-sorted tiers of candidates, tried until one connects |
| `StateMachine.dfy`, `Orchestrator.dfy` | the transition table, the engine loop, its exception handler and the watchdog, as traces |
| `DecisionRules.dfy` | the rule engine, the seven policies, the aggregation of diagnoses |
| `DnsJournal.dfy` | the DNS backup in the state file, with a crash or exception possible between any two commands and commands that fail silently |
| `XrayConfig.dfy` | the outbound graph written for Xray: chaining, balancer and single exits |
| `ProbePort.dfy` | the engine loop composed with the executor: what its probe of a fixed port means for whole runs |
| `Utf8.dfy`, `Base64.dfy`, `IpAddress.dfy`, `ShadowsocksLink.dfy`, `Subscription.dfy`, `Dedup.dfy`, `DnsQuery.dfy` | codecs, link parsing, subscription bodies, deduplication, the DNS query packet |
| `Learning.dfy` | cycles of diagnosis, scoring, attempts and recording: what the history means for later decisions |
| `Telemetry.dfy`, `Scorer.dfy` | the decayed success rate, the smoothed posterior, health and score |
| `Text.dfy`, `Sorting.dfy`, `Sequences.dfy` | Python string operations; insertion into ordered lists; equalities of sequences |

## What turned out false of the code

Each is proved as an exact condition, with a concrete input or a family of inputs beside it.

- A late failure forgets the processes of the previous connection: they stop exactly under the condition of
  `Connection.OldProcessesStoppedIff`; `Connection.OldProcessLeftRunning` is a case in which one runs on.
- The health probe keeps the HTTP port it copied when the engine was built; it is out of date after a run exactly when
  the first attempt to connect did so on another port (`Executor.RunPorts`, `Executor.ProbeOutOfDate`). If the probe
  passes only on the session's port, ACTIVE requires a connection on the copied port (`ProbePort.ActiveNeedsProbePort`),
  and an engine that always gets new ports never stays ACTIVE (`ProbePort.NeverActive`).
- After a failed attempt nothing serves the system proxy, yet it is enabled exactly when disabling it had no effect and
  it was enabled before or by the attempt (`Interleaving.EnabledAfterFailureIff`, `Interleaving.DeadProxyLeftEnabled`).
  Its address then differs from the session's port exactly when disabling had no effect and the attempt wrote a new
  address or enabled a foreign one (`Interleaving.CoherentAfterFailureIff`, `Interleaving.ForeignAddressLeft`).
- The repository's README (`README.md:82`) drops WARP with the other UDP strategies when UDP is blocked; the executor
  still tries warp and dnstt (`Executor.UdpDroppedIff`).
- The split tunnelling promised in `README.md:51` fails exactly when a balancer is written, whose rule is inserted first
  (`XrayConfig.SplitTunnel`, `XrayConfig.BalancerTakesDomestic`). The engine as shipped passes None for all_configs
  (`BypssEng.py:293`), so it never writes one.
- The outbound built from the credentials carries traffic exactly when neither a chaining block nor the balancer takes
  effect (`XrayConfig.InnerSelectedIff`, `XrayConfig.ChainedTrojanUnused`). Chaining needs all_configs too, so the engine
  as shipped never reaches it (`BypssEng.py:293`).
- The Bayesian update promised in `README.md:54` would keep a single success from ranking first; the code's statistic
  ignores the number of outcomes (`Telemetry.FullRateIff`, `Telemetry.OneSuccessSuffices`), and counts a history of
  failures like no history (`Telemetry.PosteriorMonotoneIff`, `Telemetry.FailureAloneRanksHigher`).
- The adaptive learning promised in `README.md:53-55` does not happen: outcomes are recorded under the names of the
  diagnosed conditions and read under the DPI state, so in every run the candidates, their scores and their order are
  those of an engine without any history (`Learning.NothingIsRead`, `Learning.HistoryIsInert`). The strategies that are
  ever tried follow from the states alone (`Learning.CandidatesAre`): without aggressive inspection or throttling no
  configured link is (`Learning.LinksSkipped`).
- With several configurations and nothing that can be built, `prepare` still writes a document, and its default is to
  connect without a server (`XrayConfig.UnproxiedIff`).
- hysteria2 links are never deduplicated (`Dedup.KeyedExceptHysteria`, `Dedup.HysteriaAllKept`). Two different links
  share a key exactly when one host absorbs the other's port (`Dedup.KeysEqualIff`); for IPv6 hosts such pairs exist and
  the second link is dropped (`Dedup.KeyCollides`).
- The two Shadowsocks link forms disagree exactly for hosts with an upper-case letter before any zone identifier, ports
  above 65535 and bracketed texts that are no addresses (`ShadowsocksLink.FormsAgreeIff`,
  `ShadowsocksLink.UpperCaseDisagrees`, `ShadowsocksLink.WidePortDisagrees`, `ShadowsocksLink.BracketedNameDisagrees`).
- A DNS name with an empty, long or non-ASCII label builds a packet that does not read back
  (`DnsQuery.QueryRoundTripIff`, `DnsQuery.TrailingDotUnreadable`): label lengths are counted in characters.
- A DNS backup is useless when the query or the save failed, or the recorded list was empty (`DnsJournal.RestoredIff`,
  `DnsJournal.UnreadSettingLost`), and covers one interface only (`DnsJournal.SecondInterfaceIff`,
  `DnsJournal.EthernetNotRestored`). A missing or unreadable backup closes the journal with the settings still changed
  (`DnsJournal.BackupUnusable`).
- A restore ignores exit codes: it closes the journal although a command had no effect. The settings stay recoverable
  exactly when all commands took effect, or the first did not and the interface already had just the configuration that
  the commands without effect would have given it (`DnsJournal.BackupKeptIff`, `DnsJournal.SecondServerLost`).
- A requested transition is refused exactly when it is the BASELINE request after the watchdog's write, and the engine
  then restarts in DEGRADED (`Orchestrator.OnlyReentryRefused`, `Orchestrator.RestartRefused`).

## Model

| member | source | states |
|---|---|---|
| Connection.Connector.ExecuteBypassAndConnect | BypssEng.py:276-379 | for every environment the world after the call is the effect sequence of the specification applied to the world at entry, and the answer is the specified one |
| Connection.Connector.RestoreStateOnFailure | BypssEng.py:284-289 | stops every tracked process, forgets them, puts both ports back and disables the proxy unless only diagnosing |
| Connection.Connector.CheckAndSwitch | BypssEng.py:352-374 | the check loop performs exactly the specified effects: enabling and switching at the first check that passes, going on after an exception during or after the terminations, and at the end True if the switch was complete, else a rollback |
| Connection.Connector.RunCheck | BypssEng.py:355-369 | one check: nothing, a refusal with rollback, a switch interrupted before or after the last termination, or a complete one |
| Connection.Connector.Launch | BypssEng.py:314-379 | the spawn loop and the checks, with rollback when building the commands or a spawn raises |
| Connection.Connector.Replace | BypssEng.py:317-336 | the tracked list becomes one fresh process per command, in command order |
| Connection.Connector.StopAll | bypsseng/runtime/process.py:92-103 | every process that has not ended is told to stop, in order |
| Connection.RuntimeSession.SetupDynamicPorts | bypsseng/infrastructure/runtime_session.py:24-32 | the session holds exactly the two new ports and their sockets |
| Connection.RuntimeSession.ReleaseReservedPorts | bypsseng/infrastructure/runtime_session.py:41-52 | all sockets are closed and both ports cleared |
| Connection.RuntimeSession.ReleaseBindingSockets | bypsseng/infrastructure/runtime_session.py:54-60 | the sockets are closed, the ports stay |
| Connection.SystemProxy.Enable | bypsseng/infrastructure/system_network.py:558-587 | a failure leaves the proxy untouched, enabled with its old address, or fully written; success points it at the port |
| Connection.SystemProxy.Disable | bypsseng/infrastructure/system_network.py:584-587 | clears the flag and keeps the address |
| Connection.FinalIs | BypssEng.py:276-379 | closed form of an attempt's result, field by field, over any number of checks, interruptions and refusals |
| Connection.AnswerIff | BypssEng.py:300-379 | the answer is True exactly when a strategy exists, is prepared, its commands are built and all start, and either the first check that is refused or passes uninterrupted passes, or there is no such check and some exception struck right after the last termination |
| Connection.CreatedAre | BypssEng.py:328-336 | exactly the commands before the one that fails to start get a process, in command order |
| Connection.TrueReturn | BypssEng.py:316-336 | a True answer leaves exactly one process per command in command order, none stopped, every process tracked at entry stopped, the new ports, no reserved socket, and the proxy on the new port |
| Connection.FalseReturn | BypssEng.py:284-289 | a False answer leaves nothing tracked, every process of the attempt stopped, both ports as at entry, the new sockets bound exactly when it failed before releasing them, and the proxy off when disabling takes effect |
| Connection.OldProcessesStoppedIff | BypssEng.py:317-379 | after a False answer the processes tracked at entry are all stopped exactly when the attempt failed before forgetting them, or those its checks did not tell had stopped already |
| Connection.OldStoppedIff | BypssEng.py:352-379 | after a False answer one old process has stopped exactly when it had before, or the attempt failed before forgetting it, or all new processes started and a check that passed got past it with no check before ending the loop |
| Connection.OldProcessLeftRunning | BypssEng.py:317-334 | a spawn that fails after the old connection was forgotten leaves its process running, tracked by nobody |
| Connection.WellNumberedKept | BypssEng.py:328-336 | handles stay fresh, and only processes tracked at entry or spawned by the attempt are ever told to stop |
| Interleaving.Serialisable | BypssEng.py:277-277 | at every point of every interleaving the world the lock holder will leave equals the attempts run one by one in lock order, up to processes that ended by themselves |
| Interleaving.StepKeepsInvariant | BypssEng.py:431-444 | each step of any task or of the operating system keeps that correspondence |
| Interleaving.LockFreeCoherent | bypsseng/runtime/process.py:15-15 | in every interleaving an enabled proxy written by the engine points at the session's HTTP port whenever the lock is free exactly when every attempt connects, can disable the proxy, or leaves no foreign address |
| Interleaving.ReleaseKeepsPromise | BypssEng.py:276-379 | whatever interleaves and whatever earlier attempts did, an attempt about to release the lock has kept the promise of its answer on processes, ports, sockets and the proxy |
| Interleaving.AttemptKeepsGood | BypssEng.py:352-379 | one attempt keeps the proxy coherent exactly under that condition, and always without an address of the engine while only diagnosing |
| Interleaving.SerialCoherentIff | BypssEng.py:276-379 | attempts run one by one are coherent throughout exactly when each of them meets it |
| Interleaving.LockFreePromise | BypssEng.py:276-379 | the same at every point at which the lock is free, for the last attempt |
| Interleaving.EnabledIsServed | BypssEng.py:352-379 | in every interleaving in which disabling works, an enabled proxy of the engine at a free lock means that the last attempt answered True and its processes are tracked and not told to stop |
| Interleaving.EnabledAfterFailureIff | BypssEng.py:284-304 | after a failed attempt nothing is tracked, and the proxy is enabled exactly when disabling had no effect and it was enabled at entry or by the attempt |
| Interleaving.DeadProxyLeftEnabled | BypssEng.py:300-304 | a missing binary stops the live connection; with a failing disabling call its proxy stays enabled |
| Interleaving.CoherentAfterFailureIff | BypssEng.py:360-375 | a failed attempt leaves the proxy's address equal to the session's port exactly when disabling took effect or no foreign address was written or enabled, also when it gets the previous port again |
| Interleaving.ForeignAddressLeft | BypssEng.py:360-362 | an enabling call that raises after its address, then a disabling call without effect, leave the proxy on a port that is not the session's |
| Executor.OrderCandidates | BypssEng.py:385-411 | the candidates are the specified ordered ones, which `Executor.TierOrder` describes |
| Executor.TierOrder | BypssEng.py:393-411 | the candidates fall into three parts, for the personal links, the collected ones with the worker, and the five fallbacks; each holds every supported entry once with the score of its protocol, higher scores first and equal ones in the order of the configuration |
| Executor.CandidateIff | BypssEng.py:393-415 | an entry is a candidate exactly when it is configured or a fallback, and eligible with its score |
| Executor.SortedIsStable | BypssEng.py:390-390 | the sort is a descending permutation and keeps the order of equal scores |
| Executor.BypassExecutor.Execute | BypssEng.py:413-429 | the loop over all candidates leaves the world, records, alternatives and selection of the fold over the eligible ones |
| Executor.BypassExecutor.Run | BypssEng.py:381-429 | ordering and trying composed: the fold over the eligible ones of the ordered candidates |
| Executor.FilterMembers | BypssEng.py:414-415 | filtering keeps exactly the candidates that meet its condition, here a score above 0.1 or a protocol that is always tried |
| Executor.FilterPositions | BypssEng.py:414-415 | it keeps their order and repetitions |
| Executor.CutAfterSuccess | BypssEng.py:413-429 | the attempts are the eligible candidates in order cut after the first success, one record each; without a success all of them were tried, and every record but a final success says failure |
| Executor.TiersInOrder | BypssEng.py:409-415 | by the time a link that is not personal is tried, every eligible personal link was tried and failed; by the time a fallback is tried, so was every eligible link and the worker |
| Executor.AlternativesAre | BypssEng.py:413-422 | the alternatives are exactly the strategies that failed, each with the score of its last failed candidate |
| Executor.TorTriedBeforeGivingUp | BypssEng.py:407-415 | a run that connects nowhere has tried both Tor candidates, whatever is configured |
| Executor.NoUdpAttempts | bypsseng/decision/scorer.py:105-108 | under dropped UDP no attempt is made with hysteria2 or tuic |
| Executor.UdpDroppedIff | BypssEng.py:415-415 | of the strategies without TCP, exactly warp and dnstt are still eligible under dropped UDP |
| Executor.ExecutorAccounting | BypssEng.py:414-423 | over a whole run the processes it created that are still to be stopped are exactly the tracked ones, whatever its answer, when no process ends by itself |
| Executor.AccountingWithExits | BypssEng.py:414-423 | the same while processes end by themselves at any moment: every tracked process is one the run created and did not tell to stop, and no created one that still runs is untracked |
| Executor.ProbeOutOfDate | bypsseng/engine/orchestrator.py:35-35 | a run that connects on port 2081 while the probe keeps 1081 |
| Executor.RunPorts | BypssEng.py:279-287 | the ports after a run are those of the attempt that connected, else those before the run; a copy taken earlier is out of date exactly when the first attempt that connects after the failures before it got another port |
| Executor.ChainIsSerial | BypssEng.py:414-417 | the executor's attempts are a serial run of the interleaving model |
| ProbePort.ActiveNeedsProbePort | bypsseng/engine/orchestrator.py:208-215 | in every run without manual connects, if the probe passes only on the session's HTTP port, an iteration that ends in ACTIVE verified a connection made on the port copied at the start |
| ProbePort.NeverActive | bypsseng/engine/orchestrator.py:35-35 | an engine whose attempts always get other ports never stays in ACTIVE or MONITORING |
| ProbePort.TraceIs | bypsseng/engine/orchestrator.py:37-77 | such a run is a run of the engine loop |
| StateMachine.Machine.Transition | bypsseng/engine/state_machine.py:46-60 | accepts exactly the table's successors; any other request forces DEGRADED from any state |
| Orchestrator.Engine.RunFor | bypsseng/engine/orchestrator.py:37-77 | any finite part of the endless run leaves the specified trace, for every environment and any number of watchdog restarts |
| Orchestrator.Engine.Iteration | bypsseng/engine/orchestrator.py:42-77 | one pass leaves the body's trace, or the part before the exception followed by the handler's write, which it may fail to make, and the watchdog's |
| Orchestrator.Engine.Guarded | bypsseng/engine/orchestrator.py:43-73 | the body runs to its end or up to the exception, which may strike after its last event |
| Orchestrator.Engine.LoopBody | bypsseng/engine/orchestrator.py:44-69 | the branch of each state performs its events, up to the exception |
| Orchestrator.Engine.Diagnose | bypsseng/engine/orchestrator.py:79-149 | performs the specified diagnosis up to an exception; its outcome is `Orchestrator.DiagnosisIff` |
| Orchestrator.Engine.SelectAndConnect | bypsseng/engine/orchestrator.py:151-206 | its branch for an empty diagnosis is dead because the rule engine's answer is never empty |
| Orchestrator.Engine.Verify | bypsseng/engine/orchestrator.py:208-215 | a passed probe requests ACTIVE, a failed one DEGRADED |
| Orchestrator.Engine.Restart | BypssEng.py:478-489 | each crash writes RESELECTING, and the re-entered run then requests BASELINE |
| Orchestrator.RunLawful | bypsseng/engine/orchestrator.py:37-77 | in every run every recorded event is lawful and the loop head is one of seven states, so the STARTING sleep and the unknown-state branch are dead |
| Orchestrator.RunIs | bypsseng/engine/orchestrator.py:37-77 | every run is the watchdog's writes, the request for BASELINE, and then, iteration after iteration, the events listed for the state it starts in, cut by an exception and followed by the handler's and the watchdog's |
| Orchestrator.DiagnosisIff | bypsseng/engine/orchestrator.py:79-149 | in every run a diagnosis without an exception ends in DIAGNOSIS_READY exactly when the location check passes, no captive portal is found and direct access fails, and else in RESELECTING |
| Orchestrator.ExecutorCalled | bypsseng/engine/orchestrator.py:151-206 | in every run the iteration after such a diagnosis selects, starts, calls the executor and takes its answer to VERIFYING or DEGRADED |
| Orchestrator.ActiveProvenance | bypsseng/engine/orchestrator.py:151-215 | each entry to ACTIVE directly follows DIAGNOSING, DIAGNOSIS_READY, SELECTING, STARTING, a successful executor, VERIFYING and a successful probe, despite direct state writes |
| Orchestrator.OnlyReentryRefused | BypssEng.py:485-489 | in every run a requested transition is refused exactly when it is BASELINE right after the watchdog's write |
| Orchestrator.RestartRefused | BypssEng.py:485-489 | the run that crashes once before its first transition is refused BASELINE and is in DEGRADED |
| Orchestrator.DistanceDecreasesIff | bypsseng/engine/orchestrator.py:46-77 | an iteration that neither diagnoses nor finds the connection healthy comes closer to the next diagnosis unless the DEGRADED branch itself raises |
| Orchestrator.RecoveryBounded | bypsseng/engine/orchestrator.py:41-77 | from every loop head at most five such iterations pass, including after watchdog restarts |
| DecisionRules.RuleEngine.AddRule | bypsseng/engine/rule_engine.py:14-16 | appends the rule |
| DecisionRules.RuleEngine.Evaluate | bypsseng/engine/rule_engine.py:18-41 | the diagnoses of the matching rules in order, rules that raise skipped; never empty |
| DecisionRules.FiredIff | bypsseng/engine/rule_engine.py:21-26 | a diagnosis comes from a rule whose condition holds and whose action gives it; a rule that raises gives none |
| DecisionRules.SetupDecisionRules | bypsseng/decision/policies.py:9-93 | the engine holds the seven policies in order |
| DecisionRules.FiredBySubject | bypsseng/decision/policies.py:12-91 | for every state map the diagnoses split into one slot per subject |
| DecisionRules.DiagnosesDistinct | bypsseng/decision/policies.py:12-91 | no state map yields two diagnoses of the same condition |
| DecisionRules.DiagnosedIff | bypsseng/decision/policies.py:12-91 | which values of the state map are diagnosed as each condition, and that speed_failed is diagnosed exactly when none of them occurs |
| DecisionRules.GradedIs | bypsseng/decision/policies.py:12-91 | confidence and severity of each diagnosis; an unclear state counts for less than an observed one, which the evidence names |
| DecisionRules.JoinedConcat | bypsseng/engine/orchestrator.py:176-176 | the joined condition has one separator between adjacent parts |
| DecisionRules.Combine | bypsseng/engine/orchestrator.py:160-180 | the confidence is the maximum, the severity has maximal rank and is at least low, the evidence is the union, the condition joins all conditions |
| DecisionRules.PolicyConfidencePositive | bypsseng/decision/policies.py:12-91 | every diagnosis has confidence between 0.5 and 1 and a severity from low to high, so the maximum over them is never the initial zero |
| DnsJournal.SystemNetworkManager.SetSystemDns | bypsseng/infrastructure/system_network.py:319-363 | wherever it is cut and whichever commands exit without effect, the journal and the settings are those of the specified commands up to the cut |
| DnsJournal.SystemNetworkManager.RestoreSystemDns | bypsseng/infrastructure/system_network.py:198-317 | the same for a restore, including the unreadable backup and the closed journal |
| DnsJournal.SystemNetworkManager.AddAll | bypsseng/infrastructure/system_network.py:244-257 | the additions happen in order up to the cut, with or without positions |
| DnsJournal.SetOpensOnce | bypsseng/infrastructure/system_network.py:319-328 | only the first set since the journal was closed records the interface and what was read of it, before any setting changes; an empty list changes none |
| DnsJournal.RestoreCloses | bypsseng/infrastructure/system_network.py:198-312 | a restore only configures the recorded interface, then flushes the cache, and last saves the closed journal without its backup; cut before that it leaves the journal open |
| DnsJournal.BackupUnusable | bypsseng/infrastructure/system_network.py:207-213 | with a missing or unreadable backup a restore changes no setting, and after its save every later restore does nothing |
| DnsJournal.CrashSafe | bypsseng/infrastructure/system_network.py:39-45 | after any granted run of sets, restores and proxy saves, each cut anywhere and sets with commands that have no effect, the next completed restore leaves the settings the run started from exactly when it puts them back, in particular when all its commands take effect, and it closes the journal when its save succeeds |
| DnsJournal.RunKeepsRecoverable | bypsseng/infrastructure/system_network.py:198-363 | the invariant: untouched settings while the journal is closed, an exact backup of the one changed interface while it is open |
| DnsJournal.SetKeepsRecoverable | bypsseng/infrastructure/system_network.py:324-358 | a set cut anywhere keeps the settings recoverable |
| DnsJournal.RestoreRecovers | bypsseng/infrastructure/system_network.py:198-314 | a restore cut anywhere keeps the settings recoverable unless it saves its end without having put them back; completed it puts the original back exactly under the stated condition on the commands without effect |
| DnsJournal.BackupKeptIff | bypsseng/infrastructure/system_network.py:214-312 | a completed and saved restore keeps the settings recoverable exactly when its first command and all others took effect, or the first did not and the interface already was on DHCP, or had exactly the servers of the commands without effect, as recorded |
| DnsJournal.SecondServerLost | bypsseng/infrastructure/system_network.py:244-312 | two recorded servers of which the second is not added: the journal is closed and the settings differ |
| DnsJournal.BackupLostIff | bypsseng/infrastructure/system_network.py:230-312 | a completed restore whose first command takes effect loses the backup exactly when some later command has no effect |
| DnsJournal.RefusedRestoreIff | bypsseng/infrastructure/system_network.py:214-312 | a completed restore none of whose commands takes effect changes nothing, closes the journal, and loses the backup exactly when the settings still differed |
| DnsJournal.StepKeepsRecoverable | bypsseng/infrastructure/system_network.py:672-674 | every operation, the proxy's state-file save included, keeps the DNS journal usable |
| DnsJournal.ReinstateExact | bypsseng/infrastructure/system_network.py:214-257 | a recorded configuration is reinstated exactly, except that an empty static list issues no command |
| DnsJournal.StaticInstalled | bypsseng/infrastructure/system_network.py:331-358 | setting the first server and adding the others installs the list in order whatever was configured before |
| DnsJournal.RestoredIff | bypsseng/infrastructure/system_network.py:324-328 | a set followed by a restore gives the settings back exactly when query and save succeeded and there was something to record, or nothing had really changed |
| DnsJournal.UnreadSettingLost | bypsseng/infrastructure/system_network.py:130-146 | after a failed query a changed DHCP setting stays changed |
| DnsJournal.EthernetNotRestored | bypsseng/infrastructure/system_network.py:321-328 | an interface changed while the journal is open for another is not restored |
| DnsJournal.SecondInterfaceIff | bypsseng/infrastructure/system_network.py:321-328 | a second interface changed while the journal is open is restored only if it already had the new servers |
| XrayConfig.Prepare | bypsseng/strategies/adapters/xray.py:555-709 | the document built by successive appends and inserts is the one specified for its exit |
| XrayConfig.Chain | bypsseng/strategies/adapters/xray.py:568-604 | a chaining block appends the layer, and the rest only if the inner outbound can be built |
| XrayConfig.AppendBalanced | bypsseng/strategies/adapters/xray.py:653-660 | the appended outbounds are the buildable configurations and the returned tags are theirs |
| XrayConfig.Finish | bypsseng/strategies/adapters/xray.py:652-709 | the balancer and single exits keep the layers appended before |
| XrayConfig.MakeOutbound | bypsseng/strategies/adapters/xray.py:314-358 | an outbound carries the requested tag and dials nothing or the fragmenting outbound |
| XrayConfig.BuildableIff | bypsseng/strategies/adapters/xray.py:314-358 | an outbound exists exactly for trojan, shadowtls, vmess, ss, and vless with reality or transport ws, grpc or tcp; it has the protocol of its link and dials the fragmenting outbound exactly with TLS or reality |
| XrayConfig.DocumentIff | bypsseng/strategies/adapters/xray.py:555-709 | a document is written exactly for buildable credentials or more than one configuration |
| XrayConfig.SingleDocument | bypsseng/strategies/adapters/xray.py:681-709 | without configurations: a document exactly for buildable credentials, its five tags, the protocol of its first outbound, and its dialer |
| XrayConfig.ChainedDocument | bypsseng/strategies/adapters/xray.py:564-650 | when credentials are chained behind a ShadowTLS or else a reality configuration, and the two outbounds this writes |
| XrayConfig.BalancedDocument | bypsseng/strategies/adapters/xray.py:652-679 | the outbounds, balancer and observed tags of every document with a balancer |
| XrayConfig.BalancerMembers | bypsseng/strategies/adapters/xray.py:653-660 | the balancer has one fragmented outbound for every buildable configuration, in order, tagged by position |
| XrayConfig.UnproxiedIff | bypsseng/strategies/adapters/xray.py:680-702 | the fragmenting outbound heads the document, which makes it the default, exactly when there are several configurations and neither they nor the credentials can be built |
| XrayConfig.RoutingIs | bypsseng/strategies/adapters/xray.py:25-62 | where every connection goes, with a balancer and without |
| XrayConfig.CompileWellFormed | bypsseng/strategies/adapters/xray.py:555-709 | on every exit with a document outbound tags are distinct, every dialer, rule, balancer, fallback and observed tag resolves, and no dialer chain exceeds two hops |
| XrayConfig.LayeredTwoHops | bypsseng/strategies/adapters/xray.py:86-93 | the dialing discipline excludes every chain of three hops, cycles included |
| XrayConfig.BalancerCoherent | bypsseng/strategies/adapters/xray.py:652-679 | selector, observed subjects and tags of the built outbounds are one sequence; each tag names exactly one outbound, which dials through the fragmenting outbound; the fallback is in the selector |
| XrayConfig.ProxyTagsDistinct | bypsseng/strategies/adapters/xray.py:655-655 | position tags are injective and differ from every fixed tag |
| XrayConfig.SplitTunnel | bypsseng/strategies/adapters/xray.py:670-673 | domestic domains reach the direct outbound exactly when a chaining block succeeds, there is at most one configuration or none can be built |
| XrayConfig.BalancerTakesDomestic | bypsseng/strategies/adapters/xray.py:652-673 | with two Shadowsocks configurations they go to the balancer |
| XrayConfig.InnerSelectedIff | bypsseng/strategies/adapters/xray.py:564-709 | the outbound built from the credentials heads the list or is named by a rule, selector or dialer exactly when neither a chaining block nor the balancer takes effect |
| XrayConfig.ChainedTrojanUnused | bypsseng/strategies/adapters/xray.py:573-604 | a trojan outbound chained behind ShadowTLS is written and never selected |
| XrayConfig.ChainedInnerUnreferenced | bypsseng/strategies/adapters/xray.py:573-604 | in a chained document no rule, selector or dialer names the inner outbound and it does not head the list |
| Utf8.RoundTrip | bypsseng/core/utils.py:58-58 | strict decoding inverts encoding for every text |
| Utf8.OnlyEncodings | bypsseng/core/utils.py:58-58 | strict decoding accepts nothing but encodings |
| Utf8.LengthKeptIffAscii | bypsseng/diagnosis/dns.py:54-54 | the encoded length equals the number of characters exactly for ASCII text |
| Base64.ScanEncoded | bypsseng/core/utils.py:58-58 | the lenient scan inverts the encoder on every byte sequence |
| Base64.DecodeRendered | bypsseng/core/utils.py:53-58 | every form of the encoding, padded or not, URL-safe or not, decodes to its bytes after translation and repair |
| Base64.B64RoundTrip | bypsseng/core/utils.py:53-58 | b64_decode inverts every form of encoding of every text |
| Base64.RepairSucceedsIff | bypsseng/core/utils.py:55-57 | padding repair makes unpadded data decodable unless one symbol is left over |
| ShadowsocksLink.ParseSs | bypsseng/core/utils.py:126-160 | a parsed link has a host, a positive port and a method without ':' |
| ShadowsocksLink.AuthorityRoundTrip | bypsseng/core/utils.py:141-153 | the whole-authority form parses back to its four fields for any password, port and suffix |
| ShadowsocksLink.HostPortOnly | bypsseng/core/utils.py:149-151 | without brackets the host ends at the first colon and the port at the next; the rest is ignored |
| ShadowsocksLink.UserinfoParses | bypsseng/core/utils.py:130-140 | the userinfo form parses to its fields with the host lower-cased, and fails exactly for ports above 65535 and bracketed texts that are no addresses |
| ShadowsocksLink.PlainParses | bypsseng/core/utils.py:130-138 | the same for method and password in plain text, also when the password holds ':' or '@' |
| ShadowsocksLink.UserinfoRoundTrip | bypsseng/core/utils.py:130-140 | for a name or address without upper-case letters before its zone and a 16-bit port it parses back to its four fields |
| ShadowsocksLink.FormsAgreeIff | bypsseng/core/utils.py:126-157 | the two forms parse to the same fields exactly for hosts without upper-case letters before any zone identifier, ports up to 65535 and, in brackets, addresses |
| ShadowsocksLink.UpperCaseDisagrees | bypsseng/core/utils.py:137-151 | the forms differ for the name H |
| ShadowsocksLink.WidePortDisagrees | bypsseng/core/utils.py:138-151 | the forms differ for port 70000 |
| ShadowsocksLink.BracketedNameDisagrees | bypsseng/core/utils.py:128-148 | the forms differ for the bracketed name host |
| Subscription.BodyEquivalence | bypsseng/core/cnfg.py:165-176 | a text with at least one link gives the same links in plain form and in base64, however the latter is padded, broken into lines, escaped with backslashes or surrounded by blanks |
| Subscription.ExtractIff | bypsseng/core/cnfg.py:166-167 | a text with at least one link gives exactly the stripped lines that start with one of the six schemes |
| Subscription.BodyIff | bypsseng/core/cnfg.py:168-176 | every base64 form of the text gives exactly those too |
| Subscription.WrappedHasNoLinks | bypsseng/core/cnfg.py:167-168 | no line of a wrapped base64 body is a link |
| Dedup.DeduplicateConfigs | bypsseng/core/cnfg.py:178-199 | the result is the order-preserving subsequence of links that are supported and unkeyed or first with their key |
| Dedup.EveryKeyKept | bypsseng/core/cnfg.py:195-197 | the first link with each key is kept |
| Dedup.UnkeyedKept | bypsseng/core/cnfg.py:198-198 | links without a key are all kept, in order and with repetitions |
| Dedup.SurvivorsDistinct | bypsseng/core/cnfg.py:195-197 | no two results share a key |
| Dedup.Idempotent | bypsseng/core/cnfg.py:178-199 | deduplicating twice changes nothing more |
| Dedup.KeyInjective | bypsseng/core/cnfg.py:196-196 | keys are equal only if protocol, host, port and identifier are, when protocol and host contain no ':' |
| Dedup.KeysEqualIff | bypsseng/core/cnfg.py:196-196 | for colon-free protocols, keys are equal exactly when all four parts are or one host absorbs the other's port |
| Dedup.KeyCollides | bypsseng/core/cnfg.py:195-197 | pairs of parseable ss links to different IPv6 servers that share a key: deduplication drops the second |
| Dedup.HysteriaAllKept | bypsseng/core/cnfg.py:185-198 | any list of well-formed hysteria2 links survives as it is, repetitions included |
| Dedup.KeyedExceptHysteria | bypsseng/core/cnfg.py:182-198 | a parsed link is keyed exactly when host, port and identifier are given and it is not a hysteria2 link |
| DnsQuery.QueryRoundTripIff | bypsseng/diagnosis/dns.py:41-58 | the packet reads back as the query for the domain exactly when every label is 1 to 63 ASCII characters, and is then 18 bytes longer than the domain |
| DnsQuery.BuildsIff | bypsseng/diagnosis/dns.py:52-57 | a packet is built, readable or not, exactly when no label has more than 255 characters |
| DnsQuery.TrailingDotUnreadable | bypsseng/diagnosis/dns.py:52-57 | the packet for a name with a trailing dot does not read back |
| DnsQuery.ValidNameReads | bypsseng/diagnosis/dns.py:52-57 | valid labels read back, whatever follows them |
| DnsQuery.NameReadsOnlyIfValid | bypsseng/diagnosis/dns.py:130-138 | only valid labels read back |
| Telemetry.TelemetryDB.RecordStrategyOutcome | bypsseng/telemetry/storage.py:107-116 | appends the outcome, or does nothing without a connection |
| Telemetry.TelemetryDB.GetStrategySuccessRate | bypsseng/telemetry/storage.py:118-159 | the loop over the window computes the specified rate, and 0 without a connection or history |
| Telemetry.MatchingIff | bypsseng/telemetry/storage.py:126-130 | the samples are exactly the outcomes recorded for the strategy under the condition |
| Telemetry.OtherRowsIgnored | bypsseng/telemetry/storage.py:126-130 | an outcome of another strategy or under another condition changes nothing |
| Telemetry.AgeLimits | bypsseng/telemetry/storage.py:142-153 | the weight of an outcome falls exactly after a day, a week, thirty days and ninety |
| Telemetry.UniformRate | bypsseng/telemetry/storage.py:139-159 | the rate of outcomes of equal weight is the share of successes among them |
| Telemetry.Rate | bypsseng/telemetry/storage.py:135-159 | the rate always lies in [0, 1] |
| Telemetry.WindowShifts | bypsseng/telemetry/storage.py:127-127 | a strictly newer outcome heads the window and pushes the last one out of a full window |
| Telemetry.WindowMonotone | bypsseng/telemetry/storage.py:127-159 | a strictly newer success never lowers the rate and a failure never raises it, also when the hundred-row limit drops the oldest row |
| Telemetry.RecordMonotone | bypsseng/telemetry/storage.py:107-159 | the same for a new row of the table |
| Telemetry.FullRateIff | bypsseng/telemetry/statistics.py:28-35 | the posterior is at its maximum exactly when the window is not empty and holds no failure, however few outcomes there are |
| Telemetry.OneSuccessSuffices | bypsseng/telemetry/statistics.py:28-35 | one success alone gives the maximal posterior |
| Telemetry.FailureAloneRanksHigher | bypsseng/telemetry/statistics.py:30-35 | one failure alone gives a higher posterior than one success among four outcomes |
| Telemetry.PosteriorMonotoneIff | bypsseng/telemetry/statistics.py:30-35 | a higher rate gives at least as high a posterior exactly when the lower rate is positive or the higher is at least one half |
| Telemetry.Posterior | bypsseng/telemetry/statistics.py:26-35 | lies in (0.1, 0.9] |
| Telemetry.Confidence | bypsseng/telemetry/statistics.py:37-44 | lies in (0, 0.8], so the cap at 0.95 is never reached |
| Scorer.ScoreStrategy | bypsseng/decision/scorer.py:92-160 | computes the specified score, and each reason is given exactly under its condition |
| Scorer.Health | bypsseng/decision/scorer.py:72-89 | lies between 0 and 0.65 times the posterior plus 0.35 |
| Scorer.ScoreBounded | bypsseng/decision/scorer.py:92-160 | every score lies in [0, 0.9992] |
| Scorer.ScoreBoundReached | bypsseng/decision/scorer.py:8-69 | the bound is attained |
| Scorer.CapabilitiesAre | bypsseng/decision/scorer.py:8-69 | the capability table grouped by property, with the default for other strategies |
| Scorer.HealthIs | bypsseng/decision/scorer.py:72-89 | the health as 0.65 of the posterior, a latency share that ends at one second and a throughput share that ends at ten thousand |
| Scorer.HistoryCounts | bypsseng/telemetry/statistics.py:26-44 | the confidence as a function of the success rate |
| Scorer.InspectionCounts | bypsseng/decision/scorer.py:110-115 | aggressive inspection adds half the resistance |
| Scorer.ThrottlingCounts | bypsseng/decision/scorer.py:117-119 | throttling adds 0.3 exactly for strategies over UDP |
| Scorer.DroppedUdpCounts | bypsseng/decision/scorer.py:105-108 | dropped UDP sets the score of strategies without TCP to zero and changes no other |
| Learning.NothingIsRead | BypssEng.py:386-423 | in every run of cycles the history read for any strategy under any of the four DPI states is empty |
| Learning.HistoryIsInert | BypssEng.py:381-423 | in every cycle of every run the candidates, their scores and their order are those without any history |
| Learning.CandidatesAre | BypssEng.py:393-415 | in every cycle of every run an entry is a candidate exactly when it is configured and its protocol is always tried, or inspection is aggressive and the protocol in the capability table, or the network is throttled and it uses UDP; hysteria2 and tuic not under dropped UDP |
| Learning.LinksSkipped | BypssEng.py:413-415 | without aggressive inspection or throttling only the five strategies that are always tried are candidates |
| Learning.RecordedUnder | BypssEng.py:420-423 | every row was recorded under the joined condition of some cycle |

## Left out

- Probes, latency tests, bandwidth and DPI diagnosis: their outcomes are choices of the environment.
- Text scraping of `netsh` output: the structured mode and server list is what a query reads; v6 settings are read but never restored by the code.
- The macOS and Linux branches of the DNS and proxy operations: only the Windows branch changes DNS.
- Concurrent DNS operations: calls are sequential, the default interface is the same within one call, and a corrupt state file (read as empty) does not occur.
- Proxy backup and restore: nothing records a proxy backup, so only the proxy's effect on the state file is modelled beside DNS.
- The warp, warp_over_reality and cloudflare_worker branches of `XrayStrategy.prepare` and the other adapters: straight-line templates; fields of an outbound that play no part in its graph.
- vmess JSON, percent-decoding, Unicode lower-casing and normalisation in URLs, and integer texts other than ASCII digits; a standard-alphabet base64 authority with '/' is cut by URL parsing, so the Shadowsocks round trips are about the URL-safe alphabet.
- ShadowsocksLink.UserinfoParses: brackets are checked as urlparse does from Python 3.11.4 on; earlier versions, which the project also admits, accept any bracketed text.
- Dedup.DeduplicateConfigs: the parse of a link into its fields is a parameter; only for ss links is it tied to the parser, in `Dedup.KeyCollides`.
- Dedup.KeyedExceptHysteria: what the parsers of the other protocols store is a record of three fields, not the result of a modelled parser.
- Connection.Connector.ExecuteBypassAndConnect: an exception raised by `prepare`, which lies outside the handler, is not modelled; attempts return normally. The number of checks is arbitrary where the code has two.
- Connection.Connector.RunCheck: an exception on leaving the response after a refused proxy, when the rollback is done and the answer already given, is not modelled.
- Connection.Connector.StopAll: waiting half a second and then killing is one request to stop, taken as delivered.
- ProbePort.ActiveNeedsProbePort: manual connects during the run are left out, and a probe passes only on the session's HTTP port.
- Executor.BypassExecutor.Execute: the network report, log lines and the explanation object are left out; credentials are a protocol and an opaque rest.
- Orchestrator.Engine.Iteration: an exception may strike between any two recorded events; the watchdog's own logging and sleep do not raise, and cancellation and shutdown are left out.
- Orchestrator.Engine.SelectAndConnect: the combined diagnosis handed to the executor does not appear in the trace; its aggregation is `DecisionRules.Combine`.
- DecisionRules.Combine: the evidence, a list made from a set, is a set.
- Subscription.BodyEquivalence: the links, a list made from a set, are a set.
- Telemetry.TelemetryDB.GetStrategySuccessRate: rows with equal times are taken newest insertion first; floating-point numbers are reals; a database error is not modelled.
- Scorer.ScoreStrategy: the text of the reasons is an enumeration.
- Learning.HistoryIsInert: the configuration, the world and the environment of each cycle are arbitrary; that a run starts with an empty database and that all rows come from such cycles is assumed.
- The admin server, dashboard, web interface, updaters, logging and configuration fetching.
