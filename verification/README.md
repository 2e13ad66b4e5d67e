# Traffic monitor: a verified model

The traffic monitor collects traffic counters from machines over SSH, raises alerts when a counter
exceeds a threshold, notifies channels about them, and copies its configuration between instances with
backups. This project models the parts of it whose correctness is not visible from one function, and
proves what they promise for all inputs and all interleavings. `dafny verify dfyconfig.toml` checks it.

| Files | What they model |
|---|---|
| `BackupModel`, `BackupImport`, `BackupSections`, `BackupTheorems` | importing a backup: six tables linked by row keys, a payload linked by names |
| `BackupExport`, `BackupBuilder` | what an export collects |
| `BackupCopy`, `BackupRoundTrip`, `BackupExample` | export followed by import into an empty store, when it copies, and one input where it does not |
| `BackupService` | the backup service as a class whose methods loop over items and update the tables |
| `Scheduler`, `SchedulerRuns` | dispatcher, bounded channel, workers, retries and shutdown, as a state machine over all interleavings |
| `Thresholds`, `ThresholdService` | global rules, overrides, the merged view, and saving it |
| `Alerts`, `AlertDispatch`, `AlertService` | which alerts are raised, what dispatching them records |
| `AlertProtocol`, `AlertRuns` | evaluations running side by side with the cleanup, one call at a time |
| `Cleanup`, `CleanupService` | batched deletion of old history |
| `RestoreToken` | the one-time restore token, alone and under interleaved requests |
| `VNStat`, `Shell` | rounding of byte counters, choice of entries, quoting for the remote shell |
| `Text`, `Tables`, `Wrappers` | trimming, decimal keys, tables with an auto-increment key, `Option` and `Result` |

How to read the model:

- A table with a surrogate key is a sequence of rows in key order (`Tables.Table`); a table with a unique
  index that matters is a map from that index. Every store call is one atomic step.
- Operations that the Go code performs with loops over mutable state are methods, proved equal to a
  function on values; the theorems are about those functions and over runs of those steps.
- Encryption, private-key parsing, URL parsing and JSON are the functions of `BackupModel.Env`. Only the
  round trip assumes anything about them (`Lawful`: decryption undoes encryption, decoding undoes encoding),
  and `BackupExample.ExampleLawful` builds functions that meet it.
- That a table is unchanged means its rows are. A refused insert leaves the next key alone in the model,
  while a PostgreSQL sequence advances; no stated property depends on the difference.
- Times are integer seconds. Megabyte values are `real`; scaling by 1024 is exact in binary floating point,
  and rounding is modelled where it happens.

Four facts worth knowing that the proofs brought out:

- Proxies of one name are all restored, but channels are linked by name to the first of them. A channel that
  referred to a later one silently moves to the first (`BackupExample.ChannelEndsOnFirst`);
  `BackupRoundTrip.RoundTrip` says exactly when an export and import make a copy.
- The batched cleanup loop ends on its own if and only if the batch size is positive
  (`Cleanup.LeavesExactly`); otherwise only the timeout of the context ends it, with an error. The
  configuration checks the batch size only when scheduled cleanup is enabled (`internal/config/config.go`,
  lines 158 to 178), while the service uses it for every cleanup.
- An alert is raised at most once only while its row is kept. Nothing limits the age of a sample that is
  judged, so once the cleanup has deleted the row of an old bucket, the next collection that still sees that
  bucket raises and sends the alert again (`AlertRuns.CleanupFiresAgain`); `AlertRuns.FiresOnceExactly` and
  `AlertRuns.RetentionDecides` say exactly when that cannot happen. With the
  defaults (three days, hourly cleanup) a machine whose newest traffic entry is over its threshold and older
  than that is alerted about again after each cleanup.
- Saving two rules for one dimension in one request is refused as a whole by the database (one `INSERT` may
  not update a row twice), after validation accepted it; the transaction leaves the rules unchanged.

## Model

| member | source | states |
|---|---|---|
| `BackupTheorems.ValidationDecides` | internal/service/backup_service.go:336-340 | for every payload and store, import succeeds if and only if the validation made before the first write accepts, and a refused payload leaves all six tables as they were |
| `BackupTheorems.ImportRuns` | internal/service/backup_service.go:336-468 | for a validated payload no later guard in any section can fail, so the import reaches its end with the outcome of all sections |
| `BackupTheorems.ImportIdempotent` | internal/service/backup_service.go:336-673 | a second import of the same payload imports 0 items in every section and leaves every table unchanged, from any starting store |
| `BackupTheorems.ImportExtends` | internal/service/backup_service.go:342-673 | import changes no existing row, keeps unique fingerprints and keys, counts as imported exactly the new rows, and imported plus skipped is the payload length of each section |
| `BackupTheorems.ImportKeepsReferences` | internal/service/backup_service.go:342-673 | every new machine, channel and machine rule refers to a stored row of the name the payload gave, or, for a channel, to no proxy |
| `BackupTheorems.GlobalRulesIdempotent` | internal/service/backup_service.go:572-612 | importing the same global rules twice is importing them once |
| `BackupTheorems.MachineRulesIdempotent` | internal/service/backup_service.go:614-673 | the same for machine rules, with duplicate keys and unknown machines in the payload |
| `BackupTheorems.KeysIdempotent` | internal/service/backup_service.go:342-402 | replaying the keys creates nothing, even where a name became an alias of a stored fingerprint, and makes no new name known |
| `BackupTheorems.MachinesIdempotent` | internal/service/backup_service.go:404-452 | replaying the machines creates nothing, including machines skipped for a missing key |
| `BackupSections.KeysRun` | internal/service/backup_service.go:356-402 | validated keys pass the trimming and parsing guards of the import loop |
| `BackupSections.ProxiesRun` | internal/service/backup_service.go:470-516 | validated proxies pass the import loop, which parses normalised values where validation parsed raw ones |
| `BackupSections.KeysLinked` | internal/service/backup_service.go:387-402 | every name the key section knows resolves to a stored key of that name or of the fingerprint listed under that name |
| `BackupModel.NormalizeProxyTypeIdempotent` | internal/service/alert_service.go:1119-1128 | normalising a proxy type twice is normalising it once |
| `BackupModel.ParseNormalized` | internal/service/alert_service.go:1073-1117 | parsing the normalised type and trimmed address gives the answer of parsing the raw ones |
| `BackupModel.MachineDimensionKeyInjective` | internal/service/backup_service.go:1036-1038 | the text key of a machine rule determines machine, period and metric, for metrics without a colon |
| `BackupModel.DimensionKeyInjective` | internal/service/threshold_service.go:295-297 | the text key of a rule determines period and metric, for metrics without a colon |
| `Text.TrimIdempotent` | internal/service/backup_service.go:357-358 | trimming leaves no space at either end and trims nothing the second time |
| `BackupExport.ExportIncludesKeys` | internal/service/backup_service.go:691-713 | every exported machine comes with an exported key of the name it refers to |
| `BackupExport.ExportClosed` | internal/service/backup_service.go:675-713 | importing an exported payload into any store leaves every listed machine name present and skips exactly the machines whose name was taken, never one for a missing key |
| `BackupRoundTrip.RoundTrip` | internal/service/backup_service.go:216-334 | export, then import into any empty store: keys, machines, proxies, channels and rules reappear under a renaming of row keys with which machine-to-key, channel-to-proxy and rule-to-machine links commute, if and only if the selected keys have distinct trimmed names, the selected machines have, every channel's configuration can be decoded, and no channel refers to a proxy after the first of its name |
| `BackupRoundTrip.DistinctNamesRebuild` | internal/service/backup_service.go:336-673 | with distinct key and machine names nothing is skipped and all reappears, with channels on the first proxy of their proxy's name |
| `BackupRoundTrip.UndecodableEmptied` | internal/service/backup_service.go:925-936 | a channel whose configuration cannot be decoded comes back with the empty one |
| `BackupCopy.ProxyLinkCommutes` | internal/service/backup_service.go:925-973 | naming a channel's proxy on export and resolving the name on import refers to the copy of the same proxy if and only if that proxy is the first of its name |
| `BackupCopy.FirstCopyOf` | internal/service/backup_service.go:470-516 | among proxies of one name the link goes to the copy of the first |
| `BackupRoundTrip.RepeatedNamesSkip` | internal/service/backup_service.go:356-429 | two keys or two machines of one trimmed name make any import skip one, whatever the store |
| `BackupExample.SecondProxyOfNameLost` | internal/service/backup_service.go:476-485 | one store with two proxies of one name: it comes back as it was with the channel on the first, and not with the channel on the second |
| `BackupExample.ChannelEndsOnFirst` | internal/service/backup_service.go:509-511 | in both cases both proxies come back and the channel ends on the first |
| `BackupExample.BrokenChannelEmptied` | internal/service/backup_service.go:925-936 | one store with a channel whose configuration cannot be decoded: it is exported and imported without an error and is not copied |
| `BackupExample.ExampleReady` | internal/service/backup_service.go:157-195 | everything the round trip asks for can be met at once, with any channel |
| `BackupRoundTrip.SelectAll` | internal/service/backup_service.go:675-713 | asking for everything selects every machine and every key |
| `BackupBuilder.SelectBackupMachines` | internal/service/backup_service.go:675-689 | the loop selects the requested machines in listing order |
| `BackupBuilder.SelectBackupSSHKeys` | internal/service/backup_service.go:691-713 | the loops select the requested keys and every key a selected machine uses |
| `BackupBuilder.PositiveIDs` | internal/service/backup_service.go:808-817 | the set of the positive ids |
| `BackupBuilder.BuildBackupPayload` | internal/service/backup_service.go:216-334 | the loops build the payload of the specification, or report the key that cannot be decrypted or the machine without a key |
| `BackupService.Service.Export` | internal/service/backup_service.go:157-195 | the whole export is the specified payload or error of the stored tables, for some order of the listings |
| `BackupService.Service.Import` | internal/service/backup_service.go:336-468 | the whole import, table by table and error by error, equals its specification |
| `BackupService.Service.ImportSSHKeys` | internal/service/backup_service.go:342-402 | the key loop, its two indexes, counters and table |
| `BackupService.Service.CreateOrAliasKey` | internal/service/backup_service.go:387-402 | a taken fingerprint makes the name an alias of the stored key instead of a new row |
| `BackupService.Service.ImportMachineItems` | internal/service/backup_service.go:404-452 | the machine loop, its index, counters and table |
| `BackupService.Service.ImportNotificationProxies` | internal/service/backup_service.go:470-516 | the proxy loop; only names the target already had are skipped |
| `BackupService.Service.ImportNotificationChannels` | internal/service/backup_service.go:518-562 | the channel loop and the relinked configurations |
| `BackupService.Service.ImportGlobalThresholdRules` | internal/service/backup_service.go:572-612 | the global rules after the section, and counts that add up to the payload |
| `BackupService.Service.ImportMachineThresholdRules` | internal/service/backup_service.go:614-673 | the machine rules after the section, and counts that add up to the payload |
| `BackupService.Service.CreateGlobalRulesIfAbsent` | internal/repo/threshold_rule_repo.go:45-62 | inserts only absent dimensions and reports the rows written |
| `BackupService.Service.CreateMachineRulesIfAbsent` | internal/repo/threshold_rule_repo.go:93-111 | the same for machine rules |
| `BackupService.Service.CreateChannelIfAbsent` | internal/repo/notification_repo.go:49-59 | inserts a channel unless its type is taken |
| `BackupService.Service.CreateKey` | internal/repo/ssh_key_repo.go:20-26 | creates a key unless its fingerprint is taken |
| `BackupService.IndexNewestFirst` | internal/service/backup_service.go:410-412 | overwriting from a newest-first listing makes the oldest row of each name win |
| `BackupService.IndexOldestFirst` | internal/service/backup_service.go:470-485 | filling only new names from an oldest-first listing makes the oldest row win too |
| `BackupService.NewMachineRules` | internal/service/backup_service.go:646-668 | the batch holds the first rule of each unseen key of a known machine, everything else is counted as skipped |
| `Scheduler.StepInv` | internal/service/traffic_scheduler.go:87-215 | every step of dispatcher, workers and Stop keeps the invariant: bounds, first-in-first-out, one worker per job, attempts per job, channel discipline, conservation |
| `SchedulerRuns.RunsAreSafe` | internal/service/traffic_scheduler.go:87-167 | in every state of every run at most MaxWorkers collections run and at most MaxWorkers jobs are queued, jobs sent = queued + in progress + finished, the n-th receive took the n-th job, no job is on two workers, nothing is sent on or closes a closed channel |
| `SchedulerRuns.ShutdownLosesNothing` | internal/service/traffic_scheduler.go:108-215 | when Wait returns, Stop was requested, the channel is closed and empty, every job ever sent was received and finished after 1 to RetryTimes+1 attempts, and nothing changes afterwards |
| `SchedulerRuns.GivingUpNeedsStop` | internal/service/traffic_scheduler.go:169-215 | a job that ended without success and with attempts left ended when Stop had been requested |
| `SchedulerRuns.RunEvolves` | internal/service/traffic_scheduler.go:120-167 | receives are never undone, finished jobs never change, and no job is added once the channel is closed |
| `SchedulerRuns.StopStepDecreases` | internal/service/traffic_scheduler.go:120-215 | after Stop every step but a tick decreases (dispatcher phase, weighted work left) lexicographically |
| `SchedulerRuns.NoDeadlock` | internal/service/traffic_scheduler.go:120-215 | until all goroutines have exited some goroutine has a step, and after Stop one that is not a tick |
| `SchedulerRuns.EndlessRunsTick` | internal/service/traffic_scheduler.go:120-143 | after Stop an endless run accepts ticks forever, so with finitely many ticks every run ends |
| `Thresholds.DisplayRoundTrip` | internal/service/threshold_service.go:287-293 | what is displayed normalises back to the same threshold, and GB is shown exactly for whole gigabytes |
| `Thresholds.MergeEffectiveRules` | internal/service/threshold_service.go:234-271 | the merged rules show every dimension of either table exactly once, each with the machine's rule if it has one, else the global rule |
| `Thresholds.IndexAnswers` | internal/service/threshold_service.go:236-239 | the map by text key answers exactly for the dimensions of the table |
| `ThresholdService.BuildMachineRules` | internal/service/threshold_service.go:144-180 | accepts exactly when every payload is valid, and then splits them into rows to write and dimensions to delete |
| `ThresholdService.RequestedMeans` | internal/service/threshold_service.go:182-210 | exactly which payloads are accepted, and the rule or inheritance each asks for |
| `ThresholdService.BuildGlobalRules` | internal/service/threshold_service.go:121-142 | accepts exactly when every payload is valid, and then gives its rows |
| `ThresholdService.SavedAt` | internal/repo/threshold_rule_repo.go:113-155 | the exact effect of a save on each row: a requested rule is stored, a dimension only asked to inherit is gone, all else stays, other machines too |
| `ThresholdService.SaveDecidesEffective` | internal/service/threshold_service.go:78-97 | with distinct dimensions each effective rule becomes the requested override, disabled rule or the global one, and no other changes |
| `ThresholdService.SavingListedChangesNothing` | internal/service/threshold_service.go:99-119 | sending the listed effective rules of any machine back is accepted and leaves the rule table unchanged |
| `ThresholdService.SavingListedGlobals` | internal/service/threshold_service.go:56-76 | sending the listed global rules back is accepted and changes nothing |
| `ThresholdService.Service.UpsertMachineRules` | internal/service/threshold_service.go:78-97 | every outcome: unknown machine, invalid rule, row touched twice, or saved; a failure changes nothing, and stored rules stay valid |
| `ThresholdService.Service.ReplaceMachineRules` | internal/repo/threshold_rule_repo.go:113-134 | delete then upsert in one transaction, rolled back if the upsert fails |
| `ThresholdService.Service.UpsertGlobalRules` | internal/service/threshold_service.go:56-67 | all rows are written, or none |
| `ThresholdService.Service.ListEffectiveMachineRules` | internal/service/threshold_service.go:99-119 | the merge of the two stored tables, or an unknown machine |
| `ThresholdService.Service.ListGlobalRules` | internal/service/threshold_service.go:69-76 | every global rule once, as displayed |
| `Alerts.AlertKeyInjective` | internal/service/alert_service.go:886-888 | equal alert keys mean equal machine, period, metric and bucket second, for any period text |
| `Alerts.CompletedMeansPassed` | internal/service/alert_service.go:890-904 | a bucket is judged exactly when the whole UTC hour or day containing it has passed |
| `Alerts.WantedExactly` | internal/service/alert_service.go:116-189 | an alert is raised for a sample and metric if and only if the period is over and the effective rule is enabled and strictly exceeded |
| `Alerts.CreatedExactly` | internal/repo/alert_repo.go:35-45 | creation keeps keys unique, adds only wanted alerts and leaves no wanted key without one |
| `AlertService.Service.EvaluateSamples` | internal/service/alert_service.go:116-146 | exactly the wanted alerts that did not exist are created, and exactly those are dispatched |
| `AlertService.Service.EvaluateSample` | internal/service/alert_service.go:148-189 | the three metrics in order, looked up by text key in the effective rules |
| `AlertService.Service.CreateIfAbsent` | internal/repo/alert_repo.go:35-45 | inserts unless the key exists, and says which |
| `AlertService.Service.UpdateNotifyStatus` | internal/repo/alert_repo.go:47-56 | sets the status of that row only |
| `AlertService.Service.DispatchAlerts` | internal/service/alert_service.go:195-268 | the nested loops record the deliveries of the specification and give each alert of the batch, and no other, its status |
| `AlertService.Service.DispatchChannel` | internal/service/alert_service.go:239-263 | one channel for the whole batch: Telegram sends once, other channels once per alert, and failures are folded per alert |
| `AlertService.EvaluationSettlesNewAlerts` | internal/service/alert_service.go:116-268 | without store errors an evaluation leaves older alerts alone and none of its own pending |
| `AlertDispatch.OneDeliveryEach` | internal/service/alert_service.go:195-289 | exactly one delivery per alert and enabled channel, with that channel's outcome |
| `AlertDispatch.StatusMeans` | internal/service/alert_service.go:212-267 | skipped if and only if no channel is enabled, sent if and only if every enabled channel delivered, failed otherwise |
| `AlertDispatch.BatchOutcome` | internal/service/alert_service.go:238-263 | all alerts of a batch share the Telegram outcome, and a channel of unknown type delivers none |
| `AlertProtocol.StepInv` | internal/service/alert_service.go:116-289 | every send and store call of every evaluation, failing or not, and every batch the cleanup deletes in between keeps the invariant: one live row per key, disjoint ownership, sends and records in loop order, pending until settled or deleted |
| `AlertRuns.AlertsFireAtMostOnce` | internal/service/alert_service.go:116-268 | in every interleaving with cleanups: of two alerts about one machine, period, metric and second the older has been deleted, and each alert is dispatched by at most one evaluation, sent at most once through each channel type, recorded or not, and recorded at most once per channel type |
| `AlertRuns.TwiceMeansDeleted` | internal/repo/alert_repo.go:58-93 | a second alert about a subject exists only if a cleanup whose filter covers the subject deleted the first one before the second was created |
| `AlertRuns.FiresOnceExactly` | internal/repo/alert_repo.go:35-93 | whatever filters cleanups may use, no run raises a second alert about a subject if and only if none of those filters covers it |
| `AlertRuns.RetentionDecides` | internal/service/history_cleanup_service.go:167-173 | with alerts kept for some days and cleanups up to some moment, no run raises a second alert about a subject if and only if that moment is at most that many days after its bucket |
| `AlertRuns.CleanupFiresAgain` | internal/service/alert_service.go:148-189 | for every alert, every filter that covers it and every channel there is a run of two evaluations with a cleanup between them that raises, sends and records the alert twice |
| `AlertRuns.AttemptLeavesAlert` | internal/repo/alert_repo.go:35-45 | deduplication suppresses nothing else: after an attempt a row about exactly that subject is there |
| `AlertRuns.StatusesAgree` | internal/service/alert_service.go:231-267 | in every interleaving an alert that was settled was delivered through every channel its evaluation listed, and its status is the one its recorded deliveries call for, unless its row was deleted while pending |
| `AlertRuns.RecordsTellSends` | internal/service/alert_service.go:237-263 | every record tells the outcome of a message that was sent through that channel for that alert |
| `AlertRuns.OnlyLastUnrecorded` | internal/service/alert_service.go:239-256 | when a record fails, only the last message its evaluation sent can be without one; all earlier ones are recorded for each of their alerts |
| `AlertRuns.WantedFresh` | internal/service/alert_service.go:166-175 | the alerts samples call for are those the protocol starts from: pending, with the key of their subject |
| `AlertRuns.RunEvolves` | internal/service/alert_service.go:257-267 | a deleted row never returns or changes, an alert never changes its subject, and a status never changes again once it has left pending |
| `AlertRuns.UnsettledStayPending` | internal/service/alert_service.go:134-145 | alerts of an evaluation that stopped at an error before settling them stay pending for good |
| `Cleanup.RunsProgress` | internal/service/history_cleanup_service.go:270-290 | at every intermediate point only matching rows are gone, as many as were reported, and none is newer than a remaining match |
| `Cleanup.LeavesExactly` | internal/service/history_cleanup_service.go:283-288 | for n matches the loop leaves after call n/batch (from zero) and no earlier one if the batch size is positive, and after no call otherwise |
| `Cleanup.LeavesSurvivors` | internal/service/history_cleanup_service.go:292-309 | when the loop leaves, exactly the rows one unbounded delete would remove are gone, and their number is returned |
| `CleanupService.History.DeleteBefore` | internal/repo/traffic_sample_repo.go:94-133 | deletes up to the limit, oldest first, or all matches without a limit |
| `CleanupService.PickOldest` | internal/repo/alert_repo.go:68-85 | the given number of oldest rows |
| `CleanupService.History.DeleteExpired` | internal/service/history_cleanup_service.go:270-290 | for any batch size and any number of store calls before the timeout: the batched loop removes and counts exactly the matching rows in n/batch + 1 calls if the batch size is positive and the calls suffice, and fails otherwise with only the oldest matches gone |
| `CleanupService.Service.Cleanup` | internal/service/history_cleanup_service.go:128-186 | refuses a non-positive age of a wanted table before deleting anything; succeeds exactly when the batch size is positive and the calls suffice for the wanted tables, each of which then loses exactly its expired rows; wanting neither means both; a timeout leaves only expired rows gone |
| `RestoreToken.Handler.constructor` | internal/handler/restore_handler.go:35-42 | the token starts unused and expires five minutes later |
| `RestoreToken.Handler.ConsumeRestoreToken` | internal/handler/restore_handler.go:125-149 | succeeds exactly when the token is unused, not expired, configured and equal after trimming, and then marks it used |
| `RestoreToken.Handler.ReleaseRestoreToken` | internal/handler/restore_handler.go:151-156 | marks the token unused |
| `RestoreToken.Handler.ResetAdminPassword` | internal/handler/restore_handler.go:61-123 | the reply of one request, and the token used afterwards exactly when the reset worked |
| `RestoreToken.OneUse` | internal/handler/restore_handler.go:61-156 | over every interleaving, holders plus successful resets are at most 1, and 1 exactly when the token is marked used; each consumed it in time with the right token |
| `RestoreToken.ResetIsFinal` | internal/handler/restore_handler.go:125-149 | after a successful reset no request is accepted any more |
| `RestoreToken.FailureFreesToken` | internal/handler/restore_handler.go:84-86 | after a failed reset the next request with the token, in time, gets it |
| `VNStat.BytesToMBClose` | internal/service/traffic_collection_service.go:363-365 | rounding is monotone and within 0.0005 MB of the exact value |
| `VNStat.TotalClose` | internal/service/traffic_collection_service.go:346-361 | the stored total differs from upload plus download by at most 0.001 MB |
| `VNStat.CountersOnlyTrip` | internal/service/traffic_collection_service.go:346-361 | raising a byte counter never turns an over-threshold decision off |
| `VNStat.LatestVNStatEntry` | internal/service/traffic_collection_service.go:310-326 | the first of the newest entries |
| `VNStat.FindVNStatInterface` | internal/service/traffic_collection_service.go:296-308 | the first interface of that name, else the only one, else none |
| `VNStat.NewestUnique` | internal/service/traffic_collection_service.go:310-326 | the entries determine the sample |
| `VNStat.ParseVNStatSamples` | internal/service/traffic_collection_service.go:257-294 | at most one hourly and one daily sample, of the newest entries of the target interface, or the error that applies |
| `Shell.EscapedIsOneWord` | internal/service/traffic_collection_service.go:367-369 | for every string, a shell reads the escaped text as exactly one word, the string itself |
| `Shell.EscapeInjective` | internal/service/traffic_collection_service.go:367-369 | different strings are escaped differently |
| `Shell.CommandReads` | internal/service/traffic_collection_service.go:198 | whatever the interface name, the remote command has four words and nothing else |

## Left out

- The encrypted envelope of a backup (PBKDF2, AES-GCM, base64) and its password check on import: library code; the model starts from the decoded payload.
- HTTP handlers, routing, dependency injection, logging, configuration loading, sessions and the web front end.
- Real SSH, HTTP, Telegram and webhook traffic, message rendering and response excerpts: a send or a collection succeeds or fails.
- Recovery after database errors in the middle of an import.
- Upserting samples, the machine, key and settings services, listing with paging, the history cleanup scheduler loop: single-branch code or the same shape as the traffic scheduler.
- Floating-point overflow and subnormal numbers: thresholds and counters are reals.
- Surrogate keys of channels and rules: nothing refers to them, so those tables are maps by their unique index; their listing order is any order.
- Panics inside a password reset, after which the real token stays marked used.
- BackupRoundTrip.RoundTrip: stored values must be in the form the services write them (trimmed addresses in canonical form, keys that decrypt and parse, valid rules).
- BackupTheorems.ImportIdempotent: does not model that a refused insert advances a database sequence, so unchanged tables means unchanged rows.
- BackupService.Service.Import: failing store calls and failing encryption are not modelled, nor concurrent writers between two store calls, so insert-if-absent never meets a row that appeared meanwhile.
- AlertService.Service.EvaluateSamples: has no failing store call; errors at every store call, and other evaluations and cleanups in between, are the subject of `AlertProtocol`.
- AlertService.Service.DispatchAlerts: has no failing store call, as above.
- VNStat.BytesToMBClose: exact arithmetic; the representation error of binary floating point in the division and multiplication is not modelled.
- VNStat.ParseVNStatSamples: the calendar arithmetic for entries without a timestamp is a parameter.
- Scheduler.StepInv: timers are steps that may happen at any time; how long an interval, a retry delay or a collection takes is not modelled.
