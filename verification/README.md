# Errand: a verified model

Errand runs tasks for people: it takes a description, settles what is meant, puts a task on a board, runs it in a
container and streams its output back. This project models the parts of it where state, time and racing requests make
a mistake easy, and proves what those parts promise. Each module follows one piece of the program.

- `PodLog`, `LogLines`, `LogTimestamp` — following a pod's log. A stream of arbitrary chunks is cut into lines, and it
  is reopened whenever it ends before the pod does: with a whole-second window, a timestamp filter for lines read
  before, and two caps. The cluster (what each stream delivers, when the pod has ended, the clock) is an arbitrary
  function. The plain splitter of the Docker runtime is here too.
- `TriggerLocks` — one webhook trigger, the endpoint the cloud holds for it, and any number of reconciliations,
  re-saves and deletes that interleave under lock objects made on demand and forgotten on deletion.
- `EndpointReconciliation` — a whole reconciliation pass over the trigger table, and the ledger of replaced URLs over
  runs of passes, re-saves, edits and dismissals.
- `ProviderRows`, `ModelRoles`, `LocalScan`, `Providers` — the provider table with its four writers (environment scan,
  local scan, adoption, routes) and the settings that name models.
- `Drafts`, `Questions` — an intake draft: the classifier's questions, and answers, confirmations, cancels and sweeps
  racing over one row. A request that has claimed the row holds it until it commits or fails.
- `Board` — positions on the task board under creation, PATCH, promotion and orphan recovery.
- `ModelMetadata` — the model metadata cache: name normalisation, majority mode, and the batch lookup against the
  one-at-a-time lookup.
- `Settings` — resolving a setting from environment, database and default, and writing back what was read.
- `DevicePoll` — the device-code polling loop (section 3.5 of RFC 8628).
- `Text` — options and the string helpers the others share.

Code that changes things step by step is a class or a loop here, proved equal to a function of the old state; the
theorems are about those functions. Where several requests interleave, the steps are the constructors of an `Event`
type and the theorems hold for every sequence of events. What the program cannot control (the network, the cloud, the
classifier, clocks, probes, listings, validators, string conversions of the language) is a parameter.

Some promises do not hold in full. Those are stated with the exact condition under which they do, and with a concrete
run or input that shows the failure:

- The last line of a terminated pod can be a torn timestamp handed on as output (`PodLog.PodLogExactlyOnce`,
  `PodLog.TornStampIsHandedOn`).
- A cancel that was let in before a confirm committed turns `confirmed` into `abandoned`
  (`Drafts.ConfirmedIsFinalIff`, `Drafts.LateCancelAbandonsConfirmed`), and a confirm that was loaded before an answer
  was accepted runs the task without that answer (`Drafts.TaskIsCurrentIff`, `Drafts.LateConfirmMissesAnswer`).
- Dismissing the URL notices while a URL is cleared forgets the URL that was last displayed
  (`EndpointReconciliation.RepairReportsLastShown`, `EndpointReconciliation.DismissalForgets`).
- A delete whose revoke is refused leaves the endpoint behind (`TriggerLocks.DeleteLeavesOrphanIff`,
  `TriggerLocks.RefusedRevokeLeavesOrphan`).
- Batch and single metadata lookups disagree on names with SQL LIKE metacharacters (`ModelMetadata.LookupsAgreeIff`,
  `ModelMetadata.WildcardNamesDisagree`).
- A stored token that is not a text is replaced by its own mask when settings are written back
  (`Settings.WriteBackKeepsMeaningIff`, `Settings.NumberIsReplacedByPlaceholder`).

## Model

| member | source | states |
|---|---|---|
| `LogTimestamp.ParseRendered` | errand/container_runtime.py:393-427 | every well-formed stamp, with any number of fraction digits and any zone, parses back to the civil time, fraction and zone it was written from |
| `LogTimestamp.ParsedIsRendering` | errand/container_runtime.py:393-427 | whatever parses is such a stamp: the two lemmas are inverse to each other |
| `LogTimestamp.ValidIff` | errand/container_runtime.py:393-427 | a stamp is usable exactly if it names a day of the calendar, a time of day and an offset below a day |
| `LogTimestamp.StampedLineParses` | errand/container_runtime.py:406-427 | a line made of a stamp, a space and text splits into that text and the UTC instant the stamp denotes, rounded down to the microsecond |
| `LogTimestamp.ParsedLineIsStamped` | errand/container_runtime.py:406-427 | a line that splits with a stamp is made of that stamp, a space and the text |
| `LogTimestamp.OrderIsKept` | errand/container_runtime.py:399-427 | comparing parsed stamps never reverses the order of the exact instants, across zones and fraction lengths |
| `LogTimestamp.ZoneShifts` | errand/container_runtime.py:390-398 | a local time east of UTC is the earlier instant by exactly the offset, and west of it the later one |
| `LogTimestamp.OrdinalCountsDays` | errand/container_runtime.py:399-427 | the day number used to compare instants grows by one from each calendar day to the next, leap years included |
| `LogTimestamp.MicrosAreFloor` | errand/container_runtime.py:406-427 | cutting the fraction to six digits is rounding the exact instant down |
| `LogLines.CutIsExact` | errand/container_runtime.py:808-813 | the lines cut off and the remainder put together are the input: nothing is lost or added |
| `LogLines.CutOfUnlines` | errand/container_runtime.py:808-813 | lines written out and cut again come back as they were |
| `LogLines.CutInTwo` | errand/container_runtime.py:808-813 | where the stream is split into chunks makes no difference to the lines |
| `LogLines.DockerLines` | errand/container_runtime.py:319-334 | the Docker runtime's loop hands on exactly the non-empty lines of the concatenated chunks, the open last one included |
| `PodLog.ReadStream` | errand/container_runtime.py:804-824 | the chunk loop equals filtering the closed lines of the whole stream by stamp, whatever the chunking, and keeps the open rest |
| `PodLog.IterPodLogLines` | errand/container_runtime.py:750-881 | the follower's loop ends and equals the run of the protocol from the start, with the windows it asked for and the pauses it took |
| `PodLog.WindowReachesBack` | errand/container_runtime.py:381-384 | a requested window reaches back more than one second before the last stamp and at most two seconds further than its age; none is asked for before the first stamp, or when the clock is behind the last one |
| `PodLog.WindowCoversUnread` | errand/container_runtime.py:786-794 | so, with at most one second of clock lead and latency, every line not read yet is inside the served window |
| `PodLog.FollowReadsPrefix` | errand/container_runtime.py:750-881 | from any point of the protocol, what has been handed on stays a prefix of the log through breaks, reopenings and re-reads, and a terminated pod adds what is made of its last stream's leftover |
| `PodLog.PodLogExactlyOnce` | errand/container_runtime.py:750-881 | over every run the lines handed on are the non-empty lines of a prefix of the log, in order and once each; a terminated pod adds, of the raw text behind the last stream's last newline, the part of the next unread line behind its stamp, or the stripped text if the stream broke inside that stamp, and nothing if the text holds the failure marker |
| `PodLog.FinalYieldIsGenuineIff` | errand/container_runtime.py:827-842 | what is made of a leftover is the part of the next unread line behind its stamp, exactly if the leftover was not cut inside a stamp |
| `PodLog.CutTailBegins` | errand/container_runtime.py:827-842 | that part is a non-empty beginning of the next line's text |
| `PodLog.TornStampIsHandedOn` | errand/container_runtime.py:827-842 | the failing run: a pod that ends inside its first stamp yields `2026-08`, which is no prefix of its log with a cut line |
| `PodLog.FollowIsBounded` | errand/container_runtime.py:367-375 | at most 101 streams are opened; the run stops at the first that ends with the pod terminated or is the 11th barren one in a row, with that reason, and for the resume limit only at the 101st |
| `PodLog.SleepIsBounded` | errand/container_runtime.py:843-881 | every pause is between 1 and 30 seconds and a barren streak sleeps at most 210 seconds |
| `PodLog.PausesAre` | errand/container_runtime.py:843-869 | a pause is one second, doubled for each barren stream in a row, and 30 seconds from the fifth on |
| `PodLog.StampedLine` | errand/container_runtime.py:809-820 | a stamped line is handed on exactly if its stamp is later than the last one seen and it has any text; the last stamp moves with it |
| `PodLog.UnstampedLine` | errand/container_runtime.py:809-820 | a line without a stamp is handed on whole, exactly unless it holds the failure marker or is empty |
| `TriggerLocks.LockTable.LockFor` | errand/cloud_endpoints.py:366-378 | the same object while the trigger is known, otherwise the next new one, and the table stays one whose objects were all made before |
| `TriggerLocks.ForgottenLockIsNew` | errand/cloud_endpoints.py:381-383 | after a lock is forgotten, whatever happens to other locks, whoever asks next gets an object never handed out before and shared with no other trigger |
| `TriggerLocks.TableStepsAreEvents` | errand/cloud_endpoints.py:366-383 | the lock a trigger's operation waits for or forgets in the interleavings is the lock table's own |
| `TriggerLocks.StepKeeps` | errand/cloud_endpoints.py:649-730 | every step of every operation keeps the invariant that ties row, endpoint and lock objects together |
| `TriggerLocks.EndpointAgreesIff` | errand/webhook_trigger_routes.py:412-441 | in every interleaving, while no operation is inside the lock, the cloud holds an endpoint only if the row exists and stores its token, exactly unless a cloud call has lapsed and nothing has mended it since |
| `TriggerLocks.LapseHasCause` | errand/cloud_endpoints.py:805-838 | a lapse needs a refused or unsent revoke, a lost answer, or a failure |
| `TriggerLocks.OneLockWhileTriggerExists` | errand/cloud_endpoints.py:361-383 | while the row exists all operations share one lock object and one at most is inside it |
| `TriggerLocks.EntersIff` | errand/cloud_endpoints.py:657 | a waiting operation is let in exactly if no other is inside under the lock object it waits for |
| `TriggerLocks.RegistersIff` | errand/cloud_endpoints.py:657-694 | inside the lock a re-save always registers, and a reconciliation exactly if the trigger is still of its integration and its token is absent or not listed; whatever others do meanwhile it ends with the granted token in row and cloud and nothing lapsed, and otherwise row and cloud stay as they were |
| `TriggerLocks.RefusalChangesNothing` | errand/cloud_endpoints.py:453-470 | a refused registration changes neither row nor cloud and ends the operation |
| `TriggerLocks.LostAnswerLapses` | errand/cloud_endpoints.py:467-470 | a registration whose answer is lost leaves the row alone and the cloud with the new token, which is a lapse unless the row has that token |
| `TriggerLocks.MissingRowEnds` | errand/webhook_trigger_routes.py:422-432 | an operation that finds the row gone is over and changes nothing, except that a delete forgets the lock |
| `TriggerLocks.FailureReleases` | errand/cloud_endpoints.py:588-592 | an operation that fails is over and holds no lock |
| `TriggerLocks.TwoInsideAfterDeletion` | errand/webhook_trigger_routes.py:425-441 | after a deletion two operations can be inside together under different lock objects |
| `TriggerLocks.GoneForGood` | errand/cloud_endpoints.py:649-672 | once the row is gone no operation still under way registers an endpoint for it, however locks are forgotten, and an orphaned endpoint stays exactly until the cloud drops it itself |
| `TriggerLocks.DeleteLeavesOrphanIff` | errand/webhook_trigger_routes.py:412-441 | from inside the lock to the commit, whatever others do meanwhile, a delete leaves no row, and an endpoint behind exactly if there was one and the revoke was refused, or went by a token the endpoint did not have; the latter takes an earlier lapse |
| `TriggerLocks.RefusedRevokeLeavesOrphan` | errand/webhook_trigger_routes.py:430-440 | the failing run: a refused revoke and a row deleted anyway |
| `EndpointReconciliation.Triggers.Register` | errand/cloud_endpoints.py:386-514 | a missing secret is filled in, URL and token are written only on success, and the answer says which happened |
| `EndpointReconciliation.Triggers.ReconcileOne` | errand/cloud_endpoints.py:649-730 | one trigger's repair with its ledger entry, or nothing if it is gone, moved or live |
| `EndpointReconciliation.Triggers.GroupBySource` | errand/cloud_endpoints.py:557-567 | triggers are grouped by integration in order of first appearance, with the tokens they had |
| `EndpointReconciliation.Triggers.Reconcile` | errand/cloud_endpoints.py:521-594 | the nested loops of a pass equal visiting the grouped triggers one after the other |
| `EndpointReconciliation.DismissalForgets` | errand/cloud_endpoints.py:638-646 | the failing run: display `u1`, a pass that fails and clears it, a dismissal, a pass that is granted `u2`; no record tells that `u1` was replaced |
| `EndpointReconciliation.PassIsPerTrigger` | errand/cloud_endpoints.py:521-594 | a pass does to each trigger, its remembered URL and its records what its own case demands, whatever the order of the table |
| `EndpointReconciliation.PassOutcome` | errand/cloud_endpoints.py:521-594 | without a connection, for an integration that is not listed, or with a token the listing shows, a trigger, its remembered URL and its records stay exactly as they were; in every other case it ends with what was just granted or without a URL; an existing secret is kept |
| `EndpointReconciliation.ResaveOutcome` | errand/webhook_trigger_routes.py:372-390 | a registration outside a pass writes URL and token if granted, never clears them, and leaves the ledger alone |
| `EndpointReconciliation.PassShowsOnlyLive` | errand/cloud_endpoints.py:134-183 | after a pass, a URL of a listed integration belongs to a listed token or to a registration of this pass |
| `EndpointReconciliation.LastShownIsCarried` | errand/cloud_endpoints.py:597-646 | over every run of passes, re-saves and edits the table remembers the last URL a trigger displayed, exactly unless notices were dismissed while none was displayed |
| `EndpointReconciliation.RepairReportsLastShown` | errand/cloud_endpoints.py:688-730 | over every run, a successful repair records the new URL with the last URL ever displayed; an unchanged URL or a first registration records nothing; one record per trigger at most |
| `EndpointReconciliation.AtMostOneRecord` | errand/cloud_endpoints.py:695-716 | no run of the table leaves two records for a trigger |
| `EndpointReconciliation.SecretIsKept` | errand/cloud_endpoints.py:402-430 | over every run of the table, a secret a trigger has is never replaced |
| `ProviderRows.EnvScanKeepsSound` | errand/llm_providers.py:146-206 | after an environment scan names are distinct and at most one provider is the default: the one of index 0, unless a later entry repeats its name |
| `ProviderRows.EnvScanRemoves` | errand/llm_providers.py:190-215 | the scan removes exactly the environment's providers that no complete entry names any more, leaves every other provider as it was but for the default, and without any entry also the default |
| `ProviderRows.EnvScanWrites` | errand/llm_providers.py:154-193 | every complete entry that no later one repeats is in the table with its endpoint, key and type as the environment's, whoever had the name before |
| `ProviderRows.UsableIs` | errand/llm_providers.py:154-160 | the entries that count are those before the first that lacks a name, an endpoint or a key |
| `ProviderRows.DefaultKeepsSound` | errand/main.py:1419-1441 | setting the default leaves exactly the named provider with it |
| `ProviderRows.UpdateKeepsSound` | errand/main.py:1335-1390 | an update keeps names distinct and defaults single, whatever fields it sets |
| `ProviderRows.CreateOutcome` | errand/main.py:1132-1183 | which requests are refused and as what, and each field of the row an accepted one adds |
| `ProviderRows.UpdateOutcome` | errand/main.py:1335-1390 | which requests are refused and as what, each field an accepted one writes, and that other rows keep all of theirs |
| `ProviderRows.DeleteOutcome` | errand/main.py:1394-1416 | exactly the named row goes, unless it is missing, the environment's or the default |
| `ProviderRows.DefaultOutcome` | errand/main.py:1419-1441 | no other field of any row changes, and only a missing row is refused |
| `ModelRoles.SelectionState` | errand/llm_providers.py:273-350 | the two passes over the roles equal: configured if both name a model of an existing provider that is not known not to serve it; some role chosen if any names a model at all |
| `ModelRoles.AnyRoleIff` | errand/llm_providers.py:273-350 | some role is chosen exactly if a role setting is a non-empty text, or a selection whose `model` or `model_id` is set |
| `ModelRoles.ResolvesIff` | errand/llm_providers.py:273-350 | a role works exactly if it names a provider that is there and a model that provider does not fail to list |
| `ModelRoles.ClearsExactly` | errand/llm_providers.py:387-397 | clearing for deleted providers blanks exactly the three settings that name one of them |
| `ModelRoles.EstablishedIs` | errand/llm_providers.py:353-384 | both roles move to a provider's only model exactly if no role is set and the listing can be read and is one long; nothing else changes |
| `LocalScan.CandidatePorts` | errand/local_ai_detection.py:100-106 | the distinct candidate ports in order |
| `LocalScan.ResponseIsAuthority` | errand/local_ai_detection.py:109-146 | the first owner that names a runtime decides; an unknown owner rules the port's candidate out; where no owner said anything the port decides exactly if a single candidate claims it |
| `LocalScan.NeedsKeyIff` | errand/local_ai_detection.py:352-382 | an endpoint is offered for adoption exactly if a candidate port there answers that it wants a key and no provider of any source is configured for it |
| `LocalScan.ScanDeletesExactly` | errand/local_ai_detection.py:426-441 | a scan keeps every provider that was not detected exactly as it was, and deletes a detected one exactly if no candidate port at its canonical endpoint gave any answer; of those it keeps only the type can change |
| `LocalScan.ScanAdds` | errand/local_ai_detection.py:404-424 | every provider a scan adds is a detected one with the sentinel key, at a candidate endpoint that listed its models, named after what answered there or that name with the port; it is the default only of an empty table |
| `LocalScan.FoundIsRegistered` | errand/local_ai_detection.py:386-424 | every endpoint that answered with its models has a detected provider of the type found afterwards, unless it had none before and both the runtime's name and that name with the port were taken |
| `LocalScan.ProbesAre` | errand/local_ai_detection.py:352-382 | each candidate port is probed with the key of the oldest detected provider there and with the sentinel where there is none; what it is called and offered as follows from that probe alone |
| `LocalScan.ReportedProviderIs` | errand/local_ai_detection.py:443-471 | the provider reported is the detected one at the first endpoint the scan lists; a scan that lists none reports none |
| `LocalScan.CanonicalIs` | errand/local_ai_detection.py:149-158 | trailing separators do not count, and nothing else is taken away |
| `LocalScan.AdoptionOutcome` | errand/local_ai_detection.py:504-639 | which answer an adoption gets in each case, what it adds when it is let through, and that a refusal changes nothing |
| `LocalScan.ScanBlanksExactly` | errand/local_ai_detection.py:426-441 | it blanks exactly the model settings that named a provider it deletes |
| `LocalScan.ChosenModelsAreNotReplaced` | errand/local_ai_detection.py:312-320 | if any role named a model before the scan, usable or not, each role is as it was or blank because its provider was deleted |
| `LocalScan.SoleModelIsEstablished` | errand/local_ai_detection.py:443-476 | otherwise a model is established exactly if the scan registered a provider that lists a single one, and both roles move to it together |
| `LocalScan.ScanKeepsSound` | errand/local_ai_detection.py:384-424 | registration keeps names distinct and claims the default only on an empty table |
| `LocalScan.AdoptionKeepsSound` | errand/local_ai_detection.py:604-636 | so does adoption |
| `Providers.ProviderStore.Create` | errand/main.py:1132-1183 | the provider is created with the catalog's endpoint and name where it has them, as the default only of an empty table, or refused as invalid or taken with the table unchanged |
| `Providers.ProviderStore.Update` | errand/main.py:1335-1390 | exactly the given fields change, the type only with the endpoint; the environment's providers, a detected provider's endpoint and a taken name are refused with the table unchanged |
| `Providers.ProviderStore.Delete` | errand/main.py:1394-1416 | the row goes and the settings that named it are blanked, or the request is refused for the environment's providers and the default and nothing changes |
| `Providers.ProviderStore.SetDefault` | errand/main.py:1419-1441 | clearing all flags and setting one moves the default to the named row, or nothing changes if there is none |
| `Providers.ProviderStore.ClearSettings` | errand/llm_providers.py:387-397 | the loop blanks exactly the three settings that name the provider and leaves every other setting as it was |
| `Providers.ProviderStore.ScanEnvironment` | errand/llm_providers.py:146-215 | the loops end with every complete entry upserted in order, the default taken from all others, and stale rows gone with the settings that named them |
| `Providers.ProviderStore.ScanLocal` | errand/local_ai_detection.py:267-488 | the scan's loops over rows, ports and runtimes end in exactly the table, the settings and the result that the theorems of `LocalScan` are about |
| `Providers.ProviderStore.EstablishIfUnset` | errand/llm_providers.py:353-384 | both roles name the sole model the provider lists if no role named one, and otherwise no setting changes |
| `Providers.ProviderStore.Adopt` | errand/local_ai_detection.py:504-639 | a detected provider is added with the caller's key exactly if its canonical endpoint is a candidate, nothing is configured there, the key is accepted and the name is free; each refusal says which failed and changes nothing |
| `Providers.OneDefaultDistinctNames` | errand/local_ai_detection.py:237-264 | over any sequence of environment scans, local scans, adoptions, creates, updates, deletes and set-default calls, at most one default and distinct names |
| `Providers.OneDetectedPerEndpoint` | errand/local_ai_detection.py:328-341 | over any such sequence no canonical endpoint has two detected providers |
| `Providers.ManualProviderSurvives` | errand/local_ai_detection.py:426-441 | over any sequence of writers, a provider a person entered stays until it is deleted by its id or the environment takes its name; no scan removes it |
| `Providers.EnvScanBlanksExactly` | errand/llm_providers.py:205-215 | an environment scan blanks exactly the model settings that name a provider it removes |
| `Providers.DeletionBlanksExactly` | errand/main.py:1394-1416 | a delete blanks exactly the model settings that name the row it takes away, and a refused delete none |
| `Providers.RuntimeSurvives` | errand/local_ai_detection.py:149-172 | a detected or adopted runtime stays at its endpoint through any run in which nobody deletes it, the environment does not take its name, and no scan finds it silent to its key |
| `Providers.NotOfferedAgain` | errand/local_ai_detection.py:546-575 | and is never offered for adoption, or adopted, again |
| `Questions.NormaliseQuestions` | errand/llm.py:134-173 | the first three well-formed entries in order, each keeping a free given id or getting the first free number, all ids distinct |
| `Questions.ReadEntryIs` | errand/llm.py:146-171 | a bare text is a question; junk and blank text are dropped; a choice question without choices is free text; everything kept is stripped |
| `Questions.ChoicesAre` | errand/llm.py:165-169 | the choices kept are exactly the texts that are not blank, stripped and in order |
| `Questions.PlacedIdIs` | errand/llm.py:157-164 | a given id is kept if no earlier question has it; otherwise the id is the first free number from the question's place on |
| `Questions.FreshFrom` | errand/llm.py:158-163 | the search finds the first number not in use, and ends |
| `Questions.ResponseLandsOnce` | errand/clarify.py:213-219 | a response is one question's line and no other's: taking it away takes away exactly that line |
| `Drafts.Draft.Start` | errand/clarify.py:189-205 | a new draft asks or is ready as the classifier's first verdict says, with the input as its first turn |
| `Drafts.Draft.Classify` | errand/clarify.py:147-186 | the classifier's verdict recorded: asking below the cap, ready otherwise, with the questions left visible |
| `Drafts.Draft.Accept` | errand/clarify.py:238-244 | an accepted answer recorded, the round counted, the expiry moved, the draft classified again |
| `Drafts.ClassifiedIs` | errand/clarify.py:147-186 | the draft asks exactly if the classifier answered with questions below the cap, and is ready otherwise; at the cap the questions stay visible as unresolved; one assistant turn is added and nothing else changes |
| `Drafts.StartedAndAnsweredAre` | errand/clarify.py:189-205 | a start has the stripped input as its only user turn, an answer adds one; rounds count by one and the draft lives a day from now |
| `Drafts.ResolvedIs` | errand/clarify.py:85-112 | gaps in title, description and category are filled from the input and the answers, and nothing that is given is replaced |
| `Drafts.Transcribe` | errand/clarify.py:213-219 | the answers joined line by line; never empty |
| `Drafts.NoAnswerIsLost` | errand/clarify.py:208-244 | in every interleaving the conversation alternates, has 2*round+2 turns and holds every accepted answer once in order; a drafting draft is below the cap; questions are unresolved only at it |
| `Drafts.ClaimSucceedsIff` | errand/clarify.py:221-236 | an answer gets its round exactly if the draft is unfinished and no answer was accepted since it was loaded, and then the stored draft is the loaded one |
| `Drafts.AdmittedIff` | errand/clarify.py:208-301 | nobody is let in to an expired draft; an answer is let in exactly to open questions, a cancel exactly to an active draft |
| `Drafts.ConfirmSucceedsIff` | errand/clarify.py:256-268 | a confirm gets the draft exactly if it is still active, whatever happened since it was loaded |
| `Drafts.CommitsAre` | errand/clarify.py:238-304 | what each commit writes, and that it changes nothing else of the draft |
| `Drafts.AcceptedGrows` | errand/clarify.py:208-244 | an accepted answer is never taken back |
| `Drafts.AtMostOneTask` | errand/clarify.py:256-295 | at most one task comes of a draft, and the draft is finished when it does |
| `Drafts.LinkIsItsTask` | errand/clarify.py:289-295 | a task linked to the draft is the one task that was made from it |
| `Drafts.FinishedForGood` | errand/clarify.py:256-342 | a confirmed, abandoned or deleted draft is never active again, and neither a task nor an answer comes of it any more |
| `Drafts.SweepIs` | errand/clarify.py:324-342 | a sweep leaves every active draft that has not expired and every confirmed one alone, turns an active expired one abandoned with all else kept, and deletes exactly the abandoned or just expired ones a day past their expiry |
| `Drafts.LostOnlyTo` | errand/clarify.py:256-342 | over every run, an active draft stays active until it is confirmed, cancelled, or swept after its own expiry |
| `Drafts.TaskIsCurrentIff` | errand/clarify.py:256-287 | the task knows the answers accepted when the confirm was loaded: it is current if none was accepted since and, where the classifier left no description, only if |
| `Drafts.AnswersAreFoldedIn` | errand/clarify.py:85-112 | what runs has a title and a valid category; where the classifier left no description, it begins with the input and every accepted answer occurs in it |
| `Drafts.LateConfirmMissesAnswer` | errand/clarify.py:256-287 | the failing run: an answer accepted between load and claim is missing from the task |
| `Drafts.ConfirmedIsFinalIff` | errand/clarify.py:298-304 | `confirmed` is final exactly if no cancel was let in before |
| `Drafts.LateCancelAbandonsConfirmed` | errand/clarify.py:298-304 | the failing run: a confirmed draft with a task ends abandoned |
| `Drafts.StepKeeps` | errand/clarify.py:208-342 | every step of every request and of the sweep keeps the invariant that ties loaded copies to the stored draft |
| `Board.Board.NextPosition` | errand/utils.py:15-31 | one more than the highest position, or 1 |
| `Board.Board.UpdateTask` | errand/main.py:1013-1038 | a status change moves the task to the bottom of the new column, a position change shifts the tasks in between by one; a running or missing task changes nothing |
| `Board.PatchOutcome` | errand/main.py:1013-1055 | a column change goes to the bottom and wins over a position; other tasks move only within the span of a reorder; `execute_at` is written whenever it is given |
| `Board.Board.CreateTask` | errand/task_creation.py:138-155 | a new task is routed by category and "Needs Info" to the bottom of its column, counting itself |
| `Board.CreateOutcome` | errand/task_creation.py:124-155 | "Needs Info" goes to review, immediate to pending and due now, scheduled and repeating to scheduled, each at the bottom; no other task changes |
| `Board.Board.RecoverOrphan` | errand/container_runtime.py:1258-1286 | an orphaned running task is requeued or sent to review at the bottom |
| `Board.RecoverOutcome` | errand/container_runtime.py:1250-1286 | a running task goes to review from its fifth retry on, and otherwise back to scheduled, due after two to the power of its retries minutes, with one retry more; it stands at the bottom and no other task changes |
| `Board.Board.SelectDue` | errand/scheduler.py:101-130 | the at most 100 earliest due tasks in order of `execute_at` |
| `Board.BatchIs` | errand/scheduler.py:104-110 | a batch holds at most 100 due tasks, once each, and leaves a due task out only if it is full of tasks that were due no later |
| `Board.Board.PromoteDueTasks` | errand/scheduler.py:101-130 | the batch of due tasks is moved one by one, each to the bottom of pending at its turn |
| `Board.PromoteOutcome` | errand/scheduler.py:104-122 | promotion moves exactly the tasks picked and changes nothing of them but column and position |
| `Board.ReorderKeepsOrder` | errand/main.py:1020-1038 | a reorder to any integer puts the task exactly there, keeps positions distinct and all other tasks in their order |
| `Board.ReorderIsListMove` | errand/main.py:1020-1038 | on a contiguous column and a target inside it, the shift is list remove-then-insert |
| `Board.ReorderContiguousIff` | errand/main.py:1020-1038 | a contiguous column stays contiguous exactly if the target is one of its positions |
| `Board.PromotionAppendsInOrder` | errand/scheduler.py:101-130 | promoted tasks are appended below everything pending, in the order picked |
| `Board.PromotedBatchIsSorted` | errand/scheduler.py:101-130 | so the batch is sorted by `execute_at` and the tasks already pending are untouched |
| `Board.OperationKeepsDistinct` | errand/container_runtime.py:1258-1286 | each operation keeps positions in every column but the running one distinct |
| `Board.RunKeepsDistinct` | errand/task_creation.py:138-155 | so does every sequence of them |
| `ModelMetadata.NormalizeKeepsBase` | errand/model_metadata.py:37-48 | provider path, tag and digest are stripped and nothing else |
| `ModelMetadata.MajorityModeIs` | errand/model_metadata.py:92-103 | the mode chosen is the lexicographically least of the most frequent |
| `ModelMetadata.MajorityModePermutation` | errand/model_metadata.py:92-103 | and does not depend on the order of the rows |
| `ModelMetadata.CombinePermutation` | errand/model_metadata.py:117-145 | nor does any aggregate of the matching rows |
| `ModelMetadata.CombineIs` | errand/model_metadata.py:132-143 | of several rows the answer reasons if any of them does, and takes the least output limit any of them gives |
| `ModelMetadata.MatchIs` | errand/model_metadata.py:278-303 | a row of that very name answers alone, otherwise all rows that extend it by a hyphen or a dot do, and nothing else does |
| `ModelMetadata.BatchLookup` | errand/model_metadata.py:261-317 | the batch loop returns, for every name, the answer of its own matching |
| `ModelMetadata.LookupsAgreeIff` | errand/model_metadata.py:65-145 | batch and single lookup agree on every cache table exactly for names without `%`, `_` and backslash |
| `ModelMetadata.WildcardNamesDisagree` | errand/model_metadata.py:65-145 | for any other name there is a table on which they disagree |
| `ModelMetadata.LookupsIgnoreRowOrder` | errand/model_metadata.py:106-145 | neither lookup depends on the order of the table |
| `Settings.SettingsTable.ResolveSettings` | errand/settings_registry.py:224-259 | the loop over the registry equals each key's own resolution, masking and mirroring |
| `Settings.Precedence` | errand/settings_registry.py:150-193 | the environment decides a key it sets to a non-empty value, then the database, then the default; a value that cannot be coerced falls back to the default and not to the next source |
| `Settings.ShownIs` | errand/settings_registry.py:238-257 | a value is masked exactly if it is a secret that is set and comes from the environment or is never shown |
| `Settings.SettingsTable.UpdateSettings` | errand/main.py:1691-1764 | a request is written as a whole, or not at all if a validator objects |
| `Settings.StoredIs` | errand/main.py:1726-1770 | what a write leaves stored: nothing changes for an environment's key or a placeholder, null deletes where it clears, and anything else is stored |
| `Settings.AcceptsIff` | errand/main.py:1697-1725 | a value is held against its validator exactly if it will be written and does not just clear its key |
| `Settings.UnknownKeysAreStored` | errand/main.py:1696-1770 | a key the registry does not know is stored as given, unless it is one the route never writes |
| `Settings.ReadWriteRead` | errand/main.py:1690-1778 | for every environment and table, writing back what was read changes no value that reading shows |
| `Settings.WriteBackKeepsMeaningIff` | errand/main.py:1726-1752 | nor any unmasked value, exactly unless an always masked key holds something other than a text |
| `Settings.TokenSurvivesPlaceholder` | errand/main.py:1726-1752 | whatever else a request holds, a stored token survives its own placeholder |
| `Settings.NumberIsReplacedByPlaceholder` | errand/main.py:1726-1752 | the failing case: a stored number is replaced by `1234****` |
| `Settings.EnvironmentKeysAreNotWritten` | errand/main.py:1697-1717 | a key the environment sets is never written |
| `Settings.CoerceTwice` | errand/settings_registry.py:97-147 | a coerced value has the default's type: coercing it again changes nothing |
| `Settings.NormalizeKeepsMeaning` | errand/settings_registry.py:204-221 | mirroring `model` and `model_id` changes neither the model read nor any other field |
| `Settings.MaskTwice` | errand/settings_registry.py:90-94 | masking a mask gives the same mask |
| `Settings.ShippedRegistryOk` | errand/settings_registry.py:15-84 | the shipped registry meets what the round trip needs |
| `DevicePoll.PollUntilComplete` | errand/cloud_auth.py:130-164 | the loop ends; it polls at every time it wakes up before the deadline, answers with the first reply that is neither pending nor slow down, and gives up only at or after the deadline |
| `DevicePoll.PollsAre` | errand/cloud_auth.py:130-164 | each poll is before the deadline and at least its wait after the one before; the first wait is the server's interval or 5, and a wait grows by 5 after a slow-down and else stays |
| `DevicePoll.WaitNeverShrinks` | errand/cloud_auth.py:130-164 | the wait never shrinks from one poll to a later one |
| `DevicePoll.PollBudget` | errand/cloud_auth.py:130-164 | n polls need more than n initial waits of the grant's lifetime, and a server that keeps slowing down makes that quadratic |

## Left out

- HTTP, WebSocket, Kubernetes, Docker, database and Valkey calls: their answers are parameters, their rows plain state.
- Encryption, hashing and token generation: keys, secrets and tokens are opaque values; a secret that cannot be
  decrypted is a case of its own.
- `create_trigger`'s registration, which runs outside the trigger lock: a trigger starts out with the endpoint its
  creation registered, if any. Creation and deletion of triggers do not occur in the ledger runs.
- The integration an endpoint is registered under: the cloud keeps one endpoint per trigger, and only its token counts.
- Cloud disconnect and its bulk revoke; the Slack endpoints, the cooldown and the error setting.
- `TriggerLocks.LapseHasCause`: counts every failure of an operation as a possible cause, also one before the cloud
  was asked, which lapses nothing.
- `EndpointReconciliation.Triggers.Reconcile`: has no concurrent edits between the snapshot and a visit; those
  interleavings are in `TriggerLocks`, for one trigger.
- The ledger row is a value here. The program changes the loaded `last_known` object in place before assigning it back,
  so whether the ORM notices the change is not modelled.
- `compaction_model`, which the clearing of model settings does not cover, and model references written through the
  generic settings route.
- The cached API clients, `updated_at`, and the race between a model listing and a user's choice in
  `establish_model_settings_if_unset`: its second look at the settings is modelled, a change in between is not.
- Drafts are one row at a time and are modelled on values because their requests interleave; ownership checks, the
  listing of active drafts, timestamps of turns, the parsing of dates and the lookup of a profile are not modelled.
- The clarification cap is fixed for a run, as the promise about rounds requires.
- The board has the scheduled, pending, running, review and finished columns, without concurrent writers of one column,
  review tasks inserted without a position, and the deleted and archived columns' own rules. Positions in the running
  column can clash and are not claimed to be distinct.
- The refresh that fills the metadata cache, and its staleness.
- `Settings.ReadWriteRead`: is about values; where a value came from may change from default to database.
- The hot reload of sign-in settings and the minting of the memory token.
- Text is ASCII where case and white space matter: Unicode digits, case folding and white space are not modelled, and
  characters are code units. Log lines are decoded text.
- Log stamps in years 1 and 9999 whose offset leaves the calendar, and rotation of a pod's log. `PodLog` requires stamps
  that increase strictly at microsecond precision, and the cluster's failure marker on a line of its own.
- `LogTimestamp.ParsedIsRendering`: takes zone minutes as the standard library of Python 3.13 reads them, so minutes
  above 59 parse as long as the offset stays below a day.
- The front end, prompts, plugins, telemetry, the email poller, the MCP tools and the evals.
