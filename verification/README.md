# A verified model of CodeBro's context runtime

CodeBro keeps a durable store of what happened (events, sessions), what is known (context records),
what is suspected (learning candidates and the inferences they earn) and what waits for a human
(approval requests for skills). Small protocols change that store, and each claims a guarantee over
whole runs. This project models those protocols and proves the guarantees, or, where the code does
not meet one, proves exactly when it does and shows a case where it does not.

- **History** (`History`, `HistoryRows`, `ContextStore`): sessions and events, with dedup keys and counters.
- **Import** (`Portability`, `Convergence`, `ImportSafety`, `MergeOrder`, `ImportRows`, `ImportMirror`,
  `ImportWitnesses`): a bundle is planned against the store and then written row by row; the process may
  die after any write.
- **Workflow mining** (`Miner`, `Ranking`, `SkillReuse`): repeated tool runs of successful sessions,
  against their brute-force definition.
- **Learning** (`Evaluation`, `Proposals`, `Evolution`, `Clustering`, `Learning`, `Outcomes`,
  `Detections`, `Assessments`, `LearningStore`, `LearningWitness`, `DetectionWitness`):
  confidence and verdicts, clustering by token pairs, and the candidate and inference tables.
- **Approval** (`Approvals`, `Responses`, `ApprovalSafety`, `ApprovalDesk`, `Responders`, `ApprovalRaces`,
  `Releases`, `RaceChains`, `RaceWitnesses`, `DoubleWitness`): requests that expire, are answered once and
  may be modified, also with responders whose single reads and writes interleave (`Responders` says which reads
  are joined).
- **Resolution and recall** (`Fingerprint`, `Recall`): namespace winners and grouped hits.

Pure code is modelled by functions; code that updates tables or loops over buffers by classes and
methods, each proved equal to a step function that the run theorems speak about. `dafny verify
dfyconfig.toml` checks everything.

Foreign services are parameters: path canonicalization, trimming, text cleaning and redaction,
content hashes, id minting, validators and the state of skill files on disk. Times are arguments.
Minted ids are assumed new, and content hashes injective where a theorem says so. Confidence is exact
arithmetic rounded to hundredths instead of floating point.

Where the code and its documentation differ, the model follows the code:

- the import's crash convergence needs a store without dangling session links (`ConvergesIffNoDangling`,
  `RawAppendDiverges`); the history operations never create one, the raw append path can
  (`AppendKeepsCountsIff`);
- a session id padded with blanks is stored trimmed and recounted as written, which is in vain;
- a citation padded with blanks passes planning but is not remapped (`EvidenceRemapIsSound`,
  `PaddedCitationGoesAstray`);
- the order of imports matters unless a latest version of top authority decides (`OrderFreeIff`,
  `EqualTimesOrdersDiffer`, `CreationOrderFreeIff`);
- detectors and verdict disagree beyond a hundred supporting ids (`DetectorsAgreeWithJudge`), and a
  verdict in favour cannot be written beyond 32 citations (`DetectedIsAcceptedIff`, `ProposalOutcome`,
  `SeventeenSessionsGetStuck`): the evaluation breaks off and leaves the candidate evaluating. The
  learning invariant survives that for all evidence the detectors cite (`RunKeeps`); for evidence that
  does not resolve it would not (`AssessKeepsIff`, `BrokenOffEvaluationBreaksOwnership`);
- a modification can give a candidate a second live request (`RunUniqueIff`, `ModifyingCanDouble`), and
  so can two responders that modify one request at once (`RaceUniqueIff`, `OneRequestDoubles`);
- a response acts before it commits, and reads before it writes. What it published reads as granted
  exactly when nobody else took the request in between, or another approval did (`CommitsIffUntaken`,
  `LateSweepHidesPublication`); it is what was asked for exactly when content and anchor were still
  those of the check (`RacePublishesAsMadeIff`, `EditIsPublishedUnasked`); and candidates are published
  once, and stay over, exactly when nobody writes an open stage over a released candidate or finds a free
  version for one (`RaceReleasesOnceIff`, `DeferralPublishesTwice`, `TwoApprovalsPublishTwice`). Both go
  back to a late move (`AgainIsLate`), which need not do harm (`LatePlanIsRefused`).

## Model

| member | source | states |
|---|---|---|
| `History.RunKeeps` | crates/context-runtime/src/history.rs:479-550 | over every run of open, ensure, record, import, recount, close, touch and retitle steps each session's counter equals its linked events, each key names one event, no stored event or key is rewritten, and an ended session keeps status, closing time, reason and snapshot |
| `History.StepKeeps` | crates/context-runtime/src/history.rs:704-999 | the same for each single step |
| `History.InsertKeeps` | crates/context-runtime/src/history.rs:501-548 | inserting one event keeps ids fresh, keys unique and, when its session is stored, counters exact |
| `History.ReplayForever` | crates/context-runtime/src/history.rs:484-495 | once an event is recorded under a key, recording that key again after any run returns the same id as a duplicate and changes nothing |
| `History.EnsureResumes` | crates/context-runtime/src/history.rs:1049-1096 | ensuring opens a session only when the pair has none active, and then it is the newest; a second call, whatever id and time it brings, opens nothing and finds the same newest session |
| `History.RecountChangesNothing` | crates/context-runtime/src/history.rs:864-877 | recounting sessions with exact counters is a no-op |
| `History.AppendKeepsCountsIff` | crates/context-runtime/src/store.rs:453-500 | the raw append path links without counting: it keeps counters exact if and only if the event carries no session or its key is already taken |
| `ContextStore.ContextStore.RecordEventInTx` | crates/context-runtime/src/history.rs:479-550 | the in-place insert is exactly the step: duplicate key, missing session, or a new event with its counter bumped |
| `ContextStore.ContextStore.RecordHistory` | crates/context-runtime/src/history.rs:1145-1214 | validates, cleans and records one event; the store stays valid and only grows; a refusal changes nothing |
| `ContextStore.ContextStore.ImportEvent` | crates/context-runtime/src/history.rs:1216-1290 | imports one event under its given or synthesized key, unlinking an unknown session; a refusal changes nothing |
| `ContextStore.ContextStore.ImportSession` | crates/context-runtime/src/history.rs:790-858 | inserts a session whose trimmed id is absent, with a zero counter; a stored one is left alone |
| `ContextStore.ContextStore.RecountSessions` | crates/context-runtime/src/history.rs:864-877 | sets each named session's counter to its number of linked events |
| `ContextStore.ContextStore.ActiveSessionFor` | crates/context-runtime/src/history.rs:1049-1076 | finds the active session of the pair that was opened last, ties to the larger id, or none exactly when there is none |
| `ContextStore.ContextStore.EnsureActiveSession` | crates/context-runtime/src/history.rs:1078-1096 | returns the newest active session of the pair, opened by this call exactly when there was none; validity kept |
| `ContextStore.ContextStore.CloseSession` | crates/context-runtime/src/history.rs:932-999 | closes an active session once; validity kept and ended sessions untouched |
| `ContextStore.ContextStore.ImportRecord` | crates/context-runtime/src/store.rs:94-222 | stores the normalized record if its evidence is stored and in its workspace, keeping the first creation time; otherwise refuses without effect |
| `HistoryRows.RecordingLeaves` | crates/context-runtime/src/history.rs:1145-1214 | a recorded event is refused, found under its key, or added under the next id: canonical workspace, trimmed task, cleaned summary and payload, all else as given; its session counts it and takes its time, nothing else changes |
| `HistoryRows.ImportingLeaves` | crates/context-runtime/src/history.rs:1216-1290 | the same for an imported event, with its own key or the digest of what it says, and its session only if stored |
| `HistoryRows.SessionImportLeaves` | crates/context-runtime/src/history.rs:790-858 | the stored row of a bundled session, field by field, and when it is refused or left alone |
| `HistoryRows.OpeningLeaves` | crates/context-runtime/src/history.rs:1078-1096 | a new session is active and empty; ensuring opens an untitled one exactly when none of the pair is active |
| `HistoryRows.ResumingFinds` | crates/context-runtime/src/history.rs:1049-1076 | the newest session, on the fields: opened last, ties to the larger id |
| `HistoryRows.ClosingLeaves` | crates/context-runtime/src/history.rs:932-999 | closing succeeds exactly on an active session with a final status; status, times, reason and summary are written, all else kept |
| `Convergence.CrashConverges` | crates/context-runtime/src/portability.rs:512-595 | stopping after any number of session, event, recount or record writes and running the whole import again gives the store and verdict of one uninterrupted import |
| `Convergence.ImportIdempotent` | crates/context-runtime/src/portability.rs:39-44 | a second full import, also after a failed one, changes nothing and gives the same verdict |
| `Convergence.ConvergesIffNoDangling` | crates/context-runtime/src/portability.rs:512-595 | every interruption converges if and only if the bundle does not plan, the run is dry, some session or event row is refused as it stands (blank id, workspace or kind, or failed shape check), or no session that the import inserts and recounts has a counter apart from its links |
| `Convergence.WritesFailIff` | crates/context-runtime/src/history.rs:1216-1290 | whether the history writes go through is decided by the bundle's rows alone, whatever the store holds |
| `Convergence.DanglingLinkDiverges` | crates/context-runtime/src/portability.rs:552-554 | otherwise a stop just before the recount leaves a counter the second run never repairs |
| `Convergence.RefusedConverges` | crates/context-runtime/src/portability.rs:513-548 | an import refused in its history writes converges whatever the links are |
| `ImportWitnesses.RawAppendDiverges` | crates/context-runtime/src/store.rs:453-500 | a store made by the raw append and a one-session bundle for which the interrupted and the uninterrupted import differ |
| `Convergence.HistoryRunsNeverDangle` | crates/context-runtime/src/history.rs:479-550 | a store produced by history steps has no dangling links, so the premise of convergence holds there |
| `Convergence.StaleDuplicateDiverges` | crates/context-runtime/src/portability.rs:820-826 | two rows with one id, the older behind the newer: the older overwrites, and the next run changes the record again; hence the unique-id premise |
| `Convergence.WritesResume` | crates/context-runtime/src/history.rs:1216-1290 | finishing a half-done list of session and event writes equals doing it once |
| `Convergence.RecordsResume` | crates/context-runtime/src/portability.rs:557-582 | re-planning after part of the record writes and applying the rest gives the same records and verdict as one pass |
| `Convergence.RecountsAreNoOps` | crates/context-runtime/src/portability.rs:552-554 | without dangling links the recount after the writes changes no counter |
| `ImportMirror.PlanImport` | crates/context-runtime/src/portability.rs:721-828 | the planning loops compute exactly the plan: one bad event, one bad record or one unresolvable citation refuses the bundle before any write |
| `ImportMirror.PlanRecords` | crates/context-runtime/src/portability.rs:791-828 | each kept record row is localized and decided against the store before the import; refused iff a row is malformed or cites nothing known |
| `ImportMirror.ApplySessions` | crates/context-runtime/src/portability.rs:513-523 | writes the sessions in order up to the first refusal and lists those it inserted itself |
| `ImportMirror.ApplyEvents` | crates/context-runtime/src/portability.rs:528-548 | writes the events in order and builds the map from original to local ids |
| `ImportMirror.ApplyRecords` | crates/context-runtime/src/portability.rs:557-592 | writes the planned inserts and updates with remapped evidence, up to the first refusal |
| `ImportMirror.Import` | crates/context-runtime/src/portability.rs:429-595 | the whole driver over the mutable store equals the import function the theorems are about |
| `ImportRows.SessionsLand` | crates/context-runtime/src/portability.rs:731-776 | after a complete import a bundled session that was not stored is stored in the workspace its own is mapped to, else in the default one if the bundle speaks of exactly one workspace, else in its own; all other fields as given and cleaned |
| `ImportRows.SessionsAreCounted` | crates/context-runtime/src/portability.rs:552-554 | its counter is the number of its events, if its id was written without blanks around it |
| `ImportRows.StoredSessionsStay` | crates/context-runtime/src/history.rs:790-858 | a stored session keeps everything but its counter and time |
| `ImportRows.EventsLand` | crates/context-runtime/src/portability.rs:776-789 | the same for a bundled event whose key was not stored, linked to its session exactly when that is stored or bundled |
| `ImportRows.RecordsLand` | crates/context-runtime/src/portability.rs:791-828 | a global record, and a scoped one whose workspace is mapped or defaulted, is written there if none is stored or the stored one is older and of no more authority; every field is given, and each citation is a stored event of its workspace |
| `ImportRows.RecordsStay` | crates/context-runtime/src/portability.rs:884-922 | every other record is as before: a scoped record whose workspace maps nowhere is not written at all |
| `ImportRows.PlannedAction` | crates/context-runtime/src/portability.rs:901-940 | what is planned for a row: insert, update, skip, duplicate or conflict, by time, authority and content |
| `ImportRows.PlanningLeaves` | crates/context-runtime/src/portability.rs:721-828 | a bundle is planned exactly when its events and records are well formed and each record that has a place cites what is there; otherwise, and in a dry run, nothing is written |
| `ImportSafety.EvidenceRemapIsSound` | crates/context-runtime/src/portability.rs:557-573 | each citation of a written record denotes a stored event; a citation of a bundled event denotes the local event with that event's key if and only if its text was not padded with blanks or the local id that store and bundle determine is the cited one |
| `ImportSafety.LocalCitationsStay` | crates/context-runtime/src/portability.rs:562-570 | a citation of no bundled event is kept as it was and denotes an event of the store |
| `ImportSafety.BundledEventsAreStored` | crates/context-runtime/src/history.rs:584-606 | after the event writes every bundled event is stored under its given or synthesized key |
| `ImportSafety.BundledIdsAreDetermined` | crates/context-runtime/src/history.rs:479-550 | each bundled event ends under the stored id of its key, or the next free id plus the number of different new keys before it |
| `ImportWitnesses.PaddedCitationGoesAstray` | crates/context-runtime/src/portability.rs:803-819 | a concrete import that succeeds and writes a record citing the store's own event in place of the bundled one |
| `ImportSafety.ImportsLoseNone` | crates/context-runtime/src/portability.rs:901-922 | over any sequence of imports, failed ones included, no record disappears and neither its update time nor its authority rank decreases |
| `ImportSafety.ImportLosesNone` | crates/context-runtime/src/portability.rs:901-922 | the same for one import |
| `MergeOrder.OneImportMerges` | crates/context-runtime/src/portability.rs:901-922 | a complete import merges the version it carries into the stored one: it replaces an older one of no stronger authority and nothing else |
| `MergeOrder.ImportsMerge` | crates/context-runtime/src/portability.rs:820-828 | a run of complete imports is the run of these merges, record by record |
| `MergeOrder.LatestVersionWins` | crates/context-runtime/src/portability.rs:901-922 | when one carried version that can replace the stored one has top authority and is later than all the others that can, every run ends with it |
| `MergeOrder.OrderFreeIff` | crates/context-runtime/src/portability.rs:901-940 | all orders of the bundles store the same content (apart from creation time, origin and local evidence ids) if and only if no carried version can replace the stored one, or there is such a latest version of top authority |
| `MergeOrder.TwoOrdersAgreeIff` | crates/context-runtime/src/portability.rs:901-922 | two versions of an absent record end with the same content in both orders if and only if they are the same or the later one has no less authority |
| `ImportWitnesses.EqualTimesOrdersDiffer` | crates/context-runtime/src/portability.rs:906-911 | two one-record bundles with one timestamp and different content whose two orders store different content |
| `MergeOrder.ImportsCreate` | crates/context-runtime/src/store.rs:107-190 | a record ends with the creation time of the stored row, or of the first bundle that carried it |
| `MergeOrder.CreationOrderFreeIff` | crates/context-runtime/src/store.rs:107-190 | that time does not depend on the order if and only if the record was stored before or all carried versions were created at the same time |
| `Miner.CollapseWithIds` | crates/context-runtime/src/skill_reuse.rs:198-208 | keeps exactly the first tool and id of every run of equal tools; no two neighbours remain equal |
| `Miner.CollapsePicks` | crates/context-runtime/src/skill_reuse.rs:198-208 | dropping repeats one by one leaves the positions where a run starts, and only those |
| `Miner.SessionPolarity` | crates/context-runtime/src/skill_reuse.rs:365-382 | failure iff some event failed; success iff some event succeeded and none failed |
| `Miner.FindRun` | crates/context-runtime/src/skill_reuse.rs:384-391 | finds the leftmost contiguous occurrence, or none exactly when there is none |
| `Miner.GateNeverFires` | crates/context-runtime/src/skill_reuse.rs:540-546 | on a collapsed sequence every window of two to five tools has two distinct ones |
| `Miner.Mine` | crates/context-runtime/src/skill_reuse.rs:531-561 | over all sessions each entry holds the sessions that voted for its key and the ids of each one's first vote |
| `Miner.MinerRefinesBruteForce` | crates/context-runtime/src/skill_reuse.rs:531-561 | the mined table equals the brute-force one (run recorded iff contained somewhere; sessions are those that contain it; ids are those of the leftmost occurrence) if and only if no two different runs share a joined key |
| `Miner.PlainNamesAreDistinct` | crates/context-runtime/src/skill_reuse.rs:532-547 | tool names without '>' give distinct joined keys |
| `Miner.JoinInjective` | crates/context-runtime/src/skill_reuse.rs:532-547 | joining by '>' is injective on names without it |
| `Miner.SeparatorCollides` | crates/context-runtime/src/skill_reuse.rs:532-547 | a '>' inside a name makes two different runs share a key |
| `Miner.SeparatorBreaksMining` | crates/context-runtime/src/skill_reuse.rs:532-547 | two sessions whose mined table is not the brute-force one |
| `Ranking.GatheredCounts` | crates/context-runtime/src/skill_reuse.rs:571-584 | each session that contains a run contributes exactly the run's length in distinct ids |
| `Ranking.GateIsOnSessions` | crates/context-runtime/src/skill_reuse.rs:585-591 | the event-count contradiction gate fires iff twice the failing sessions reach the successful ones |
| `Ranking.Score` | crates/context-runtime/src/skill_reuse.rs:567-601 | a mined run qualifies iff at least three successful sessions contain it and fewer than half as many failed ones; its evidence is exactly the leftmost ids, sorted without repeats |
| `Ranking.RankingIsTotal` | crates/context-runtime/src/skill_reuse.rs:602-607 | sessions, then length, then name is a strict total order on runs of different names |
| `Ranking.Rank` | crates/context-runtime/src/skill_reuse.rs:563-607 | lists every qualifying run, best first, and nothing else |
| `Ranking.OnlyEarlierDominate` | crates/context-runtime/src/skill_reuse.rs:602-624 | in the ranking a later pattern never dominates an earlier one |
| `Ranking.KeepUndominated` | crates/context-runtime/src/skill_reuse.rs:609-625 | at most three kept, none a run of another with at least its support; while fewer than three are kept every other one is a run of a kept one with at least its support |
| `SkillReuse.DetectReuse` | crates/context-runtime/src/skill_reuse.rs:490-625 | from fetched events to at most three proposals, in order of sessions, length and joined name: each has two to five tools, recurs in three successful sessions or more with fewer than half as many failed ones, and none is redundant; every run that recurs so lies inside a proposal with at least its support, or is left out because three proposals all come before it |
| `SkillReuse.SplitSessions` | crates/context-runtime/src/skill_reuse.rs:490-529 | collapsed sequences of the successful sessions with two tools or more, and of the failed ones |
| `SkillReuse.TracesAreUnique` | crates/context-runtime/src/skill_reuse.rs:490-529 | unique event ids stay unique across and within the collapsed sequences |
| `Evaluation.Confidence` | crates/context-runtime/src/learning.rs:998-1035 | confidence always lies in 5..95 hundredths |
| `Evaluation.ConfidenceFalls` | crates/context-runtime/src/learning.rs:998-1035 | with the support fixed it never rises as contradiction is added |
| `Evaluation.VerdictOnlyFalls` | crates/context-runtime/src/learning.rs:1669-1726 | added contradiction moves the verdict only down: accepted, deferred, rejected |
| `Evaluation.DetectorsAgreeWithJudge` | crates/context-runtime/src/skill_reuse.rs:586-601 | the verdict on what passes a detector's gates is in favour or weak if and only if it has at most 100 supporting ids or fewer than 50 contradicting ones |
| `Evaluation.LargeContestedPattern` | crates/context-runtime/src/skill_reuse.rs:637-638 | 300 supporting and 120 contradicting ids pass the gates and are judged contested |
| `Evaluation.SessionsSurviveTheCut` | crates/context-runtime/src/skill_reuse.rs:637-638 | cutting evidence at a hundred ids leaves at least three sessions |
| `Evaluation.MinedPatternsClearFloors` | crates/context-runtime/src/learning.rs:998-1035 | uncontradicted evidence from three sessions scores at least 76 whatever its age, so it clears both floors and the verdict is in favour |
| `Proposals.ProposalVerdict` | crates/context-runtime/src/skill_reuse.rs:586-601 | the verdict on every proposal of the detector is in favour or weak if and only if it has at most 100 supporting or fewer than 50 contradicting ids |
| `Proposals.UncontradictedVerdict` | crates/context-runtime/src/skill_reuse.rs:567-601 | the verdict on every proposal that no failed session contains is in favour with at least 76, in every scope and at every age |
| `Outcomes.UncontradictedIsAcceptedIff` | crates/context-runtime/src/learning.rs:1728-1770 | the candidate of an uncontradicted pattern ends accepted if and only if it cites at most 32 events, and is left evaluating if and only if it cites more |
| `Outcomes.ProposalOutcome` | crates/context-runtime/src/learning.rs:1623-1813 | the candidate of any proposed pattern ends accepted, deferred, or left evaluating, never rejected: each exactly by its verdict and the limit of 32 citations |
| `Detections.DetectedIsProposed` | crates/context-runtime/src/skill_reuse.rs:726-800 | what the detector writes for a pattern found in the fetched events is such a candidate: both sides stored, in scope and apart |
| `Detections.DetectedIsAcceptedIff` | crates/context-runtime/src/skill_reuse.rs:463-725 | detect, write, evaluate: a pattern that no failed session contains ends accepted if and only if it cites at most 32 events, and is left evaluating if and only if it cites more |
| `DetectionWitness.SeventeenSessionsGetStuck` | crates/context-runtime/src/types.rs:546-550 | the two-tool pattern of 17 successful sessions qualifies, no failed session contains it, and evaluating its candidate breaks off on its 34 citations |
| `Outcomes.StandingIsVoiced` | crates/context-runtime/src/learning.rs:1818-1881 | sorted, disjoint evidence that exists in scope is voiced unchanged |
| `Proposals.ProposalEvidence` | crates/context-runtime/src/skill_reuse.rs:567-585 | a proposal's evidence comes from at least three sessions, at most five ids each |
| `Evolution.RunGates` | crates/context-runtime/src/skill_evolution.rs:956-1040 | the window loop and the gates: passes iff at least three failures after the version's activation, fewer than half as many successes, a shared signal and no healthy record; each other outcome exactly when |
| `Evolution.WindowHolds` | crates/context-runtime/src/skill_evolution.rs:956-985 | the window holds exactly the linked events after the version that name no other skill and went the given way |
| `Evolution.PassedIsJudgedAlike` | crates/context-runtime/src/skill_evolution.rs:986-1025 | the verdict on what passes is in favour or weak if and only if it has at most 100 failures or fewer than 50 successes |
| `Evolution.OldFailuresDoNotHaunt` | crates/context-runtime/src/skill_evolution.rs:966-969 | failures up to the active version's creation never count |
| `Clustering.ClusterByPair` | crates/context-runtime/src/learning.rs:884-938 | a class is returned iff it holds exactly the members of its kind and polarity whose topics have both tokens, at least two of them |
| `Clustering.FillGroups` | crates/context-runtime/src/learning.rs:890-908 | the nested loops collect under each key exactly the members that belong there |
| `Clustering.SplitUndoesPair` | crates/context-runtime/src/learning.rs:903-934 | splitting a pair key at its first '+' gives back the two tokens |
| `Clustering.BestPairs` | crates/context-runtime/src/learning.rs:1292-1311 | for each kind and polarity the largest allowed class, ties to the lesser first and then second token; none exactly when no class is allowed |
| `Clustering.BestIsOrderFree` | crates/context-runtime/src/learning.rs:1292-1311 | the choice does not depend on the order in which classes are met |
| `Clustering.ClustersAreDetermined` | crates/context-runtime/src/learning.rs:909-937 | what clustering returns always meets the premise of the choice |
| `Learning.RunKeeps` | crates/context-runtime/src/learning.rs:1623-1813 | over every run in which detections cite stored events of their scope, sorted and once each, as all four detectors do, evaluations that break off included: each active inference belongs to exactly one candidate, which is accepted and of its slot, rests on three or more distinct stored events of its scope, and no slot holds two |
| `Learning.CompletedRunKeeps` | crates/context-runtime/src/learning.rs:1092-1178 | the same for whatever evidence is cited, over runs whose evaluations do not break off |
| `Learning.StandingNeverOverflows` | crates/context-runtime/src/learning.rs:1978-1983 | with such evidence a candidate whose inference stands is found unchanged, so its evaluation never breaks off |
| `Learning.StepKeeps` | crates/context-runtime/src/learning.rs:1092-1178 | the same for each single step |
| `Learning.RejectedIsAbsorbing` | crates/context-runtime/src/learning.rs:2093-2119 | a rejected candidate stays rejected over every run, complete or not |
| `Learning.AssessKeepsIff` | crates/context-runtime/src/types.rs:546-550 | outside that premise: an evaluation keeps the invariant if and only if it does not try to write more than 32 citations for a candidate whose inference still stands |
| `Learning.RunKeepsOnePerSlot` | crates/context-runtime/src/learning.rs:1960-1990 | over every run, evaluations that break off included, no slot holds two active inferences |
| `LearningWitness.BrokenOffEvaluationBreaksOwnership` | crates/context-runtime/src/learning.rs:1960-1990 | why the premise: a run in which a refresh cites 33 events and one that does not exist, which no detector does, ends with an inference whose only claimant is no longer accepted |
| `Learning.VoicedIsGrounded` | crates/context-runtime/src/learning.rs:1818-1881 | voiced evidence is exactly the cited ids that exist in scope, each once; an id cited on both sides supports |
| `Learning.AcceptKeeps` | crates/context-runtime/src/learning.rs:1924-1990 | accepting supersedes the slot's inference, if any, and keeps the invariant |
| `Learning.ConfirmKeeps` | crates/context-runtime/src/learning.rs:2031-2088 | confirming replaces the inference by user knowledge and keeps the invariant |
| `Learning.SweepKeeps` | crates/context-runtime/src/learning.rs:2123-2133 | expiring candidates never touches one whose inference stands |
| `LearningStore.LearningStore.VoiceEvidence` | crates/context-runtime/src/learning.rs:1818-1881 | the loop over cited ids yields exactly the voiced evidence of both sides |
| `LearningStore.LearningStore.EvidenceMembers` | crates/context-runtime/src/learning.rs:1884-1920 | loads the stored events behind the evidence, in order |
| `LearningStore.LearningStore.ActiveInference` | crates/context-runtime/src/learning.rs:1993-2022 | finds the slot's active inference, or none exactly when there is none |
| `LearningStore.LearningStore.UpsertCandidate` | crates/context-runtime/src/learning.rs:1092-1178 | accepted rows refresh, open rows are rewritten, verdicts stand; an invariant that held still holds |
| `LearningStore.LearningStore.PersistInference` | crates/context-runtime/src/learning.rs:1924-1990 | reuses an unchanged inference, refuses more than 32 citations, supersedes the slot's one or inserts |
| `LearningStore.LearningStore.JudgeCandidate` | crates/context-runtime/src/learning.rs:1656-1726 | confidence and verdict of the evidence that still stands |
| `LearningStore.LearningStore.EvaluateCandidate` | crates/context-runtime/src/learning.rs:1623-1813 | the new tables are exactly those of the evaluation step, whenever no slot holds two inferences, which it keeps; success keeps the whole invariant |
| `LearningStore.LearningStore.ConfirmCandidate` | crates/context-runtime/src/learning.rs:2031-2088 | succeeds iff the user said so and the accepted candidate's inference is active; an invariant that held still holds |
| `LearningStore.LearningStore.RejectCandidate` | crates/context-runtime/src/learning.rs:2093-2119 | rejects the candidate and retires its inference; an invariant that held still holds |
| `LearningStore.LearningStore.ExpireSweep` | crates/context-runtime/src/learning.rs:2123-2133 | expires the open candidates past their time and no others; an invariant that held still holds |
| `Assessments.EvaluationDecides` | crates/context-runtime/src/learning.rs:1640-1731 | by the stored in-scope events on its two sides: rejected exactly with three or more for it, the global bar met and more against it than for it; accepted, or left evaluating for want of room, exactly with fewer than half as many against it and a confidence of 55 or more; otherwise deferred |
| `Assessments.ConfidenceIsStrength` | crates/context-runtime/src/learning.rs:998-1060 | the confidence is the blend of number, weight, agreement, recent share and diversity of those sets of events, clamped and rounded to hundredths |
| `Assessments.AcceptanceLeaves` | crates/context-runtime/src/learning.rs:1733-1775 | acceptance writes the sorted sides and the confidence, and a new active inference for half a year that supersedes the one in the slot; nothing else changes |
| `Assessments.StandingLeaves` | crates/context-runtime/src/learning.rs:1924-1990 | an inference that is in place for the same evidence is kept |
| `Assessments.OverflowLeaves` | crates/context-runtime/src/types.rs:546-550 | without room for the citations only the stage changes |
| `Assessments.LapseLeaves` | crates/context-runtime/src/learning.rs:1776-1812 | a rejected or deferred candidate keeps its reference; the active inference of an accepted one is rejected with it |
| `Assessments.UserRejectionLeaves` | crates/context-runtime/src/learning.rs:2093-2119 | a rejection by the user rejects the candidate and its active inference, whatever its stage |
| `Assessments.ConfirmationLeaves` | crates/context-runtime/src/learning.rs:2031-2091 | a confirmation supersedes the candidate, and its active inference by a confirmed copy; otherwise nothing changes |
| `Assessments.DetectionLeaves` | crates/context-runtime/src/learning.rs:1092-1180 | a detection rewrites an open row, refreshes an accepted one and leaves a decided one alone |
| `Assessments.ExpiryLeaves` | crates/context-runtime/src/learning.rs:2123-2133 | past their time open candidates and active inferences expire, and nothing else does |
| `ApprovalSafety.NothingStaleIsPublished` | crates/context-runtime/src/skill_approvals.rs:586-688 | whatever edits happen in between, each publication of a run carries exactly the content and version anchor its candidate had when the request was minted, from the request's workspace and task, strictly before expiry |
| `ApprovalSafety.OnlyApprovalsPublish` | crates/context-runtime/src/skill_approvals.rs:659-688 | a step publishes if and only if it is a successful approve; modify never does |
| `ApprovalSafety.RunFaithful` | crates/context-runtime/src/skill_approvals.rs:586-657 | over every run each publication matches its granted request and no request is published twice |
| `ApprovalSafety.EveryRequestHasAnOrigin` | crates/context-runtime/src/skill_approvals.rs:434-494 | each request's terms are those of the one step that minted it, for its candidate as it then was |
| `ApprovalSafety.TermsStand` | crates/context-runtime/src/skill_approvals.rs:991-1025 | no step changes what a request was made for, and an answered row never changes |
| `ApprovalSafety.ModificationForks` | crates/context-runtime/src/skill_approvals.rs:745-911 | a successful modify leaves either a validated fork with a pending successor and a superseded parent, or an invalid fork and an untouched parent; it publishes nothing |
| `ApprovalSafety.RunChained` | crates/context-runtime/src/skill_approvals.rs:865-911 | over every run successor and parent links are mutually inverse and acyclic, and a request with a successor is answered |
| `ApprovalSafety.ChainsNeverLoop` | crates/context-runtime/src/skill_approvals.rs:917-988 | following successors never comes back to the start |
| `ApprovalSafety.StepUniqueIff` | crates/context-runtime/src/skill_approvals.rs:402-432 | a step keeps at most one live request per candidate, action and workspace if and only if it is not a modification landing on a stored candidate that already has one |
| `ApprovalSafety.RunUniqueIff` | crates/context-runtime/src/skill_approvals.rs:318-334 | as time moves on, the bound holds throughout a run if and only if no step of it is such a modification |
| `ApprovalSafety.ModifyingCanDouble` | crates/context-runtime/src/skills.rs:1258-1320 | a four-step run that ends with two live requests for one candidate and action, because a refreshed open candidate is re-validated without looking at its requests |
| `ApprovalSafety.SweepsCompose` | crates/context-runtime/src/skill_approvals.rs:1030-1039 | two sweeps are one at the later time; a live request is never touched and nothing overdue is left |
| `ApprovalSafety.LifecycleIsOneWay` | crates/context-runtime/src/skills.rs:207-236 | along every path of allowed moves a candidate that was released, rejected, superseded or expired never becomes approvable again |
| `ApprovalRaces.LeavesPendingOnce` | crates/context-runtime/src/skill_approvals.rs:991-1025 | under every interleaving of responders' single reads and writes, commits, sweeps and edits a request leaves pending at most once, and its row never changes afterwards |
| `ApprovalRaces.LeavesIffTaken` | crates/context-runtime/src/skill_approvals.rs:991-1039 | a pending row leaves pending if and only if the turn sweeps it past its expiry, commits on it, or answers it whole, and then reads accordingly |
| `ApprovalRaces.RowFollowsFate` | crates/context-runtime/src/skill_approvals.rs:991-1039 | after any interleaving a row is still pending if and only if no turn took it; otherwise it reads as the first that did left it |
| `ApprovalRaces.CommitsIffUntaken` | crates/context-runtime/src/skill_approvals.rs:659-688 | a responder that has acted gets its commit through if and only if no turn in between took the row; a published request then reads as granted if and only if none did, or another approval did |
| `Releases.RacePublishesAsMadeIff` | crates/context-runtime/src/skills.rs:2141-2165 | after any interleaving an approval publishes what its request was made for if and only if the candidate's content and anchor at its own reading are those read at the check |
| `ApprovalRaces.RaceKeepsSuccessorsAnswered` | crates/context-runtime/src/skill_approvals.rs:1000-1010 | under every interleaving a request with a successor is not pending |
| `ApprovalRaces.RaceHalfLinked` | crates/context-runtime/src/skill_approvals.rs:865-902 | under every interleaving each successor link has its parent link |
| `ApprovalRaces.ParentLinkIff` | crates/context-runtime/src/skill_approvals.rs:865-902 | over every race a parent link is matched, or its responder still at work, if and only if no turn failed to close the parent candidate and no commit for it was refused |
| `Releases.RaceReleasesOnceIff` | crates/context-runtime/src/skills.rs:1634-1690 | throughout any interleaving no candidate is published twice and none published becomes approvable again, if and only if no responder writes an open stage over a released candidate or brings a released one to its publishing write with a version that is still free |
| `Releases.TurnReleasesOnceIff` | crates/context-runtime/src/skills.rs:2223-2400 | the same turn by turn, on boards where each candidate was published at most once so far |
| `Releases.AgainIsLate` | crates/context-runtime/src/skills.rs:2223-2290 | each such turn goes back to a late move, itself or an earlier one: a stage read before the release and written after it, or a version planned for a candidate released since it was read; so without late moves each candidate is published at most once |
| `RaceWitnesses.LatePlanIsRefused` | crates/context-runtime/src/skills.rs:2223-2250 | the converse fails: a late plan that somebody else has overtaken is refused, and the candidate stays published once |
| `RaceWitnesses.DeferralPublishesTwice` | crates/context-runtime/src/skills.rs:1634-1690 | a deferral and an approval race: the late write reopens the released candidate, and it is published again |
| `RaceWitnesses.TwoApprovalsPublishTwice` | crates/context-runtime/src/skills.rs:2223-2250 | two approvals race: the second reads the skill after the first has published, and publishes the same candidate as the next version |
| `RaceWitnesses.EditIsPublishedUnasked` | crates/context-runtime/src/skills.rs:2141-2165 | an edit between check and effect is published on a request that was made for other content |
| `Responders.UndisturbedIsRespond` | crates/context-runtime/src/skill_approvals.rs:575-911 | a responder alone: its check, all its single reads and writes, and its commit are exactly one response |
| `Responders.AloneIsEffect` | crates/context-runtime/src/skill_approvals.rs:659-905 | left alone, the single reads and writes of an approval, rejection, deferral or modification add up to its effect |
| `Responders.AloneJudges` | crates/context-runtime/src/skills.rs:1987-2065 | left alone, the moves of an evaluation validate a valid candidate that is proposed, evaluating, deferred or a draft, leave an invalid one, and give up on any other |
| `Responders.DraftOverwrites` | crates/context-runtime/src/skills.rs:2048-2053 | committing a draft writes the content that was read at the start, whatever the row has become, and only while it is being evaluated |
| `ApprovalRaces.LateSweepHidesPublication` | crates/context-runtime/src/skill_approvals.rs:659-688 | the failing side shown: a sweep between an approval's effect and its commit leaves the request reading as expired |
| `RaceChains.RaceNeverLoops` | crates/context-runtime/src/skill_approvals.rs:865-902 | over every race from a board of chains neither following successors nor following parents leads back to the start |
| `RaceChains.RaceUniqueIff` | crates/context-runtime/src/skill_approvals.rs:402-432 | as time moves on, a race never shows two live requests for one candidate, action and workspace if and only if no responder mints one, still in time, for a fork that has one, and no whole answer by others does |
| `RaceChains.TurnUniqueIff` | crates/context-runtime/src/skill_approvals.rs:917-988 | the same turn by turn |
| `DoubleWitness.OneRequestDoubles` | crates/context-runtime/src/skills.rs:1987-2065 | two responders modify one pending request in step: both evaluate the same fork before either asks for it, and it ends with two live requests |
| `ApprovalDesk.Desk.FindLive` | crates/context-runtime/src/skill_approvals.rs:408-421 | finds the most recent live request for the candidate, action and workspace, or none exactly when there is none |
| `ApprovalDesk.Desk.CreateRequest` | crates/context-runtime/src/skill_approvals.rs:335-494 | returns a live request for the candidate's present content, minting one only when none is live; fails iff the candidate cannot be asked about or a live request is for other content |
| `ApprovalDesk.Desk.InsertCandidate` | crates/context-runtime/src/skills.rs:1258-1330 | inserts a new candidate or refreshes an open one of the same content; refuses otherwise |
| `ApprovalDesk.Desk.EvaluateContent` | crates/context-runtime/src/skills.rs:1987-2065 | stage by stage, a valid open candidate ends validated and an invalid one stays |
| `ApprovalDesk.Desk.ApproveCandidate` | crates/context-runtime/src/skills.rs:2141-2455 | publishes the candidate's content as the next version iff all gates pass; otherwise changes nothing |
| `ApprovalDesk.Desk.ModifyCandidate` | crates/context-runtime/src/skill_approvals.rs:745-911 | forks, evaluates, asks and closes the parent exactly as the effect says |
| `ApprovalDesk.Desk.RespondToRequest` | crates/context-runtime/src/skill_approvals.rs:586-911 | the new tables are exactly those of the response step, which succeeds iff it is admitted and its effect goes through |
| `Responses.SucceedsIff` | crates/context-runtime/src/skill_approvals.rs:586-688 | an answer goes through exactly when the request is pending, in time, from its workspace and task, its candidate unchanged, and, to approve, strong, valid, at home and anchored to the active version, or, to modify, with an instruction that changes the content and nothing reviewed in the way |
| `Responses.RefusalLeaves` | crates/context-runtime/src/skill_approvals.rs:592-605 | a refused answer changes nothing, except that a late one sweeps the overdue requests |
| `Responses.RejectionLeaves` | crates/context-runtime/src/skill_approvals.rs:689-715 | a rejection leaves the candidate rejected, the request rejected with the words of the approver or the default, and all else unchanged |
| `Responses.DeferralLeaves` | crates/context-runtime/src/skill_approvals.rs:717-743 | a deferral leaves the candidate deferred and the request deferred likewise, and all else unchanged |
| `Responses.ApprovalLeaves` | crates/context-runtime/src/skill_approvals.rs:659-688 | an approval leaves the candidate live, the request approved, its content the next version of its skill, and all else unchanged |
| `Responses.ModificationLeaves` | crates/context-runtime/src/skill_approvals.rs:745-911 | a modification leaves the fork, field by field, and the request superseded; a valid fork has a pending request of its own and its parent is superseded |
| `Responses.AskingLeaves` | crates/context-runtime/src/skill_approvals.rs:335-494 | asking adds one pending request for thirty days, field by field, exactly when the candidate is validated and in reach and none for it can still be answered |
| `Responses.ReachedFrom` | crates/context-runtime/src/skills.rs:207-236 | the table of moves read backwards: from which stages each stage is reached |
| `Fingerprint.ResolveContext` | crates/context-runtime/src/fingerprint.rs:164-222 | winners, intents and notes are exactly the right records, sorted; suppressed ids are exactly the losers'; malformed intents are counted |
| `Fingerprint.FieldsDecide` | crates/context-runtime/src/fingerprint.rs:119-222 | on the fields: which records are in view, in which lane, which of a kind and namespace wins by authority, scope, confidence, time and id, and the order of every list |
| `Records.AuthorityLadder` | crates/context-runtime/src/types.rs:338-347 | the order of authorities, from the user's word down to what was inferred |
| `Fingerprint.SortIntoLanes` | crates/context-runtime/src/fingerprint.rs:170-199 | each applicable record goes to its lane; each group holds exactly its contenders |
| `Fingerprint.Contest` | crates/context-runtime/src/fingerprint.rs:201-210 | each group gives its strongest record and suppresses the others |
| `Fingerprint.ResolutionIsOrderFree` | crates/context-runtime/src/fingerprint.rs:164-222 | for distinct ids any arrival order gives the same result |
| `Fingerprint.ResolutionConserves` | crates/context-runtime/src/fingerprint.rs:164-222 | every applicable record is exactly one of winner, suppressed, intent, note, malformed, or retired intent |
| `Fingerprint.OneWinnerPerNamespace` | crates/context-runtime/src/fingerprint.rs:119-138 | each kind and namespace in view has exactly one winner; nothing there has more authority, and nothing of equal authority is more specific |
| `Fingerprint.StrongerIsTotal` | crates/context-runtime/src/fingerprint.rs:119-138 | the comparators are strict total orders on records of distinct ids |
| `Recall.GroupHits` | crates/context-runtime/src/recall.rs:352-445 | the grouping loop yields one group per session in first-hit order with exactly the shown hits and the count of the session's hits among those scanned; no group is empty; truncated iff fewer hits are shown than matched |
| `Recall.ShownGreedily` | crates/context-runtime/src/recall.rs:359-441 | a hit is shown iff fewer than the limit are shown before it and fewer than three of its session |
| `Recall.AtMostThree` | crates/context-runtime/src/recall.rs:409-413 | no session shows more than three hits |
| `Recall.Recall` | crates/context-runtime/src/recall.rs:337-450 | ranks the matches on the fields: lower score, then the task at hand, importance, time and id; groups them within the limit of ten, or the one asked for up to fifty; no hit is shown while one of its session with a lower score is not; the total counts all matches |
| `Recall.EarlierIsShown` | crates/context-runtime/src/recall.rs:359-441 | a session shows its best hits: none is shown while an earlier one of the session is not |
| `Recall.RecallIsOrderFree` | crates/context-runtime/src/recall.rs:339-357 | the groups depend on the set of matches, not on the order they came in |
| `Recall.BetterIsTotal` | crates/context-runtime/src/recall.rs:339-357 | the ranking is a strict total order on hits of distinct ids |

## Left out

- SQLite, full-text scoring, JSON, files and network: tables are maps, scores and disk checks are given.
- Skill tables of a bundle and their published files: the import is modelled for sessions, events and records; skill rows only contribute their workspace roots.
- Report counters and warnings of the import and of the detectors: bookkeeping about the steps that are modelled.
- Parsing and hashing of bundle files, and the export side: the bundle is given as parsed rows; export then import is not a round trip, because history text is truncated past the bounds that import enforces.
- Text services are fixed functions between an interrupted run and its repetition: a path that starts or stops resolving in between is not modelled.
- Convergence.CrashConverges: bundles carry each record id once, as an export of a table with that primary key does; `StaleDuplicateDiverges` shows why.
- SkillReuse.DetectReuse: is stated for sessions whose runs have different joined keys, which `PlainNamesAreDistinct` gives for tool names without '>'; `MinerRefinesBruteForce` says what a shared key breaks.
- LearningStore.LearningStore.EvaluateCandidate: starts from tables with at most one active inference per slot, which every run keeps (`RunKeepsOnePerSlot`); with two, the order of the search would decide.
- Fingerprint.ResolveContext: records come with distinct ids, as rows of a table keyed by id do.
- Recall.Recall: matches come with distinct ids, as rows of a table keyed by id do.
- The detectors' fetch windows (the oldest 500 rows) and recall's candidate window: their claims are over the fetched rows.
- Tables of event kinds, outcomes and tool-name normalization: an event comes with its kind group, polarity and tool.
- The separate workflow-cycle detector of the learning module, proposition texts, names and namespaces: strings without further laws.
- The search behind the active-inference lookup is taken as complete; it reads at most fifty rows.
- Records written by other operations than learning: the learning invariant is about the inferences learning writes.
- Evolution's weakness classification and signal extraction: the recurring-signal test is a parameter of the gates.
- Approval questions, options and reason texts other than the recorded modification: display only.
- Releases.RaceReleasesOnceIff: other writers of candidates and skills act in whole steps that follow the lifecycle, delete no candidate and never lower a version; their own reads and writes are not taken apart.
- Skill versions, rollback, deprecation and file recovery: only the live version number and content of a skill are kept; the name-conflict and file checks are one given outcome.
- Recall's scope and kind filters, excerpts, titles and staleness flags: filters of single rows and display.
- Not-a-number scores in the two comparators: scores are reals, so the orders are total.
- Decay of confidence, skill selection, intents, repository index, migrations and cancellation: single-row updates, floating-point scoring or schema work.
