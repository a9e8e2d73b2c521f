# RSI: a verified model of its recorded state

This project models, in Dafny, the parts of the repository that must hold over whole runs, and proves that they do.

1. **Recorded attention** (`Attention*.dfy`, `Assessor.dfy`, `Tables.dfy`). Each assessment reads one bundle of recorded
   sources and the facts folded from all earlier bundles. It names every collection `review`, `watch` or `rejected`, and
   emits the next facts. The facts stay within their dense schema; bindings and first-seen times mean what happened first;
   sanitized bundles are never refused for anything but retention; decisions change only at the boundaries of the sources.
   `AttentionLoops.dfy` holds the passes as the loops they are, over arrays and growing maps; `AttentionStored.dfy` says on the
   inputs alone when a stored bundle is assessed. `AttentionMeaning.dfy`, `AttentionRowMeaning.dfy`, `AttentionAssessment.dfy`
   and `AttentionNext.dfy` say, again on the inputs alone, what the assessment then is, down to every field of every row, and
   what collections are retained.
2. **Attention history** (`AttentionLog.dfy`, `AttentionHistory.dfy`, `AttentionCompleteness.dfy`). An event log with previews,
   time-limited leases, exactly-once commits and a replay cache, as objects: one shared `EventStore`, several
   `RecordedAttentionHistory` handles. What is previewed can be recorded.
3. **Alert outbox** (`Outbox*.dfy`, `AlertOutbox.dfy`). A durable queue with at most two attempts, crash recovery,
   idempotent acknowledgements, an audit chain and its integrity checker. `AlertOutbox.dfy` is the object whose tables
   change in place; `OutboxIntegrity.dfy` is the checker as its loops; `OutboxDetermined.dfy`, `OutboxToldChain.dfy` and
   `OutboxExact.dfy` say exactly what the checker leaves open, `OutboxSamples.dfy` shows it. `OutboxAnswers.dfy` says what
   every operation answers, and when.
4. **Canonical JSON, the backup archive and the checkpoint journal** (`CanonicalJson*.dfy`, `JsonReader*.dfy`,
   `JsonRecords.dfy`, `Archive*.dfy`, `CheckpointJournal.dfy`, `JournalText.dfy`, `JournalMeaning.dfy`). A framed printer and
   parser over an injective serializer, and a hash-linked journal. `JsonReader.dfy` reads JSON text as RFC 8259 defines it and
   finds in canonical text the value that was printed; `ArchiveLayout.dfy` says what an archive is, byte for byte.
5. **The one-shot canary host** (`Canary*.dfy`). Runs, recoveries and status reads that interleave at every `await`; startup
   and shutdown around them; and any number of processes that share one profile lock and one permanent claim.
   `CanaryRecovery.dfy` says when an interrupted canary is recovered, `CanaryOutcomes.dfy` how every promise settles, and
   `CanaryRelease.dfy` when the lock may go.

`Order.dfy`, `Hex.dfy` and `Wrappers.dfy` hold what several of these share.

Throughout, SHA-256, HMAC, signatures and encryption are ideal: either an injective constructor of a datatype, or a function
parameter. A SQLite exclusive transaction is one atomic step. Time is an integer of milliseconds in the attention and outbox
modules, and text in the archive and the journal, where the form of the text matters. Clocks, identifiers and the answers of hosts outside the repository are inputs.

`dafny verify dfyconfig.toml` checks the whole project.

## Where the code does not do what it seems to promise

- **Archive re-encoding.** The decoder's text decoder drops a leading byte-order mark before it compares canonical text, so
  an accepted archive is not always the re-encoding of what it decodes to. `ArchiveProofs.ReEncoding` says exactly when it is,
  `ArchiveSample.NotEveryArchiveIsItsReEncoding` gives one that is not. `verifyArchiveBytes` compares the digest of all bytes
  with the retained receipt before it decodes, which closes the gap for callers that go through it.
- **Assessment totality.** The schema of sanitized posts admits any reason of the vocabulary, but a row with an identity
  reason that the resolved-conflict list lacks fails its own schema. `AttentionStored.StoredTotality` says exactly when a
  bundle is assessed: when, beside the retention cap, no post claims of a collection a reason only an unresolved candidate can
  have unless an identity conflict stands beside it, and none claims that the collection left the window or expired unless a
  hard reason stands beside it. `AttentionStored.UnsanitizedIsRefused` gives a bundle that is refused. The repository's own
  sanitizer never makes such a post, and then nothing but the retention cap refuses (`AttentionStored.SanitizedTotality`).
- **Integrity of the outbox.** The checker accepts more than the tables that hold what their audit chain tells.
  `OutboxExact.AcceptedIsTold` gives the exact difference, for all tables. First, it compares a delivery's update time with its
  attempts only when there are some, so the update time of a delivery never attempted is free (`OutboxExact.UpdateTimeIsForgotten`).
  Second, it never asks that an event may follow the events before it: it looks at the state of the latest attempt, and counts
  events without their order. So it accepts a second attempt that began before the first had ended
  (`OutboxSamples.OverlapIsAccepted`) and a delivery that was claimed and delivered again after it had been delivered
  (`OutboxSamples.TwiceIsAccepted`). The theorem's condition on the chain, `OutboxToldChain.ToldChain`, shuts out these and all
  their kind. No run of the outbox writes such a chain (`OutboxExact.AcceptedUnderRun`), and only a holder of the keys can sign its
  rows and seal the tables.

## Model

| member | source | states |
|---|---|---|
| AttentionAdvance.NextFactsOk | packages/attention/src/schemas.ts:683-832 | fact closure: from facts that satisfy the schema and any admissible bundle, the next facts satisfy every refinement (unique sorted tables, 64-digit hashes, cross-references, conflict chains); only the bound on retained facts can still refuse them |
| AttentionAdvance.NextFactsExclusive | packages/attention/src/assess.ts:802-831 | known collections stay pairwise contract-disjoint and the latest window has distinct slugs, which the schema never checks |
| AttentionAdvance.AssociationOrdersAgree | packages/attention/src/assess.ts:769-898 | sorting slug associations by slug and then collection puts their joined keys in string order |
| AttentionAdvance.UsableApart | packages/attention/src/assess.ts:261-288 | two usable candidates of one bundle share no base-chain address, no collection and no slug |
| AttentionAdvance.AssessedKeeps | packages/attention/src/assess.ts:143-185 | after all passes every state is still its candidate's, and carries the reasons of the identity and marketplace passes |
| AttentionClosure.AdmitAllKeeps | packages/attention/src/assess.ts:833-870 | admitting the posts of one window, one by one, keeps the retained facts valid, rebinds nothing and redates nothing |
| AttentionClosure.NewConflictReaches | packages/attention/src/assess.ts:833-870 | a newly conflicting cluster reaches an ordinary cluster through the one its witness post is bound to |
| AttentionFacts.ConflictChainReachesOrdinaryCluster | packages/attention/src/schemas.ts:997-1027 | the loop terminates and is true exactly when a repeat-free witness path with non-increasing first-seen times leads to an ordinary cluster |
| AttentionHistoryRefinement.FoldIsFaithful | packages/attention/src/assess.ts:833-870 | after any history of bundles, a post's binding is its cluster in the first admitted window that holds it, a cluster's first-seen time is that of the first admitted window that holds it, admitted windows never go back in time, the retained latest time is that of the last one, and the facts satisfy their schema |
| AttentionHistoryRefinement.FirstBindingIsFirst | packages/attention/src/assess.ts:406-411 | the binding named by a history is that of the first window containing the post, and no earlier window contains it |
| AttentionHistoryRefinement.FirstSightIsFirst | packages/attention/src/assess.ts:833-870 | the time named by a history is that of the first window containing the cluster |
| AttentionHistoryRefinement.NothingIsRefreshed | packages/attention/src/assess.ts:833-870 | however the history goes on, no copy rebinds a post or refreshes a first-seen time |
| AttentionStored.AssessmentFits | packages/attention/src/schemas.ts:617-659 | an assessment passes its schema if and only if the posts of its bundle fit the collections they mention: for each resolved candidate (the last one of its collection) a post that mentions it claims a candidate-only reason only beside an identity conflict of the candidate or of some mentioning post, and claims that it left the window or expired only beside a hard reason, each told by the bundle, the facts and the time |
| AttentionStored.AdmissibleIs | packages/attention/src/assess.ts:606-686 | the state a candidate ends up in is admissible to the row schema if and only if the posts that mention it fit it, a condition on the inputs |
| AttentionStored.SanitizedTotality | packages/attention/src/assess.ts:122-259 | for every bundle with sanitized posts and all valid facts, the assessment passes its schema, and the call is refused if and only if the facts retain too much |
| AttentionStored.StoredTotality | packages/attention/src/assess.ts:109-120 | for any stored bundle and all valid facts: assessed if and only if its posts fit the collections they mention, as above, and the next facts do not retain too much |
| AttentionStored.UnsanitizedIsRefused | packages/attention/src/schemas.ts:247-253 | a concrete bundle that its schema admits, identifiers of 64 hexadecimal digits included, with one post no sanitizer makes, is refused: totality needs sanitized posts |
| AttentionTotality.ObservedRowFits | packages/attention/src/assess.ts:606-686 | an observed row passes its schema if and only if its state is admissible |
| AttentionTotality.DepartureRowFits | packages/attention/src/assess.ts:688-739 | every departure row passes its schema |
| AttentionTotality.AllIdsDiffer | packages/attention/src/schemas.ts:631-657 | the rows of an assessment have distinct identifiers and are at most twenty |
| AttentionReview.ReviewIsBacked | packages/attention/src/assess.ts:606-686 | a candidate is put up for review only if it is a resolved collection without identity conflict in a current window, with a clean, current post bound to it alone, and its priority is its score, at least 36: the rank, the ranks climbed since a retained window that had not run out, and the clusters that count |
| AttentionMeaning.ReasonsAreExact | packages/attention/src/assess.ts:261-538 | a candidate carries a hard reason if and only if the inputs speak it: its own contracts, the other candidates, the retained facts and times, or a post that mentions it, each told for each reason |
| AttentionMeaning.CautionsAreExact | packages/attention/src/assess.ts:290-538 | and a caution if and only if the inputs call for it: a moved slug, an absent window, no post, no cluster that counts, or what a post warns of |
| AttentionMeaning.NotesAreExact | packages/attention/src/assess.ts:143-538 | and a note exactly where it is due |
| AttentionMeaning.ClustersAreExact | packages/attention/src/assess.ts:342-538 | the clusters seen are those of posts that mention this collection and nothing else; those that count are clean, in order of time, and first seen less than two hours ago |
| AttentionMeaning.ExpiriesAreExact | packages/attention/src/assess.ts:342-538 | each counting cluster runs out two hours after it was first seen in any window |
| AttentionRowMeaning.ComparisonIsExact | packages/attention/src/assess.ts:741-767 | a row is compared if and only if its collection is resolved, the retained window lists it, and that window is older than the new one and had not run out when the new one was acquired; then with the rank listed there; otherwise for exactly the reason stated |
| AttentionRowMeaning.ScoreIsExact | packages/attention/src/assess.ts:618-634 | the score in numbers: 44 less four a rank, two for each rank climbed up to ten, five for each of at most two clusters that count |
| AttentionRowMeaning.OutcomeIsExact | packages/attention/src/assess.ts:635-647 | rejected exactly if something speaks against the candidate, for all that does; watched exactly if something calls for caution or the score is under 36; otherwise up for review with its score |
| AttentionRowMeaning.RowIsExact | packages/attention/src/assess.ts:606-686 | every field of every candidate's row is what the bundle, the facts and the time say: identifier, subject, presence, comparison, score, outcome, next action, expiry, missing checks, notes and evidence |
| AttentionAssessment.RowsAreExact | packages/attention/src/assess.ts:201-229 | the rows are exactly one for each candidate and one for each collection of the retained window that a current window no longer lists, with distinct identifiers, in the order of outcome, priority, rank and identifier |
| AttentionAssessment.DepartureIsExact | packages/attention/src/assess.ts:688-739 | every field of the row of a collection that left |
| AttentionAssessment.PrecedesIs | packages/attention/src/assess.ts:951-970 | the row order, rows of a schema's shape compared: reviews, watched, rejected; by priority and rank, rejected ones by their first reason; then by identifier |
| AttentionAssessment.DiagnosticsAreExact | packages/attention/src/assess.ts:230-255 | the diagnostics are the first ten, by kind and identifier, of exactly these: posts that mention no collection of the window, hostile or not, and an invalid or old base head |
| AttentionAssessment.AssessmentIsExact | packages/attention/src/assess.ts:122-259 | the whole assessment, summaries included, is what the bundle, the facts and the time say |
| AttentionNext.CollectionsAreExact | packages/attention/src/assess.ts:802-831 | a current window leaves as retained window one row, by rank, for each candidate with an identity not in doubt, as known collections these under their slugs and every other one as it was, and as slugs all earlier ones and these; any other window changes none of them |
| AttentionTime.DecisionsAreConstant | packages/attention/src/history-schemas.ts:293-308 | two evaluation times on the same side of every acquisition and expiry give the same decision, next facts included |
| AttentionTime.RefusalsAreConstant | packages/attention/src/assess.ts:122-259 | and a bundle is assessed at both such times or at neither |
| AttentionTime.RowsExpireAtBoundaries | packages/attention/src/assess.ts:606-739 | two such times lie on the same side of every row's expiry |
| AttentionIds.CandidateIdInjective | packages/attention/src/identity.ts:31-72 | a candidate identifier stands for one slug and one contract list |
| AttentionIds.CollectionIdInjective | packages/attention/src/identity.ts:31-72 | a collection identifier stands for one address list |
| AttentionIds.CandidateIsNotCollection | packages/attention/src/identity.ts:31-72 | candidate and collection identifiers never coincide |
| AttentionDigests.BundleIdInjective | packages/attention/src/sanitize.ts:65-80 | a bundle identifier stands for one bundle |
| AttentionDigests.RefreshIdInjective | packages/attention/src/assess.ts:129-130 | a refresh identifier stands for one bundle identifier |
| AttentionDigests.RankEvidenceInjective | packages/attention/src/assess.ts:136-141 | rank evidence stands for one window of one bundle |
| AttentionDigests.SocialEvidenceInjective | packages/attention/src/assess.ts:437-452 | social evidence stands for one post of one bundle as it was read: its digests, times, matched collections, reasons and cautions |
| AttentionIds.OrderedIsOrdered | packages/attention/src/assess.ts:984-987 | listing reasons in vocabulary order yields what the order check of the schema accepts |
| AttentionLoops.ApplyCurrentIdentityConflicts | packages/attention/src/assess.ts:261-288 | the loops over address and slug owners add to each state exactly the conflicts it has with the others |
| AttentionLoops.ApplyHistoricalIdentityFacts | packages/attention/src/assess.ts:290-321 | the loop adds exactly the continuity conflicts with the known collections and slugs |
| AttentionLoops.MarkConflicts | packages/attention/src/assess.ts:261-288 | every owner of a conflicting key is marked, and nobody else |
| AttentionLoops.Overlap | packages/attention/src/identity.ts:74-80 | true exactly when the two collections share an address |
| AttentionLoops.MatchPost | packages/attention/src/assess.ts:342-538 | the collections a post mentions, and whether it mentions an address nobody owns |
| AttentionLoops.AnalyzeSocial | packages/attention/src/assess.ts:342-538 | the nested loops over posts and states leave every state as the specification of the social pass says, and return the diagnostics of the unbound posts and the summary with its usable clusters and earliest expiry |
| AttentionLoops.AdvanceFacts | packages/attention/src/assess.ts:769-898 | the loops over usable states and admitted posts build exactly the next facts |
| Tables.TableOfIndex | packages/attention/src/schemas.ts:979-981 | a list sorted by key is the sorted listing of the map built from it |
| Tables.IndexOfTable | packages/attention/src/assess.ts:769-898 | the map built from a sorted listing is the map that was listed |
| AttentionLog.HeadDetermines | packages/attention/src/history.ts:246-259 | two hash chains with the same head are the same log |
| AttentionLog.AppendReplays | packages/attention/src/history.ts:147-220 | an event that passes replay's checks extends an accepted log to an accepted log |
| AttentionLog.EveryBatchOnce | packages/attention/src/history.ts:147-220 | in an accepted log every refresh, authorization and receipt occurs once, authorizations are in sequence, and evaluation times never precede the previous checkpoint |
| AttentionLog.FactsAreFolded | packages/attention/src/history.ts:137-139 | the stored facts are the assessor folded over the stored bundles |
| AttentionLog.LogIsFaithful | packages/attention/src/history.ts:147-220 | whatever an accepted log holds, its facts have first-binding and first-sight meaning over its bundles |
| AttentionHistory.RememberedIsCurrent | packages/attention/src/history.ts:763-776 | a remembered replay with the store's genesis and head is the full replay of the store |
| AttentionHistory.NeverReclassified | packages/attention/src/history.ts:563-569 | when no boundary of the bundle lies between the preview and the checkpoint, the final assessment exists and decides as previewed, so a commit is never refused as reclassified |
| AttentionHistory.BuiltShows | packages/attention/src/history.ts:281-332 | a preview is computed if and only if there is room in the log, the clock has not gone back, the deadline is a time, the revision is positive and the bundle is assessed; it shows the history and head of the log, the process, revision and time of the context, a deadline 30 seconds later, and the assessor's assessment and decision |
| AttentionHistory.RecomputesIs | packages/attention/src/history.ts:502-530 | computed again, a preview is the expected one if and only if every field of the binding still is what a preview of this bundle on this log would show |
| AttentionHistory.AcceptableIff | packages/attention/src/history.ts:531-589 | the payload of a pending command passes every check, its schema included, if and only if the receipt is for this preview, new and later than the last one, the deadline is ahead, and the decision is still the one previewed |
| AttentionCompleteness.IdentityIsNeverReused | packages/attention/src/history.ts:269-279 | on a replayed log a bundle is found if and only if it is recorded, and the refusal for a reused identity never strikes |
| AttentionCompleteness.PreviewBegins | packages/attention/src/history.ts:502-530 | an authorized command for a preview whose lease still runs, on an unchanged store, gets past every first check |
| AttentionCompleteness.PendingCommits | packages/attention/src/history.ts:531-589 | a pending command commits when its receipt fits, its lease runs at both readings, and no boundary of the bundle lies between the preview and a checkpoint before the deadline |
| AttentionCompleteness.RecordUndisturbed | packages/attention/src/history.ts:469-596 | preview, authorize, record: where a new bundle can be previewed and nothing else touches the store, the log gets exactly one record, of what was previewed, and the result is returned if and only if the receipts are vouched for |
| AttentionHistory.CommittedReplays | packages/attention/src/history.ts:531-589 | a commit's event extends the log to one that replays and ends with it |
| AttentionHistory.EveryWrittenLogReplays | packages/attention/src/history.ts:502-596 | from an accepted log, whatever commits of any handles are attempted, the log stays accepted and only grows |
| AttentionHistory.RecordedOnce | packages/attention/src/history.ts:269-279 | once a refresh is in the log no attempt with its binding appends anything |
| AttentionHistory.BindingAppendsOnce | packages/attention/src/history.ts:502-596 | over any run of commit attempts by any handles a binding, and so the lease taken for it, leads to at most one append |
| AttentionHistory.EventStore.Append | packages/attention/src/history.ts:577-584 | the shared store grows by one chained event |
| AttentionHistory.RecordedAttentionHistory.Open | packages/attention/src/history.ts:433-461 | an empty store gets its genesis event, any other is left alone, and a history opens if and only if the store replays and the runtime vouches for its receipts; a store that does not replay is refused with the error of the replay |
| AttentionHistory.RecordedAttentionHistory.InitializeEmptyHistory | packages/attention/src/history.ts:334-352 | only an empty store gets a genesis event, and then it replays to no records |
| AttentionHistory.RecordedAttentionHistory.ReplayStore | packages/attention/src/history.ts:147-220 | the loop over the events computes the replay |
| AttentionHistory.RecordedAttentionHistory.ReplayUnderLock | packages/attention/src/history.ts:763-776 | cached or not, the answer is the full replay of the store as it is |
| AttentionHistory.RecordedAttentionHistory.VerifiedReplay | packages/attention/src/history.ts:723-738 | as above, refused when the runtime does not vouch for the stored receipts |
| AttentionHistory.RecordedAttentionHistory.ReserveLeaseWindow | packages/attention/src/history.ts:673-684 | expired leases go, and a table of 1,000 live leases refuses another |
| AttentionHistory.RecordedAttentionHistory.AssertLiveLease | packages/attention/src/history.ts:686-700 | a lease passes only before its window ends and for the binding it was taken for; one past its window is dropped |
| AttentionHistory.RecordedAttentionHistory.ReadMonotonicClock | packages/attention/src/history.ts:702-711 | a clock that goes back is refused |
| AttentionHistory.RecordedAttentionHistory.Preview | packages/attention/src/history.ts:469-500 | exactly when a preview is answered (open handle, verified store, a bundle recorded already or one that can be previewed in this process with a lease free); a recorded bundle is answered from the log; otherwise the preview shows the log, the context and the assessor's answer, field by field, and one lease of 30 seconds is added |
| AttentionHistory.RecordedAttentionHistory.Begin | packages/attention/src/history.ts:502-530 | exactly when a command gets past its first checks; a repeat returns the stored result and appends nothing; otherwise every field of the binding still stands, the authorization matches and the lease is alive before a commit is pending |
| AttentionHistory.RecordedAttentionHistory.Commit | packages/attention/src/history.ts:531-589 | exactly when a pending command commits: open handle, unchanged log, a lease alive at both readings, a new receipt for this preview, and a checkpoint before the deadline with the same decision; then one event is appended and the log stays accepted; a refusal changes nothing in the store |
| AttentionHistory.RecordedAttentionHistory.Finish | packages/attention/src/history.ts:590-595 | the lease is gone, and the result is returned exactly if the store verifies and the log ends with it |
| AttentionHistory.RecordedAttentionHistory.Close | packages/attention/src/history.ts:640-671 | a closed handle holds no lease |
| OutboxTheorems.CheckerAcceptsEveryRun | packages/alerts/src/alert-outbox.ts:853-873 | from an empty database, every run of enqueue, claim, complete, fail and recover leaves tables the integrity check accepts, and no operation is ever answered with an integrity error |
| OutboxTheorems.TransactStep | packages/alerts/src/alert-outbox.ts:853-873 | a transaction keeps the invariant, forgets nothing, and its answer is the operation's own |
| OutboxTheorems.AuditTellsTheRows | packages/alerts/src/alert-outbox.ts:1069-1122 | the audit chain alone tells every delivery's and attempt's times and states; it has one event for each delivery, attempt and finished attempt; no delivery has more than five events or two attempts |
| OutboxTheorems.CompletionIsIdempotent | packages/alerts/src/alert-outbox.ts:515-569 | repeating an accepted completion, whatever happened since, returns the first receipt and changes nothing |
| OutboxTheorems.FailureIsIdempotent | packages/alerts/src/alert-outbox.ts:571-622 | repeating an accepted failure, even after a later attempt, returns the first receipt and changes nothing |
| OutboxTheorems.RecoveredStaysClosed | packages/alerts/src/alert-outbox.ts:624-680 | an attempt that recovery closed can never be completed or failed |
| OutboxTheorems.ClaimHandsOutWhatWasQueued | packages/alerts/src/alert-outbox.ts:422-513 | a claim hands out the alert that was queued |
| OutboxTheorems.AttemptsAreClaimedOnce | packages/alerts/src/alert-outbox.ts:422-513 | no attempt is handed out twice |
| OutboxTheorems.HeadsPinPrefixes | packages/alerts/src/alert-outbox.ts:1018-1049 | a head taken at one state is accepted at another if and only if the audit chain it pins is a prefix there |
| OutboxTheorems.RunsKeepTheirHeads | packages/alerts/src/alert-outbox.ts:1003-1049 | a head taken in a run is accepted ever after |
| OutboxSoundness.InvAccepted | packages/alerts/src/alert-outbox.ts:1540-1791 | the integrity check has no errors on tables that hold what the audit chain tells |
| OutboxDetermined.ChainDeterminesAccepted | packages/alerts/src/alert-outbox.ts:1540-1791 | the converse: under a chain the check has accepted it accepts exactly the tables whose rows and seals are authentic one by one and that tell the same deliveries and attempts, in the same states, at the same times; only the sealed texts and the update time of a delivery never attempted are left open |
| OutboxExact.AcceptedIsTold | packages/alerts/src/alert-outbox.ts:1540-1791 | for all tables: they hold exactly what their audit chain tells if and only if the check accepts them, every event of the chain continues the life its delivery has had so far, and a delivery never attempted has its queue time as its update time |
| OutboxExact.AcceptedUnderRun | packages/alerts/src/alert-outbox.ts:1540-1791 | every chain that a run writes is told, so under it the update time of a delivery never attempted is all that the check forgets |
| OutboxExact.UpdateTimeIsForgotten | packages/alerts/src/alert-outbox.ts:1660-1668 | a delivery queued and never attempted can be given any later update time: the check accepts the tables, though no run leaves them behind |
| OutboxSamples.OverlapIsAccepted | packages/alerts/src/alert-outbox.ts:1626-1661 | concrete tables in which a second attempt was claimed while the first still ran: the check accepts them, their chain is not told, and no run leaves them behind |
| OutboxSamples.TwiceIsAccepted | packages/alerts/src/alert-outbox.ts:1626-1661 | concrete tables of a delivery claimed and delivered again after it was delivered, with nothing overlapping: accepted, not told, and never left behind by a run |
| OutboxToldChain.ToldChainIs | packages/alerts/src/alert-outbox.ts:1069-1122 | a chain is told, event by event, if and only if it is the trails of legal lives, and those are the lives it tells |
| OutboxToldChain.ToldCount | packages/alerts/src/alert-outbox.ts:1734-1782 | a told chain has exactly one event for each delivery, each attempt and each ended attempt |
| OutboxSoundness.FinishedOnce | packages/alerts/src/alert-outbox.ts:1734-1782 | a finished attempt has exactly one terminal event in its delivery's trail |
| OutboxRecovery.RecoverStep | packages/alerts/src/alert-outbox.ts:624-680 | recovery closes every running attempt and touches nothing else; a delivery on its first attempt is pending again and counted as ready to retry, one on its second is exhausted and counted as exhausted |
| OutboxRecovery.FirstPendingExists | packages/alerts/src/alert-outbox.ts:422-470 | the claim query finds a delivery exactly when one is pending on the plane, and it is the first in queue order |
| OutboxRuns.EnqueueStep | packages/alerts/src/alert-outbox.ts:324-420 | enqueueing moves a consistent outbox to a consistent one; a repeat with the same alert answers the stored row |
| OutboxRuns.ClaimStep | packages/alerts/src/alert-outbox.ts:422-513 | claiming a pending delivery moves a consistent outbox, with at most two attempts a delivery, to a consistent one, and is refused for nothing but its time |
| OutboxRuns.CompleteStep | packages/alerts/src/alert-outbox.ts:515-569 | completing ends the running attempt as delivered, or answers the closed one it repeats |
| OutboxRuns.FailStep | packages/alerts/src/alert-outbox.ts:571-622 | failing ends the running attempt as failed, and the delivery as pending or exhausted |
| OutboxAnswers.EnqueueAnswers | packages/alerts/src/alert-outbox.ts:324-420 | from a consistent outbox: a first enqueue succeeds exactly if its profile fits and its time is in turn, and adds one pending row; a repeat answers the stored row exactly if alert and queue time are the same, and otherwise conflicts |
| OutboxAnswers.EnqueueIsIdempotent | packages/alerts/src/alert-outbox.ts:337-353 | after an accepted enqueue and any run of operations, the same enqueue is answered with a receipt of what the audit chain tells at that moment and changes nothing, and any other under the same identity is a conflict |
| OutboxAnswers.ClaimAnswers | packages/alerts/src/alert-outbox.ts:422-513 | exactly when a claim hands something out, and what: the first pending delivery, its alert, its next attempt |
| OutboxAnswers.CompleteAnswers | packages/alerts/src/alert-outbox.ts:515-569 | exactly when a completion is accepted, repeated or refused, and what it leaves |
| OutboxAnswers.FailAnswers | packages/alerts/src/alert-outbox.ts:571-622 | exactly when a failure is accepted, repeated or refused, and what it leaves |
| OutboxAnswers.RecoverAnswers | packages/alerts/src/alert-outbox.ts:624-680 | recovery goes through exactly if nothing is in flight, or its time is in turn and no earlier than the last update of anything in flight; then every delivery in flight is left as after a crash, no other is touched, and the two counts are right |
| OutboxIntegrity.VerifyIntegrityInternal | packages/alerts/src/alert-outbox.ts:1540-1791 | the checker's loops, with their running hash, time and maps, report no error if and only if the tables are acceptable |
| OutboxIntegrity.CheckAudit | packages/alerts/src/alert-outbox.ts:1654-1733 | the walk over the audit rows counts no error exactly when every row is chained, dated and shaped |
| OutboxIntegrity.CheckCoverage | packages/alerts/src/alert-outbox.ts:1734-1782 | rows and audit events of a delivery account for each other |
| AlertOutboxObject.AlertOutbox.Enqueue | packages/alerts/src/alert-outbox.ts:324-420 | the object's tables change exactly as the transaction of this operation says (a new alert is queued once), the invariant is kept and no integrity error is reported |
| AlertOutboxObject.AlertOutbox.Claim | packages/alerts/src/alert-outbox.ts:422-513 | the object's tables change exactly as the transaction of this operation says (the first pending delivery starts its next attempt), the invariant is kept and no integrity error is reported |
| AlertOutboxObject.AlertOutbox.Complete | packages/alerts/src/alert-outbox.ts:515-569 | the object's tables change exactly as the transaction of this operation says (the running attempt is delivered), the invariant is kept and no integrity error is reported |
| AlertOutboxObject.AlertOutbox.Fail | packages/alerts/src/alert-outbox.ts:571-622 | the object's tables change exactly as the transaction of this operation says (the running attempt fails), the invariant is kept and no integrity error is reported |
| AlertOutboxObject.AlertOutbox.Recover | packages/alerts/src/alert-outbox.ts:624-680 | the object's tables change exactly as the transaction of this operation says (every running attempt is closed), the invariant is kept and no integrity error is reported |
| AlertOutboxObject.AlertOutbox.AppendAuditRow | packages/alerts/src/alert-outbox.ts:1069-1122 | one audit row is appended, chained to the head, unless time would go backward |
| AlertOutboxObject.AlertOutbox.SealState | packages/alerts/src/alert-outbox.ts:956-1001 | the metadata row is sealed over the tables as they are |
| AlertOutboxObject.AlertOutbox.AssertTrustedHeadPrefix | packages/alerts/src/alert-outbox.ts:1018-1049 | the loop accepts exactly the heads that name a row of the chain |
| AlertOutboxObject.AlertOutbox.constructor | packages/alerts/src/alert-outbox.ts:822-890 | a new outbox is empty, sealed and accepted |
| CanonicalJsonProofs.CanonicalInjective | packages/backup/src/canonical.ts:23-69 | values that differ only in field order are accepted or refused alike and print alike; accepted values that print alike differ in nothing else |
| CanonicalJsonProofs.PrintInjective | packages/backup/src/canonical.ts:27-69 | two printed texts are equal if and only if the values are the same up to field order |
| JsonReaderProofs.CanonicalIsRead | packages/backup/src/canonical.ts:23-69 | a JSON reader written apart from the printer (decimal place value, the three literals, the escapes of section 7 of RFC 8259, arrays and objects) reads the canonical text of every serializable value to its end, and finds that value with the names of every object increasing |
| JsonReaderProofs.EscapeIsShortest | packages/backup/src/canonical.ts:30-31 | every character is written in the shortest form the reader reads as it |
| JsonReaderProofs.ReaderParses | packages/backup/src/canonical.ts:23-69 | what the reader finds is proper, and canonical text is read to a value with the same canonical text |
| ArchiveProofs.ReaderIsJsonParser | packages/backup/src/schema.ts:328-348 | the reader is a parser as the archive and the journal need one, so their theorems hold of it |
| CanonicalJsonProofs.SerializesIff | packages/backup/src/canonical.ts:23-69 | a value has a canonical text if and only if nothing in it is nested deeper than twenty and every number in it is a safe integer |
| CanonicalJsonProofs.QuotedPrefix | packages/backup/src/canonical.ts:30-31 | quoted strings are self-delimiting |
| JsonRecords.ExactSame | packages/backup/src/canonical.ts:71-106 | an object that is the expected record up to field order is copied to that record's values |
| JsonRecords.ExactMeans | packages/backup/src/canonical.ts:71-106 | an accepted object loses nothing in the copy |
| ArchiveProofs.DecodeIs | packages/backup/src/archive.ts:415-454 | an archive is accepted if and only if it frames a valid envelope, plain or with a byte-order mark, with artifacts of the stated sizes and digests and nothing behind them |
| ArchiveProofs.RoundTrip | packages/backup/src/archive.ts:175-295 | decoding an encoded archive returns the same envelope and the same seven artifacts |
| ArchiveProofs.ReEncoding | packages/backup/src/archive.ts:415-454 | an accepted archive is the re-encoding of what it decodes to if and only if its envelope has no byte-order mark |
| ArchiveProofs.MarkedArchive | packages/backup/src/schema.ts:328-348 | every encoded archive has a second, longer form that decodes to the same |
| ArchiveSample.NotEveryArchiveIsItsReEncoding | packages/backup/src/schema.ts:328-348 | a concrete accepted archive that is not the re-encoding of what it decodes to |
| ArchiveProofs.EncodeIs | packages/backup/src/archive.ts:175-295 | the encoder fails if and only if a size, the creation time or the signature is refused: its bounds on envelope and archive never strike |
| ArchiveSize.EnvelopeCompact | packages/backup/src/archive.ts:274-277 | every valid envelope prints as at most 48,022 ASCII characters, within the 64 KiB the decoder reads |
| ArchiveProofs.CutIs | packages/backup/src/archive.ts:439-453 | cutting succeeds if and only if the artifacts are all that is left of the bytes |
| ArchiveProofs.EnvelopeBytesRead | packages/backup/src/schema.ts:328-348 | an envelope is read from its canonical bytes, plain or marked, and from no others |
| ArchiveRecords.ManifestRead | packages/backup/src/archive.ts:456-658 | the manifest reader accepts a value if and only if it is a valid manifest up to field order, and finds that manifest |
| ArchiveRecords.EnvelopeRead | packages/backup/src/archive.ts:432-436 | the same for the envelope |
| ArchiveRecords.DescriptorsRead | packages/backup/src/archive.ts:493-528 | checking the running total at every descriptor accepts what checking the whole total would |
| ArchiveRecords.CheckpointRead | packages/backup/src/archive.ts:546-631 | the checkpoint reader accepts exactly its valid records |
| ArchiveRecords.ReleaseRead | packages/backup/src/archive.ts:546-631 | the release reader accepts exactly its valid records |
| ArchiveLayout.AcceptedIsLaidOut | packages/backup/src/archive.ts:415-454 | an accepted archive, byte for byte: the ten letters of the format, the length of the envelope with the most significant byte first, the canonical text of the envelope, and the seven artifacts one after another to the end, each with the digest the manifest gives |
| ArchiveLayout.EnvelopeSays | packages/backup/src/archive.ts:231-281 | the signed envelope has exactly its named fields, and under each name what the manifest holds |
| Archive.CutArtifacts | packages/backup/src/archive.ts:437-453 | the loop with its advancing offset and filling map finds the same artifacts as the cut |
| Archive.DecodeArchive | packages/backup/src/archive.ts:415-454 | the decoder as it runs is the decoder of the theorems |
| CheckpointJournal.ValidateCheckpointJournal | packages/backup/src/schema.ts:674-724 | the loop accepts exactly the linked, signed and hashed journals that end in the event head, and otherwise reports the first fault of the first faulty entry |
| JournalMeaning.AcceptedIs | packages/backup/src/schema.ts:674-724 | a journal is accepted if and only if every entry is numbered, signed, hashed and of this key, store and session, of any two entries the later one is later in time and covers more of the store, each names the digest of the one before it, and the last is the event head |
| JournalMeaning.PayloadSays | packages/backup/src/schema.ts:573-622 | the signed record has exactly its nine named fields |
| CheckpointJournal.TailHashDetermines | packages/backup/src/schema.ts:674-724 | two accepted journals with the same tail hash are the same journal |
| CheckpointJournal.HashPinsPrefix | packages/backup/src/schema.ts:674-724 | a checkpoint hash occurs in any other accepted journal only at the same place behind the same entries |
| CheckpointJournal.SequencesIncrease | packages/backup/src/schema.ts:688-699 | store sequences strictly increase up to the event head, and times never decrease up to the session's |
| JournalText.JournalRoundTrip | packages/backup/src/schema.ts:670-672 | a journal written line by line is read back entry for entry |
| JournalText.JournalIsItsEncoding | packages/backup/src/schema.ts:350-379 | an accepted journal text is exactly the encoding of what is read from it |
| JournalText.PrintUnbroken | packages/backup/src/canonical.ts:27-69 | canonical text holds no line break |
| CanaryProviderProofs.SecretsAreAskedForOnce | apps/cli/src/x-canary-operator-host-core.ts:443-461 | in every interleaving of runs, status reads, recoveries, aborts and close, provider secrets are requested at most once and only after a won claim |
| CanaryProviderProofs.RunsAndRecoveriesNeverOverlap | apps/cli/src/x-canary-operator-host-core.ts:536-564 | in every interleaving no run waits for or holds its secrets while a recovery is in flight; at most one run and one recovery are unsettled |
| CanaryProviderProofs.OnlyTheClaimAsks | apps/cli/src/x-canary-operator-host-core.ts:449-461 | secrets are requested only in the segment that wins the claim, by a run that nothing has stopped |
| CanaryProviderProofs.AbortedRunsOpenNothing | apps/cli/src/x-canary-operator-host-core.ts:350-365 | from a fresh provider, whatever happened before and whatever happens after: a run that is not inside its callback when an abort or a close comes is never inside it, and so never opens anything |
| CanaryProviderProofs.StepSound | apps/cli/src/x-canary-operator-host-core.ts:264-614 | every segment between two awaits keeps the provider's invariant, and blame for a lost resource is never taken back |
| CanaryRecovery.StatusRecovers | apps/cli/src/x-canary-operator-host-core.ts:292-316 | on any reachable provider, what a status read comes to: it looks into the store exactly if it is admitted and the provider is idle and not reconciled; finding it interrupted leaves one new recovery that awaits the storage secrets, for which it waits as the starter; finding it quiet leaves none and reconciles |
| CanaryRecovery.ExecuteRecovers | apps/cli/src/x-canary-operator-host-core.ts:318-348 | the same of a run, which exists exactly if it is admitted |
| CanaryRecovery.InitializeRecovers | apps/cli/src/x-canary-operator-host-core.ts:402-416 | the same of the host's initialization |
| CanaryRecovery.ReconciledIffCleared | apps/cli/src/x-canary-operator-host-core.ts:536-564 | over every run of the provider: reconciled if and only if some request looked and found nothing interrupted, or a recovery was fulfilled; and there are exactly as many recoveries as requests that looked and found the store interrupted |
| CanaryRecovery.HostReconciledIffCleared | apps/cli/src/x-canary-operator-host-core.ts:402-416 | the same over every run of the host |
| CanaryRecovery.CanaryCompletes | apps/cli/src/x-canary-operator-host-core.ts:318-534 | on every reachable provider that is idle and open, an undisturbed run is fulfilled with one claim won and one request for secrets, behind one fulfilled recovery if the store was interrupted and none otherwise |
| CanaryOutcomes.FulfilledIffNothingWrong | apps/cli/src/x-canary-operator-host-core.ts:298-614 | in every interleaving a settled run, recovery or status read is fulfilled if and only if nothing ever went wrong for it, and a run or recovery ends incomplete if and only if something was lost |
| CanaryRelease.ReleaseIff | apps/cli/src/x-canary-operator-host-core.ts:658-733 | in every interleaving the lock may be released if and only if the host has ended and no opening, closing step or close of the provider ever left something behind |
| CanaryRelease.HostCompletes | apps/cli/src/x-canary-operator-host-core.ts:633-733 | an undisturbed host gets to serve, and when it is asked to close it ends with the lock free to go |
| CanaryRelease.LockIsHandedOn | apps/cli/src/profile-service-lock-core.ts:374-547 | once a host that may release the lock does so, a new process takes it, and nothing else changes |
| CanaryHostProofs.CloseIsHonest | apps/cli/src/x-canary-operator-host-core.ts:367-387 | the provider's close succeeds only when nothing is in flight and nothing was left open |
| CanaryHostProofs.LockGoesLast | apps/cli/src/profile-service-lock-core.ts:502-547 | in every interleaving of startup, requests and shutdown, the profile lock may be released only after every acquired resource closed normally |
| CanaryHostProofs.HostStepInv | apps/cli/src/x-canary-operator-host-core.ts:633-733 | every step of startup and shutdown keeps the host's invariant |
| CanaryMachineProofs.SingleWriter | apps/cli/src/profile-service-lock-core.ts:374-441 | however processes start, stop and crash, no two of them have anything open at once; a released one has closed everything |
| CanaryMachineProofs.CrashIsFinal | apps/cli/src/profile-service-lock-core.ts:374-441 | after a crash no other process ever gets past the lock |
| CanaryMachineProofs.SecretsLeaveOnce | apps/cli/src/x-canary-operator-host-core.ts:443-461 | over all processes, restarts and crashes of a machine the secrets are requested at most once, and only with the permanent claim in place |
| CanaryCleanup.CloseCanaryResourceSet | apps/cli/src/canary-operator-startup-cleanup.ts:58-71 | every cleanup step is attempted, and the result is incomplete exactly when some step failed |
| CanaryCleanup.CleaningClosesASet | apps/cli/src/canary-operator-startup-cleanup.ts:58-71 | the step-by-step cleanup of a callback is one such set: it loses exactly the handles that did not close |
| CanaryProviderObject.ReadCanaryProvider.GetReadCanaryProjection | apps/cli/src/x-canary-operator-host-core.ts:292-316 | the fields change exactly as the protocol's event says and the invariant is kept: a status read shares the pending one, is refused while closing, and starts a recovery exactly if it looks and finds the store interrupted |
| CanaryProviderObject.ReadCanaryProvider.ExecuteReadCanary | apps/cli/src/x-canary-operator-host-core.ts:318-348 | the fields change exactly as the protocol's event says and the invariant is kept: a run starts exactly when none is active, nothing is closing or claimed and no receipt exists, behind the recovery that it started or found |
| CanaryProviderObject.ReadCanaryProvider.RecoverInterruptedIfPossible | apps/cli/src/x-canary-operator-host-core.ts:536-564 | the fields change exactly as the protocol's event says and the invariant is kept: a recovery is started exactly by one that finds an idle provider's store interrupted, joined if one is in flight, and skipped otherwise |
| CanaryProviderObject.ReadCanaryProvider.BeginClosing | apps/cli/src/x-canary-operator-host-core.ts:355-365 | the fields change exactly as the protocol's event says and the invariant is kept: no more work is admitted, running work is told to stop, and an abort that fails is kept for the close, as incomplete if its error is |
| CanaryProviderObject.ReadCanaryProvider.AbortActive | apps/cli/src/x-canary-operator-host-core.ts:350-353 | the fields change exactly as the protocol's event says and the invariant is kept: every run started so far is told to stop |
| CanaryProviderObject.ReadCanaryProvider.ResumeRun | apps/cli/src/x-canary-operator-host-core.ts:417-451 | the fields change exactly as the protocol's event says and the invariant is kept: behind the recovery a run stops, returns the receipt or claims |
| CanaryProviderObject.ReadCanaryProvider.SettleClaim | apps/cli/src/x-canary-operator-host-core.ts:443-460 | the fields change exactly as the protocol's event says and the invariant is kept: a won claim is owned for good, and secrets are requested only by a run that nothing stopped |
| CanaryProviderObject.ReadCanaryProvider.ReceiveSecrets | apps/cli/src/x-canary-operator-host-core.ts:461-464 | the fields change exactly as the protocol's event says and the invariant is kept: a stopped run opens nothing |
| CanaryProviderObject.ReadCanaryProvider.WorkOnRun | apps/cli/src/x-canary-operator-host-core.ts:465-533 | the fields change exactly as the protocol's event says and the invariant is kept: the resources of a run open in order and close in reverse |
| CanaryProviderObject.ReadCanaryProvider.ClearRun | apps/cli/src/x-canary-operator-host-core.ts:340-347 | the fields change exactly as the protocol's event says and the invariant is kept: an incomplete cleanup is remembered |
| CanaryProviderObject.ReadCanaryProvider.FinishRecovery | apps/cli/src/x-canary-operator-host-core.ts:553-563 | the fields change exactly as the protocol's event says and the invariant is kept: a finished recovery is cleared, and remembered if incomplete |

## Left out

- Parsing and normalising a raw bundle (`packages/attention/src/sanitize.ts`, `social.ts`): regular expressions and Unicode
  detection are not modelled; what they produce is the predicate `Attention.BundleOk` together with `Attention.Sanitized`.
- JavaScript object hygiene: proxies, accessors, prototypes, frozen and cyclic values have no meaning in the model.
- Unicode: strings are sequences of characters; order by UTF-16 code units and lone surrogates are not distinguished.
- Timestamps of the attention assessor and the outbox are integers; their text form is modelled only in the archive.
- Digests that the model computes are ideal and have no text; only identifiers that a bundle brings in are checked to be 64
  hexadecimal digits.
- Attention digests cover times as numbers where the source prints them as text; both forms are injective.
- The byte bounds on stored events (524,288) and on encrypted alerts (8 KiB) are not modelled.
- AttentionHistory.RecordedAttentionHistory.VerifiedReplay: the runtime's verdict on persisted receipts is an input, and the re-check of
  the store after that verdict is part of the same step.
- AttentionHistory.RecordedAttentionHistory.Commit: the runtime's own authorization log is not modelled; its receipt and checkpoint clock are inputs.
- The read view (`read`), `findRecorded`, `list` and `getSessionSummary` only project states the theorems already fix.
- SQLite itself, schema canonicality, pragmas and file modes; a transaction is atomic and a crash falls between transactions.
- OutboxModel: rows with equal times are ordered by some fixed total order on identifiers, which here are values rather than digests' text.
- Archive: error codes are one refusal; the dotted grammar of versions is reduced to its characters and length; the JSON
  parser and the digest are parameters, the parser being any that finds a value printed as the text it is given.
- JsonReader: is one such parser; it reads no fractions, exponents or surrogate escapes, which canonical text never holds.
- Archive: validation of the seven artifacts' contents against each other (`validateDecodedArtifacts`) and against the receipt is not
  modelled beyond the checkpoint journal.
- JournalText.JournalRoundTrip: starts from decoded text; the byte-order mark that the decoder drops is treated with the archive only.
- CanaryProvider: continuations of settled promises may run in any order, which admits more interleavings than the runtime's
  microtask order; opening the two synchronous stores is two steps rather than one.
- CanaryProvider: what the event store says about receipts and interruptions, and what the controller does, are inputs of each step.
- CanaryHost: ancestor, inode and token checks of the lock file are one exclusive create and one removal by the owner; nothing
  outside the modelled processes touches the lock or the claim.
- The base-RPC and OpenSea hosts follow the same protocol with fewer branches; they would repeat these members.
- HTTP servers, dashboards, command-line parsing, the vault, the runtime controller and the keychain hosts are not part of this model.
