# Verified model of the elicitation game, the cleaning gauntlet and the corpus

Two players describe and guess picture cards by voice. Every accepted recording goes through a
cleaning worker (the gauntlet), and what passes is written, once, to append-only training shards.
This project models that path in Dafny and proves what it promises over whole runs: with any number
of workers, crashes at any step, claims handed to a second worker, and slow workers that go on
regardless.

| file | models |
|---|---|
| `Fingerprints.dfy` | acoustic envelopes: quantisation, hex encoding, shift-tolerant matching |
| `Transitivity.dfy` | at which tolerances matching is an equivalence |
| `Corpus.dfy` | the rotating append-only shard writer and the flat log it stands for |
| `Records.dfy`, `World.dfy` | rows and documents; each database transaction as a function |
| `Protocol.dfy` | the game process and any number of workers as a transition system |
| `Invariant.dfy`, `TriageProofs.dfy`, `Preservation.dfy`, `ActionProofs.dfy` | its invariant, and every action keeping it |
| `Guarantees.dfy`, `Convergence.dfy` | what follows for every reachable state and every run |
| `Provenance.dfy` | where the body of every record comes from |
| `Claims.dfy`, `History.dfy` | job rows, claims and what runs remember: exact conditions for tries, completion and packaging |
| `Linkable.dfy`, `Rescue.dfy` | when a turn that should be in the corpus can still get there |
| `Witnesses.dfy` | runs from the empty system that reach the situations the exact conditions speak of |
| `Tightness.dfy` | runs that claim a job exactly as often as the bound allows |
| `WriteOnce.dfy` | the record table as the history of the statements sent to it |
| `Worker.dfy` | repository and service objects, statement by statement, proved to be runs of the protocol |
| `Game.dfy` | queue, pairs, turns, scoring and the session cap, request by request |
| `GameInvariant.dfy`, `GameProofs.dfy`, `GameGuarantees.dfy` | what every run of requests keeps |
| `GameRequests.dfy` | upload, label and guess field by field, on every reachable game |
| `Matchmaking.dfy`, `Scoreboard.dfy` | the partner choice against the SQL ordering; points and ranks |
| `GameStore.dfy` | the in-memory store and the service with their loops, proved equal to `Game.dfy` |
| `GameRefinement.dfy` | every game request, with the protocol actions it consists of |
| `Pending.dfy`, `Composition.dfy` | the statements of requests interleaved with workers in any way: game and tables stay in step |
| `Apportion.dfy`, `Split.dfy` | the stratified holdout split and why its quotas are optimal |
| `RateGate.dfy`, `Contention.dfy` | the sliding-window gate and the retry loop around it; any number of callers in it at once |
| `Nicknames.dfy` | bounded allocation of names that are unique up to case |
| `Sequences.dfy`, `Sorting.dfy`, `Wrappers.dfy` | filtering, counting, stable sorting, options and results |

`dafny verify dfyconfig.toml` checks everything.

Some statements a reader might assume are false of the code. The model keeps the code, a run from the
empty system shows each failure, and each comes with the exact condition under which it holds:

- *A completed job stays completed.* Not if a second worker still holds a claim on it
  (`Witnesses.CompletionIsUndone`). It can be undone if and only if some worker holds one
  (`Claims.CompletionIsFinalUnlessHeld`).
- *The retry limit bounds the claims of a job.* Any number is possible (`Witnesses.AnyNumberOfTries`).
  The bound is the limit, or one, plus the number of stale claims recovered (`Claims.TriesAreBounded`),
  and no smaller bound is right (`Tightness.TriesBoundIsExact`): the limit itself holds if and only if
  nothing is recovered.
- *A scored turn with stored quality gets packaged.* Not if the game process dies at the wrong moment
  (`Witnesses.StrandingHappens`); `History.StrandedExactlyWhen` says which moment. Otherwise package
  jobs and complete turns coincide (`Composition.SystemPackagesExactly`).
- *A turn that passes both gates gets into the corpus.* Not if a package run saw the gates fail in between
  (`Witnesses.NeverLinked`). For every reachable state `Rescue.DueIsLinkableExactlyWhen` says whether it
  still can.
- *A turn keeps its non-duplicate flag.* Triage run again can take it away, from both of two matching
  recordings (`Guarantees.RetriageCanDropBoth`, whose premise `Witnesses.PairIsStored` reaches);
  `TriageProofs.RetriageVerdict` says exactly when. The corpus guarantees hold regardless.
- *Matching is transitive.* Only at degenerate tolerances (`Transitivity.TransitiveExactlyWhenDegenerate`),
  which the default is not (`Transitivity.DefaultsAreNotTransitive`), so the corpus guarantee is about pairs of recordings.
- *Nickname candidates all differ.* Only while the attempt number fits the name
  (`Nicknames.CandidatesCollide`).
- *The envelope encoding is lossless.* Exactly on levels 0 to 15 (`Fingerprints.EnvelopeRoundTrip`).

The in-memory matchmaker and the SQL one differ on arbitrary queues (`Matchmaking.AgreesWithSql` says
where), but not in any run: a pair closes only at the cap, so nobody who may be matched has met anybody
waiting, and whoever fits longest is always taken (`Matchmaking.MatchesWheneverSomeoneFits`).

## Model

| member | source | states |
|---|---|---|
| Fingerprints.AlignedMeanAbsDistance | worker/fingerprint.py:292-316 | The loop computes the mean absolute difference over the overlap at this shift, and nothing when fewer than three frames overlap. |
| Fingerprints.DistanceSwap | worker/fingerprint.py:292-316 | The distance at shift s equals the distance of the swapped envelopes at shift -s. |
| Fingerprints.EnvelopesNearDuplicate | worker/fingerprint.py:130-161 | The shift search answers yes exactly when some shift within the bound has a distance within the ratio. |
| Fingerprints.FingerprintsMatch | worker/fingerprint.py:91-127 | The method decides equal content hashes or near-duplicate envelopes, both directions. |
| Fingerprints.MatchesSymmetric | worker/fingerprint.py:91-127 | Matching does not depend on which recording came first. |
| Fingerprints.ShiftedCopyMatches | worker/fingerprint.py:130-161 | A copy shifted by at most the allowed frames, identical on at least three overlapping frames, always matches. |
| Fingerprints.MatchingIsNotTransitive | worker/fingerprint.py:91-161 | At the default tolerance three concrete recordings match in a chain and not at its ends. |
| Transitivity.DefaultsAreNotTransitive | worker/fingerprint.py:91-161 | At the default tolerance matching is not transitive on such recordings. |
| Transitivity.TransitiveExactlyWhenDegenerate | worker/fingerprint.py:91-161 | On recordings whose digest determines the envelope, matching is transitive if and only if the shift bound or the ratio is negative or the ratio is at least one. |
| Fingerprints.EnvelopeRoundTrip | worker/fingerprint.py:164-187 | Decoding an encoded envelope returns it if and only if every level is between 0 and 15. |
| Fingerprints.EncodedAt | worker/fingerprint.py:164-187 | Each level from 0 to 15 is stored in its place as one lower-case hexadecimal digit. |
| Fingerprints.DecodedAt | worker/fingerprint.py:164-187 | Decoding succeeds exactly on hexadecimal digits of either case and reads each in its place. |
| Fingerprints.SquareSumAdds | worker/fingerprint.py:262-271 | The sum of squares adds up over any division of the samples, one sample giving its own square. |
| Fingerprints.QuantizedRmsEnvelope | worker/fingerprint.py:242-289 | One level for each whole frame of rate times milliseconds over a thousand samples (at least one sample): the number of whole sixteenths of full scale that the loudness of its mean square reaches, within 0..15; a shorter recording gives one level, an empty one none. |
| Fingerprints.DelayedRecordingMatches | worker/fingerprint.py:91-316 | Decoding to matching in one statement: the same recording behind a whole number of extra frames within the shift bound is found a duplicate. |
| Corpus.FindAgreesWithLog | worker/corpus.py:41-61 | The shard search finds an id exactly when the flat log carries it. |
| Corpus.AppendEffect | worker/corpus.py:63-96 | Appending is insert-if-absent on the flat log, never rewrites old content, and names a shard that carries the id afterwards. |
| Corpus.PutKeepsChunks | worker/corpus.py:98-117 | Rotation keeps the layout: all shards but the last full, none over the limit. |
| Corpus.LogRefinement | worker/corpus.py:41-146 | After any calls on an empty directory, rejected and repeated ones included, the shards hold exactly the first copies in call order, every shard but the last exactly at the limit (or one line for a limit below one). |
| Corpus.CorpusWriter.ShardContains | worker/corpus.py:119-146 | The line scan answers whether the file carries the id. |
| Corpus.CorpusWriter.FindUtterance | worker/corpus.py:41-61 | The scan over the files returns the first shard with the id. |
| Corpus.CorpusWriter.CurrentShard | worker/corpus.py:98-110 | The scan over the file names yields the highest shard, or the next number when that one is full. |
| Corpus.CorpusWriter.Append | worker/corpus.py:63-96 | The files keep their layout and the flat log gains exactly the new line, or nothing for a repeat or a record without an id. |
| TriageProofs.StoredBlocksIffMatches | worker/repository.py:759-791 | What the scan decodes from a stored quality row matches a candidate exactly when the original recordings match. |
| TriageProofs.RegistrationIsScan | worker/repository.py:634-686 | Registration, its table insert and its deletions together, declares a turn clean exactly when no other triaged turn of its speaker matches, whatever that turn's own flag: the exact-hash table never changes the verdict. |
| TriageProofs.RegisteredOwners | worker/repository.py:688-732 | Which rows the ownership table holds after a registration, in every case. |
| TriageProofs.TriageKeepsOwners | worker/repository.py:317-376 | Committing triage keeps the ownership table an exact index of the non-duplicate turns. |
| TriageProofs.TriageKeepsClean | worker/repository.py:350-363 | Committing triage keeps the history of ever-clean turns free of matching pairs, even when it flips a flag. |
| TriageProofs.RetriageVerdict | worker/repository.py:634-686 | After triage, first or repeated, a turn is non-duplicate if and only if no other triaged recording of its speaker matches it, duplicates included. |
| ActionProofs.DoKeepsInv | worker/service.py:94-315 | Every action of the game process and of every worker, crashes and stale recoveries included, keeps the protocol invariant. |
| ActionProofs.ReachableInv | worker/service.py:94-315 | Every state of every run satisfies the invariant. |
| ActionProofs.RunKeepsInv | worker/service.py:94-315 | The invariant survives any run from any state that has it. |
| Guarantees.ExactlyOnceExport | worker/service.py:281-315 | In every reachable state an utterance id is on at most one line across all shards. |
| Guarantees.CorpusHasNoTwins | worker/service.py:244-279 | No two corpus lines of one speaker carry matching recordings. |
| Guarantees.AtMostOneEverClean | worker/repository.py:634-686 | Over a whole run, of two matching recordings at most one is ever stored as non-duplicate. |
| Guarantees.EveryLineIsEligible | worker/service.py:362-376 | In every reachable state each corpus line is the stored body of a scored turn's record, its five machine findings are all in order, and the turn was validated. |
| Convergence.FreshRunExportsExactlyWhen | worker/service.py:225-376 | A package run that finds no record yet ends with the turn linked if and only if the stored speech, single-speaker and quality findings are positive, contamination and duplicate are not, and the turn was validated. |
| Provenance.BodiesAreReads | worker/service.py:379-425 | In every run the body of every record was assembled by a package worker that read the scored turn: its findings, hash, speaker and correctness are those stored at that step, its time that step's clock. |
| Guarantees.LinkSoundness | worker/repository.py:406-445 | A linked record is eligible and its stored body, not a racing worker's copy, is in the named shard. |
| Guarantees.UnvalidatedNeverExported | contracts/golden_record.md:48-81 | An unscored turn has no record; a turn not validated never reaches the corpus. |
| Guarantees.NothingIsTakenBack | worker/repository.py:406-445 | From any reachable state on, record bodies, set links, scores, audio and corpus lines never change and jobs never vanish. |
| Guarantees.IndexAgreement | worker/repository.py:657-732 | The ownership table maps (speaker, hash) to a turn exactly when that turn's stored quality has the hash and is not a duplicate. |
| Guarantees.RetriageCanDropBoth | worker/repository.py:657-686 | Re-triaging a clean turn after its duplicate was stored leaves neither of them clean. |
| History.StrandedExactlyWhen | worker/repository.py:350-375 | A scored turn with quality has neither a package job nor a continuation under way if and only if its quality was stored before it was scored, its continuation was cut off, and no triage of it has committed since. |
| History.TriageMissingExactlyWhen | app/game/service.py:265-270 | An accepted recording lacks its triage job if and only if its upload has not gone on to queue it. |
| History.CompletedPackageIsSettled | worker/service.py:225-315 | A completed package job means a record that is linked, or stored ineligible, or refused by a package run that had read ineligible quality. |
| Linkable.LinkableExactlyWhen | worker/service.py:225-315 | An exportable turn that is not stranded can be linked in some run if and only if its package job is not over: not finished or parked, or one of its holders is still on its way to the link or would put the job back if it failed. |
| Linkable.OverForGood | worker/repository.py:585-632 | Once the package job of an unlinked turn is over, no run ever links it. |
| Rescue.RescuedExactlyWhen | worker/repository.py:317-376 | A stranded exportable turn can be linked in some run if and only if its triage can commit again and no other stored recording of its speaker matches. |
| Rescue.DueIsLinkableExactlyWhen | worker/service.py:225-315 | For every reachable state and every exportable turn, the exact condition under which some run links it. |
| Witnesses.NeverLinked | worker/service.py:225-279 | A run from the empty system, with an overtaken package run and two late triage commits, after which an exportable turn is never linked again. |
| Witnesses.StrandingHappens | app/game/service.py:328-336 | A run from the empty system that strands a turn. |
| Guarantees.MutualExclusion | worker/repository.py:447-475 | At most one worker is inside the flusher lock. |
| Guarantees.GuardsNeverFire | worker/service.py:234-316 | The defensive exits (deferred package, vanished record, record without an id) are unreachable. |
| Guarantees.CountersNeverExceed | worker/service.py:248-314 | The exported and recorded counters never exceed the corpus lines and the records. |
| Guarantees.TriagedTotalIsExact | worker/service.py:214-223 | Over any run the triage counter grows by exactly one for each triage that a worker counts. |
| Claims.CompletionUndoneOnlyByFailure | worker/repository.py:585-632 | A completed job leaves that status if and only if a worker reports failure on that very job. |
| Claims.DoOnJob | worker/repository.py:96-151 | Whatever any worker or the game does, the row of one job changes only by claiming it, recovering it, or ending a claim on it; rows never vanish and new ones start waiting. |
| Claims.DoKeepsClaims | worker/repository.py:119-151 | Two outstanding claims on one job always carry different try numbers, none above the row's. |
| Claims.TriesAreBounded | worker/repository.py:594-632 | In every run a job's tries are at most the retry limit, or one, plus the stale claims on it that were recovered. |
| Tightness.TriesBoundIsExact | worker/repository.py:594-632 | For every number of recoveries, every run with that many keeps the tries of a job within a bound if and only if the bound is at least the retry limit, or one, plus that number. |
| Claims.CompletionIsFinalUnlessHeld | worker/repository.py:585-632 | Some run from a state undoes a completed job if and only if some worker in that state still holds a claim on it. |
| Witnesses.AnyNumberOfTries | worker/repository.py:96-151 | For every n a reachable state has a job claimed exactly n times. |
| Witnesses.CompletionIsUndone | worker/repository.py:585-632 | A reachable state, after a recovered claim, in which a completed job can be undone. |
| Witnesses.PairIsStored | worker/repository.py:317-376 | A reachable state with two matching recordings stored, the first as non-duplicate. |
| WriteOnce.RecordsAreHistory | worker/repository.py:406-445 | After any inserts and links by anyone, a turn's record has the body of its first insert and, if that was eligible, the shard of the first link after it. |
| Convergence.RunOutIsRun | worker/service.py:94-120 | Running one worker to its end without interference is a run of the protocol. |
| Convergence.PackageRunLinks | worker/service.py:225-315 | Whatever a crash left behind, one full package run ends with a link exactly when there was one or both gates allow it. |
| Convergence.RerunConverges | worker/service.py:225-315 | From any reachable state with the lock free, a rerun of an exportable turn ends with one line and a link to it. |
| Convergence.RerunIsIdle | worker/service.py:262-277 | Once linked or refused, further package runs change no record, line, link or counter. |
| Worker.GauntletRepository.ClaimNextJob | worker/repository.py:119-151 | A waiting job is claimed with its tries raised by one, and none only if none waits. |
| Worker.GauntletRepository.ScanFingerprintUnowned | worker/repository.py:734-796 | The scan over stored turns is clear exactly when nothing blocks the candidate; an undecodable envelope is an error. |
| Worker.GauntletRepository.SpeakerHasMatchingFingerprint | worker/repository.py:275-315 | The read-only hint, table lookup and scan together, says yes exactly when some other triaged recording of the speaker matches. |
| Worker.GauntletRepository.RegisterFingerprintTable | worker/repository.py:688-732 | Insert-or-ignore on the ownership table, reporting whether this turn owns the row. |
| Worker.GauntletRepository.RegisterSpeakerFingerprint | worker/repository.py:634-686 | The three steps of registration have the combined effect proved in RegistrationIsScan. |
| Worker.GauntletRepository.PersistTriage | worker/repository.py:317-376 | One transaction stores the quality with the final duplicate flag, updates ownership, and queues packaging if the turn is scored. |
| Worker.GauntletService.ExportEligibleRecord | worker/service.py:281-315 | Find before append, then link, under the lock: equal to the protocol's run from the lock on. |
| Worker.GauntletService.Package | worker/service.py:225-279 | The statements of the package handler equal the uninterrupted package run, whose gate is stated in Convergence.FreshRunExportsExactlyWhen. |
| Worker.GauntletService.Triage | worker/service.py:175-223 | The handler's statements equal the protocol's uninterrupted triage run. |
| Worker.GauntletService.ProcessOnce | worker/service.py:94-120 | Claiming, dispatching and completing or failing one job equals one uninterrupted run; false only when no job waits. |
| GameProofs.StepKeepsInv | app/game/service.py:155-497 | Every request, refused ones included, keeps the game invariant. |
| GameProofs.RunKeepsInv | app/game/service.py:155-497 | The invariant holds after every sequence of requests. |
| GameProofs.GuessOk | app/game/memory_store.py:539-568 | A guess validates exactly when right, and is unclear exactly when wrong at the last attempt. |
| GameGuarantees.SessionCap | app/game/memory_store.py:592-613 | Nobody exceeds the cap, has two active pairs, or waits while paired; whoever waits or is paired is below the cap. |
| GameGuarantees.CappedForever | app/game/service.py:168-175 | Once a player reaches the cap, no later request seats them in a new turn and their round count stays the cap. |
| GameGuarantees.TurnChain | app/game/service.py:449-462 | The k-th turn of a pair is spoken by player_a exactly when k is even; only a pair's last turn can be open, and only while the pair is active. |
| GameGuarantees.TurnRecords | app/game/memory_store.py:465-568 | Status, outcome, attempts and audio stay coupled; a triage job exists exactly for turns with audio, a package job only for scored turns with quality, none twice. |
| GameGuarantees.LatestIsOpen | app/game/memory_store.py:440-453 | The newest-turn lookup returns a pair's open turn for any timestamps and identifiers. |
| GameGuarantees.LatestTurnMeans | app/game/memory_store.py:440-453 | On any store the lookup returns a turn of the pair, unscored before scored, then the latest, then the highest identifier. |
| GameGuarantees.ActivePairMeans | app/game/memory_store.py:338-357 | On any store the lookup returns the newest active pair of the player, none exactly when there is none. |
| GameGuarantees.TalliesMean | app/game/memory_store.py:678-692 | A score is the points times the validated turns a player took part in, rounds are the scored ones. |
| GameRequests.UploadMeans | app/game/service.py:211-279 | In every reachable game an upload is accepted if and only if it fits, passes the check and the player speaks in a turn awaiting audio; then exactly that turn's audio and status change and its triage job is added. |
| GameRequests.ConfirmMeans | app/game/service.py:281-297 | A label is confirmed if and only if the player speaks in a turn awaiting it, and exactly that turn's status changes. |
| GameRequests.GuessMeans | app/game/service.py:299-462 | A guess counts if and only if the player guesses in a turn awaiting it; attempts, status, outcome, counter, package job, the closing of the pair at the cap and the next turn with swapped roles are stated field by field. |
| GameRequests.AskRefusals | app/game/service.py:155-182 | A pair is refused exactly to whoever has played the cap, and whoever has an active pair keeps it; nothing changes then. |
| GameRequests.SpeakerRefusals | app/game/service.py:464-497 | While a turn of the player's pair is open: refused as not the speaker, as the wrong status, or given that turn. |
| GameRequests.GuessRefusals | app/game/service.py:299-327 | While a turn of the player's pair is open: refused as not the guesser or as the wrong status, with nothing changed. |
| GameRequests.UnpairedRefusals | app/game/service.py:464-497 | A player is told of having no pair exactly when no active pair has the player. |
| GameRequests.NoTurnRefusal | app/game/service.py:464-497 | A speaker is told of having no turn exactly when the active pair has none. |
| GameGuarantees.RunExtends | app/game/memory_store.py:359-568 | Along any run turns keep seats, card and audio, and a scored turn keeps its outcome and attempts. |
| Matchmaking.PicksEarliestFresh | app/game/memory_store.py:247-305 | The loop takes the earliest waiting compatible player never met before whenever one exists, else a former partner only if nobody else fits. |
| Matchmaking.NoPartnerMeans | app/game/memory_store.py:247-336 | No partner is found if and only if nobody fits, or several fit and all are former partners. |
| Matchmaking.MatchesWheneverSomeoneFits | app/game/service.py:168-182 | After any requests, a player below the cap with no active pair is matched if and only if somebody fits, with the longest-waiting fit, which the SQL order returns too and whom they never met. |
| Matchmaking.MatchedExactlyWhen | app/game/memory_store.py:220-305 | After any run, a player who may ask is matched if and only if somebody waits, not expired, with a different mother tongue and a language that each has as mother tongue or knows besides; then with the one who waited longest, who speaks first. Pair, first turn and queue are stated field by field, also when nobody is found. |
| Matchmaking.PairsCanTalk | app/game/types.py:574-602 | In every run the members of every pair have different mother tongues and such a language. |
| Matchmaking.NobodyMeetsTwice | app/game/memory_store.py:592-613 | No two pairs ever made have the same two members. |
| Matchmaking.AgreesWithSql | app/game/pg_store.py:374-409 | Any partner the loop picks is a minimum of the SQL two-key order; on arbitrary queues the stores disagree exactly when several fit and all are former partners. |
| Scoreboard.ScoreConservation | app/game/memory_store.py:678-717 | All scores add up to two shares of points for each validated turn, and the incremental counter equals the count over turns. |
| Scoreboard.RankCountsThoseAhead | app/game/memory_store.py:691-717 | A rank is one plus the number of players with a greater score, or the same score and an alphabetically earlier nickname; it is missing exactly when ten thousand or more are ahead. |
| Scoreboard.LeaderboardMeans | app/game/memory_store.py:701-717 | The board is the list of all players by falling score and then alphabetically, cut to the rows asked for (a negative number drops rows from the end). |
| Scoreboard.StatsMean | app/game/memory_store.py:678-692 | Score and rounds of a visitor as sets of turns. |
| Sorting.StringLeIsAlphabetical | app/game/memory_store.py:716 | The string order is prefix first, else by the first differing character. |
| Sorting.SortIsStable | app/game/memory_store.py:252-253 | Sorting keeps tied elements in the order in which they came. |
| Scoreboard.RanksDiffer | app/game/memory_store.py:691-699 | In reachable states no two players share a rank. |
| GameStore.MemoryGameStore.EvictStaleQueue | app/game/memory_store.py:80-108 | Popping the collected stale keys leaves exactly the fresh entries and the kept player, in order. |
| GameStore.MemoryGameStore.IsActivelyQueued | app/game/memory_store.py:110-124 | True exactly when the player has a queue entry within the activity window. |
| GameStore.MemoryGameStore.PreviouslyPaired | app/game/memory_store.py:307-313 | The loop finds a shared pair, active or closed, exactly when there is one. |
| GameStore.MemoryGameStore.HasAlternate | app/game/memory_store.py:315-336 | The loop finds another active compatible player exactly when there is one. |
| GameStore.MemoryGameStore.ActiveCandidates | app/game/memory_store.py:247-253 | The other active entries, stably ordered by enqueue time. |
| GameStore.MemoryGameStore.ChoosePartner | app/game/memory_store.py:253-269 | The loop with its three refusals stops at the first acceptable candidate. |
| GameStore.MemoryGameStore.MakePair | app/game/memory_store.py:274-304 | Whoever enqueued earlier becomes player_a and the first speaker; both leave the queue. |
| GameStore.MemoryGameStore.TryMatch | app/game/memory_store.py:220-305 | The whole method, from refresh and eviction to the dealt turn, equals the specified transition. |
| GameStore.MemoryGameStore.GetActivePair | app/game/memory_store.py:338-357 | Filter and sort return the newest active pair of the player, if any. |
| GameStore.MemoryGameStore.GetLatestTurn | app/game/memory_store.py:440-453 | Filter and sort return the first turn in the three-key order. |
| GameStore.MemoryGameStore.AcceptAudio | app/game/memory_store.py:465-498 | Only a turn awaiting audio takes it, and no other field of any turn changes. |
| GameStore.MemoryGameStore.ConfirmLabel | app/game/memory_store.py:530-537 | Only a turn awaiting confirmation advances, and nothing else changes. |
| GameStore.MemoryGameStore.EnqueueJob | app/game/memory_store.py:500-528 | A job is added exactly when its kind and turn are not there yet. |
| GameStore.MemoryGameStore.ApplyGuess | app/game/memory_store.py:539-568 | Attempts, status, outcome and the counter change as specified; a turn not awaiting a guess is refused unchanged. |
| GameStore.MemoryGameStore.CompletePairIfCapped | app/game/memory_store.py:592-613 | The pair closes exactly when one of its members has reached the cap. |
| GameStore.MemoryGameStore.Leaderboard | app/game/memory_store.py:701-717 | The loop over validated turns yields each player's score; the rows returned come by falling score and then alphabetically, the first of all players. |
| GameStore.MemoryGameStore.PlayerStats | app/game/memory_store.py:678-699 | The loops return the player's score, scored rounds and first position on the board. |
| GameStore.GameService.RequireSpeakerTurn | app/game/service.py:464-497 | The four refusals in order, else the stored newest turn. |
| GameStore.GameService.RequestPair | app/game/service.py:155-182 | Cap check, existing pair, enqueue and match in order, keeping the invariant. |
| GameStore.GameService.UploadAudio | app/game/service.py:211-279 | Size first, then the speaker's open turn, then the recording check; acceptance queues triage once. |
| GameStore.GameService.ConfirmLabel | app/game/service.py:281-297 | Only the speaker of a turn awaiting it may confirm; the turn then awaits a guess. |
| GameStore.GameService.Guess | app/game/service.py:299-339 | Only the guesser of a turn awaiting a guess may answer; scoring packages, closes or deals on. |
| GameStore.GameService.AfterScored | app/game/service.py:413-462 | Packaging if quality is in, then close at the cap or deal the next turn with roles swapped. |
| GameRefinement.RequestIsProtocolRun | app/game/service.py:155-462 | Each request, run to its end, is the sequence of protocol actions that its script lists, with the same effect on turns and jobs. |
| Pending.CommitDrained | app/game/service.py:413-462 | A triage commit may come before, between or after the statements a request still owes: the tables end up the same. |
| Pending.RunSeen | app/game/service.py:155-462 | What the tables show after a request's statements is determined by the rows, job keys and open continuations they start from. |
| Composition.SystemStaysInStep | app/game/service.py:155-462 | Under any interleaving of single statements of requests with worker steps, claims, recoveries, exceptions and crashes, the game is a run of requests and triage commits, the tables a run of the protocol, and the statements still owed lead the tables to the game. |
| Composition.RequestsEnd | app/game/service.py:413-462 | Whatever workers do, each statement of a request leaves less of it to run, and no worker step leaves more. |
| Composition.SystemKeepsCapAndChain | app/game/service.py:413-462 | The session cap and the chain of turns hold in that system, and every row the workers read, in the middle of a request too, is one of those turns on its way. |
| Composition.SystemPackagesExactly | app/game/service.py:428-436 | Wherever in a request the triage commit falls, a complete turn has its package job or the request still owes the continuation that queues it; with nothing owed, package jobs and complete turns coincide. |
| Apportion.LargestRemainderIsOptimal | tune/prepare.py:182-194 | No integer allocation with the same total has a smaller sum of absolute deviations from the exact shares. |
| Split.QuotasAreOptimal | tune/prepare.py:182-194 | The language quotas add up to the rounded holdout size (stated in numbers by Split.HoldoutIsRoundedFraction) and are optimal among all allocations with that total. |
| Split.QuotaBounds | tune/prepare.py:186-194 | Each quota is within one of its exact share and between zero and the size of its group. |
| Split.HoldoutIsRoundedFraction | tune/prepare.py:182-207 | The holdout has more than n*fraction - 0.5 and at most n*fraction + 0.5 rows, as many as the quotas add up to. |
| Split.SeatsByRemainder | tune/prepare.py:184-194 | A language rounded up has a larger fractional part than one that is not, or the same and the lower hash. |
| Split.SplitByHash | tune/prepare.py:196-207 | Of each language the rows with the lowest hashes are held out; both outputs go alphabetically by language and then by hash. |
| Split.SplitPartitions | tune/prepare.py:196-207 | Train and holdout together are the input as a multiset. |
| Split.SplitForgetsOrder | tune/prepare.py:179-207 | Permuting rows with distinct ids changes neither output sequence. |
| Split.GroupRows | tune/prepare.py:179-181 | The grouping loop collects each language's rows in input order and the languages in order of appearance. |
| Split.FloorQuotas | tune/prepare.py:182-186 | The loop floors each exact share and totals the floors. |
| Split.BumpQuotas | tune/prepare.py:187-194 | Exactly the first remaining languages in rank order gain one. |
| Split.TakeGroups | tune/prepare.py:196-207 | Each group, in hash order, gives its quota to the holdout and the rest to training. |
| Split.DeterministicStratifiedSplit | tune/prepare.py:168-207 | The loops compute the specified split, lose or repeat no row, and hold out the fraction of the rows rounded to the nearest whole row. |
| RateGate.RunIsRateBounded | app/gemini_client.py:504-534 | Over any run of acquisitions, start i+rpm is at least sixty seconds after start i and the window holds at most rpm stamps. |
| RateGate.WaitMakesRoom | app/gemini_client.py:514-529 | After the computed wait at least one stamp has left the window. |
| RateGate.WaitIsExact | app/gemini_client.py:514-529 | A caller at a full window wakes one millisecond after its oldest start is a minute old. |
| RateGate.AcquireKeepsGate | app/gemini_client.py:504-534 | One acquisition keeps the deque a suffix of all starts with everything older already out of the window. |
| RateGate.ModelGate.Acquire | app/gemini_client.py:504-534 | Takes one permit, waits if the window is full, stamps one start and keeps the window bounds. |
| RateGate.ModelGate.Release | app/gemini_client.py:536-539 | Gives one permit back and touches no stamp. |
| RateGate.RunWithPolicy | app/gemini_client.py:1396-1489 | Every exit gives the permit back, records one row per attempt, and stops at the first success, the first permanent error or the last allowed attempt; consecutive starts of the caller are at least half the doubled base delay, or half the cap, apart. |
| RateGate.Power2Multiplies | app/gemini_client.py:1473-1476 | The backoff factor is one for the first attempt and doubles with each further one. |
| RateGate.EntriesMean | app/gemini_client.py:1432-1471 | Row k of a call is for attempt k with that attempt's success. |
| Contention.GateHoldsUnderContention | app/gemini_client.py:504-539 | Under any interleaving of callers, permits out and in add up to the limit, calls in flight stay within it, starts keep to the rate, rows match finished attempts, and nobody exceeds the allowed attempts. |
| Contention.EveryCallerIsRecorded | app/gemini_client.py:1416-1489 | In every run each caller's rows are the answers it got, in order, with attempt number and success; it tried again only after a transient answer and returned on a success, a permanent error or the last allowed attempt. |
| Contention.AllPermitsReturn | app/gemini_client.py:1420-1489 | Once every caller has returned, every permit is back and every start has its row. |
| Contention.SomebodyCanMove | app/gemini_client.py:504-539 | While any caller is under way, suspended ones included, some caller can move. |
| Nicknames.CandidatesCollide | app/game/nicknames.py:45-67 | Two retries collide up to case if and only if they are the same, or both numbers overflow the name and agree in their last 32 digits. |
| Nicknames.Candidate | app/game/nicknames.py:25-67 | Every candidate has between 1 and 32 characters. |
| Nicknames.BaseMeans | app/game/nicknames.py:45-50 | White space around the request is dropped, an empty request becomes "player", and the first 32 characters are kept. |
| Nicknames.RetryMeans | app/game/nicknames.py:54-67 | A retry is as much of the base as fits without trailing white space, or "p" if nothing is left, then a number sign and one more than the attempt. |
| Nicknames.DecimalReads | app/game/nicknames.py:54 | The decimal suffix reads back as its number and has no leading zero. |
| Nicknames.FoldJoin | app/game/nicknames.py:70-115 | Case folding goes character by character by the given table. |
| Nicknames.SomeAttemptIsFree | app/game/nicknames.py:99-115 | With fewer than max_attempts - 1 names taken some attempt is free. |
| Nicknames.PlayerTable.NextFreeNickname | app/game/nicknames.py:70-115 | Returns the first free candidate, and fails exactly when all are taken. |
| Nicknames.PlayerTable.CreatePlayer | app/game/memory_store.py:126-176 | Stored names stay legal and pairwise distinct up to case; a free request of 1 to 32 characters without outer white space is stored as it is. |

## Left out

- Torn file writes: a shard append with its flush is one step.
- Losing the database session that holds the flusher lock while its worker lives.
- Cancellation of a running handler, other than a crash of its process.
- Composition.SystemStaysInStep: carries out one request at a time; a request cut off half-way is in the protocol alone (`CrashGuess`, and uploads that never queue triage), where `History` gives the exact conditions.
- The fingerprint of a recording is the same at every triage of its turn: a recording is fixed once accepted, and re-reading its audio is taken to give the same digest and envelope.
- Clocks of the job table: which pending or stale job is due, retry delays and claim order are the environment's choice.
- Worker.GauntletRepository.ClaimNextJob: does not state the due time and creation order of the claimed job, because due times are not modelled.
- SQL: each statement or transaction is atomic, as its locks make it; the Postgres `request_pair`, which enqueues and matches in separate calls, is not modelled and its single-active-pair property is not claimed.
- GameStore.GameService.RequestPair: reads the clock once per request where the store reads it several times.
- GameStore.MemoryGameStore.TryMatch: reads the clock once, likewise.
- GameStore.GameService.Guess: the returned turn is a value; in the store it is the live record, so the later re-read of quality sees the same object.
- GameRefinement.RequestIsProtocolRun: is about requests; the store's own quality hook (`StoreQuality`), which queues nothing, has no counterpart in the tables, and the worker's commit (`CommitTriage`) is `World.PersistTriage`.
- Which card is drawn, and preferring unused cards: any card or none may come up.
- The language chosen for a pair, and trimming or case of language tags: a player speaks native and common languages as a set.
- `Game.Join` takes a nickname already allocated; allocation up to case is `Nicknames.PlayerTable`.
- Golden-record fields copied from the turn's context (media paths, card, deck, region, languages, capture time): only what the gate, the exporter and the corpus read is kept.
- UUIDs are natural numbers and hashes are injective ranks; hash functions themselves are not modelled.
- Floating point: distances, fractions and monotonic times are exact reals; loudness is an arbitrary function before clamping.
- `int(c, 16)` on Unicode digits beyond ASCII, and shard file names beyond four digits, where name order and number order part.
- RateGate.ModelGate.Acquire: is the call from the moment a permit is free; suspended callers and their interleaving are `Contention`.
- RateGate.RunWithPolicy: is one caller with a free permit; any number of callers is `Contention`. A recorder is always configured.
- Unicode tables: white space and case folding are parameters, assumed to leave ASCII digits and the number sign alone.
- Media transcoding, model calls and prompts, JSON parsing, logging, heartbeats, HTTP routing, view states, metrics endpoints, deck generation, training and demo scripts.
