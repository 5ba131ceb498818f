/**
 Runs from the empty system that reach the situations the other results speak of: a completed job
 with a second holder, a job claimed any number of times, two recordings that match, a turn
 without its package job, and an exportable turn whose package job is over.
 */
module Witnesses {
  import opened Wrappers
  import opened Fingerprints
  import opened Records
  import opened World
  import opened Protocol
  import opened Invariant
  import opened TriageProofs
  import opened ActionProofs
  import opened Guarantees
  import opened Convergence
  import opened Claims
  import opened History
  import opened Linkable

  const RECORDING := AcousticFingerprint(0, [0, 0, 0])
  const PASSED := Gates(true, true, true, false, false)
  const INPUT := Input(PASSED, 0)

  lemma Reach(config: Config, s: State, action: Action)
    requires Reachable(config, s) && Enabled(config, s, action)
    ensures Reachable(config, Do(config, s, action))
  {
    hide Reachable, Enabled, Do;
    RunOne(config, s, action, []);
    assert [action] + [] == [action];
    ReachableAfter(config, s, [action]);
  }

  function Uploaded(s: State, t: TurnId, speaker: PlayerId): State {
    s.(world := s.world.(
         turns := s.world.turns[t := Turn(speaker, AwaitingLabelConfirm, Undecided, 0, Some(RECORDING), None)],
         jobs := Enqueue(s.world.jobs, JobKey(Triage, t))))
  }

  /** A turn is created, its recording accepted and its triage queued. */
  lemma Upload(config: Config, s: State, t: TurnId, speaker: PlayerId)
    requires Reachable(config, s) && t !in s.world.turns
    ensures Reachable(config, Uploaded(s, t, speaker))
  {
    hide Reachable;
    Reach(config, s, CreateTurn(t, speaker));
    var created := Do(config, s, CreateTurn(t, speaker));
    Reach(config, created, AcceptAudio(t, RECORDING));
    var accepted := Do(config, created, AcceptAudio(t, RECORDING));
    Reach(config, accepted, EnqueueTriage(t));
    assert Do(config, accepted, EnqueueTriage(t)) == Uploaded(s, t, speaker);
  }

  // ---------------------------------------------------------------- any number of tries

  function OneWaiting(): State {
    SetPc(Uploaded(Initial(), 0, 0), 0, Idle)
  }

  lemma OneWaitingIsReachable(config: Config)
    ensures Reachable(config, Initial()) && Reachable(config, OneWaiting())
  {
    assert CanRun(config, Initial(), []) && After(config, Initial(), []) == Initial();
    hide Reachable;
    Upload(config, Initial(), 0, 0);
    Reach(config, Uploaded(Initial(), 0, 0), StartWorker(0));
  }

  /** Whatever the retry limit, some reachable state has a job claimed exactly `n` times. */
  lemma AnyNumberOfTries(config: Config, n: nat)
    ensures exists s :: Reachable(config, s) && JobKey(Triage, 0) in s.world.jobs && s.world.jobs[JobKey(Triage, 0)] == Job(Waiting, n)
  {
    OneWaitingIsReachable(config);
    var s, key := OneWaiting(), JobKey(Triage, 0);
    TriesAreUnbounded(config, s, 0, key, n);
    hide Reachable;
    ReachableAfter(config, s, CrashLoop(0, key, n));
  }

  // ----------------------------------------------------------------- one triage run

  /** The uninterrupted triage handler commits its verdict and completes its job. */
  lemma TriageRunsOut(config: Config, world: World, claim: Claim, input: Input)
    requires claim.key.kind == JobKind.Triage && claim.key in world.jobs
    requires claim.key.turn in world.turns && world.turns[claim.key.turn].audio.Some?
    ensures var t := claim.key.turn;
            var after := RunOut(config, world, Dispatched(claim), input);
            && after.turns == PersistTriage(world, t, input.verdict, world.turns[t].speaker, world.turns[t].audio.value, config.tolerance).turns
            && claim.key in after.jobs && after.jobs[claim.key].status == Complete
            && (forall key :: key in world.jobs && key != claim.key ==> key in after.jobs && after.jobs[key] == world.jobs[key])
  {
    hide Register, StoredQuality;
    var t := claim.key.turn;
    var listening := Listening(claim, world.turns[t].speaker, world.turns[t].audio.value);
    var committed := NextWorld(config, world, listening, input);
    var counted := NextWorld(config, committed, CountingTriage(claim), input);
    assert RunOut(config, world, Dispatched(claim), input) == RunOut(config, world, listening, input);
    assert RunOut(config, world, listening, input) == RunOut(config, committed, CountingTriage(claim), input);
    assert RunOut(config, committed, CountingTriage(claim), input) == RunOut(config, counted, Finishing(claim), input);
    EndsReporting(config, counted, claim, input);
  }

  /** The turns are those of one triage commit on `t`. */
  ghost predicate Committed(config: Config, s: State, after: State, t: TurnId) {
    && t in s.world.turns && s.world.turns[t].audio.Some?
    && var turn := s.world.turns[t];
       exists before: World :: before.turns == s.world.turns && before.owners == s.world.owners
         && after.world.turns == PersistTriage(before, t, PASSED, turn.speaker, turn.audio.value, config.tolerance).turns
  }

  lemma ClaimEffect(config: Config, s: State, w: WorkerId, key: JobKey)
    requires Enabled(config, s, ClaimNext(w, key))
    ensures Do(config, s, ClaimNext(w, key)) ==
            SetPc(SetJobs(s, ClaimJob(s.world.jobs, key)), w, Dispatched(Claim(key, s.world.jobs[key].tries + 1)))
  {
    hide WorkStep, GameStep, RecoverStaleClaims;
  }

  /** An idle worker claims a waiting triage job and finishes it alone. */
  lemma TriageAlone(config: Config, s: State, w: WorkerId, t: TurnId) returns (after: State)
    requires Reachable(config, s) && s.lock.None? && w in s.workers && s.workers[w].Idle?
    requires JobKey(Triage, t) in s.world.jobs && s.world.jobs[JobKey(Triage, t)].status == Waiting
    requires t in s.world.turns && s.world.turns[t].audio.Some?
    ensures Reachable(config, after) && after.lock.None? && after.workers == s.workers && IsComplete(after, JobKey(Triage, t))
    ensures Committed(config, s, after, t)
    ensures forall key :: key in s.world.jobs && key != JobKey(Triage, t) ==>
              key in after.world.jobs && after.world.jobs[key] == s.world.jobs[key]
  {
    var key := JobKey(Triage, t);
    hide Reachable, RunOut, Do, PersistTriage, LockOk;
    LockIsFree(config, s);
    Reach(config, s, ClaimNext(w, key));
    ClaimEffect(config, s, w, key);
    var claimed := Do(config, s, ClaimNext(w, key));
    LockIsFree(config, claimed);
    var run := RunOutIsRun(config, claimed, w, INPUT);
    TriageRunsOut(config, claimed.world, claimed.workers[w].claim, INPUT);
    ReachableAfter(config, claimed, run);
    after := After(config, claimed, run);
    assert claimed.world.turns == s.world.turns && claimed.world.owners == s.world.owners;
    assert s.workers[w := Idle] == s.workers;
  }

  // ------------------------------------------------------------- a second holder

  /** A slow worker claims, its claim is recovered, and a second worker claims and completes the job. */
  lemma SecondHolder(config: Config) returns (s: State)
    ensures Reachable(config, s) && IsComplete(s, JobKey(Triage, 0)) && Held(s, JobKey(Triage, 0))
  {
    var key := JobKey(Triage, 0);
    OneWaitingIsReachable(config);
    hide Reachable;
    var one := OneWaiting();
    Reach(config, one, StartWorker(1));
    var two := Do(config, one, StartWorker(1));
    Reach(config, two, ClaimNext(0, key));
    var slow := Do(config, two, ClaimNext(0, key));
    Reach(config, slow, RecoverStale({key}));
    var recovered := Do(config, slow, RecoverStale({key}));
    s := TriageAlone(config, recovered, 1, 0);
    assert Holds(s.workers[0], key);
  }

  /** So a completed job really can be put back, in a run from the empty system. */
  lemma CompletionIsUndone(config: Config)
    ensures exists s :: Reachable(config, s) && IsComplete(s, JobKey(Triage, 0)) && CanBeReopened(config, s, JobKey(Triage, 0))
  {
    var s := SecondHolder(config);
    CompletionIsFinalUnlessHeld(config, s, JobKey(Triage, 0));
  }

  // ------------------------------------------------------------- a stored pair

  /** The premise of `RetriageCanDropBoth`: `t` is stored clean, `u` is stored and matches it. */
  ghost predicate StoredPair(config: Config, s: State, t: TurnId, u: TurnId) {
    && StoredClean(s.world.turns, t) && Triaged(s.world.turns, t) && Triaged(s.world.turns, u) && t != u
    && SameUtterance(s.world.turns, u, t, config.tolerance)
  }

  /** A commit stores quality on its turn and changes no other. */
  lemma CommitStores(config: Config, s: State, after: State, t: TurnId)
    requires Committed(config, s, after, t)
    ensures t in after.world.turns && after.world.turns[t].quality.Some?
    ensures after.world.turns == s.world.turns[t := s.world.turns[t].(quality := after.world.turns[t].quality)]
  {
    hide Register, StoredQuality;
  }

  /** The first recording to be triaged is stored clean. */
  lemma FirstIsClean(config: Config, s: State, after: State, t: TurnId)
    requires Reachable(config, s) && Committed(config, s, after, t)
    requires forall u :: u in s.world.turns ==> s.world.turns[u].quality.None?
    ensures StoredClean(after.world.turns, t)
  {
    ReachableInv(config, s);
    var turn := s.world.turns[t];
    var before: World :| before.turns == s.world.turns && before.owners == s.world.owners
               && after.world.turns == PersistTriage(before, t, PASSED, turn.speaker, turn.audio.value, config.tolerance).turns;
    RetriageVerdict(before, s.clean, t, PASSED, config.tolerance);
  }

  /** After an identical one is triaged too, both are stored and the first is still clean. */
  lemma SecondIsStored(config: Config, s: State, after: State)
    requires Committed(config, s, after, 1) && 0 in s.world.turns && StoredClean(s.world.turns, 0)
    requires s.world.turns[0].audio == s.world.turns[1].audio == Some(RECORDING)
    requires s.world.turns[0].speaker == s.world.turns[1].speaker
    ensures StoredPair(config, after, 0, 1)
  {
    hide Committed;
    CommitStores(config, s, after, 1);
  }

  lemma PairIsStored(config: Config)
    ensures exists s :: Reachable(config, s) && StoredPair(config, s, 0, 1)
  {
    hide Reachable, Committed, StoredPair;
    OneWaitingIsReachable(config);
    var one := OneWaiting();
    Upload(config, one, 1, 0);
    var two := Uploaded(one, 1, 0);
    var first := TriageAlone(config, two, 0, 0);
    FirstIsClean(config, two, first, 0);
    CommitStores(config, two, first, 0);
    var second := TriageAlone(config, first, 0, 1);
    SecondIsStored(config, first, second);
  }

  // ----------------------------------------------------------- a stranded package

  /** Quality is stored, the turn is confirmed and guessed, and the process dies before its continuation. */
  lemma StrandingHappens(config: Config)
    ensures exists s :: Reachable(config, s) && Stranded(s, 0)
  {
    OneWaitingIsReachable(config);
    hide Reachable, Committed;
    var stored := TriageAlone(config, OneWaiting(), 0, 0);
    CommitStores(config, OneWaiting(), stored, 0);
    assert stored.world.turns[0].status == AwaitingLabelConfirm;
    Reach(config, stored, ConfirmLabel(0));
    var confirmed := Do(config, stored, ConfirmLabel(0));
    NotQueuedYet(config, confirmed, 0);
    Reach(config, confirmed, ApplyGuess(0, true));
    var guessed := Do(config, confirmed, ApplyGuess(0, true));
    Reach(config, guessed, CrashGuess(0));
    assert Stranded(Do(config, guessed, CrashGuess(0)), 0);
  }

  lemma NotQueuedYet(config: Config, s: State, t: TurnId)
    requires Reachable(config, s) && t in s.world.turns && s.world.turns[t].status != Scored
    ensures !Queued(s, t)
  {
    PackagingIsNotLost(config, s, t);
  }

  // ------------------------------------------- exportable, and yet out of reach

  const DIRTY := PASSED.(contaminated := true)

  /** One recorded turn is all there is, and nobody holds the lock. */
  ghost predicate Lone(config: Config, s: State, turn: Turn) {
    Reachable(config, s) && s.lock.None? && s.world.turns == map[0 := turn] && turn.audio == Some(RECORDING)
  }

  /** The commit of a lone recording stores the verdict as it is: there is nothing it could duplicate. */
  lemma LoneVerdict(config: Config, s: State, turn: Turn, verdict: Gates)
    requires Lone(config, s, turn) && !verdict.duplicate
    ensures var after := PersistTriage(s.world, 0, verdict, turn.speaker, RECORDING, config.tolerance);
            after.turns == map[0 := turn.(quality := after.turns[0].quality)]
            && after.turns[0].quality.Some? && after.turns[0].quality.value.gates == verdict
  {
    ReachableInv(config, s);
    RetriageVerdict(s.world, s.clean, 0, verdict, config.tolerance);
    hide Register, Reachable;
  }

  /** A new worker claims a waiting job. */
  lemma ClaimedBy(config: Config, s: State, w: WorkerId, key: JobKey) returns (after: State)
    requires Reachable(config, s) && w !in s.workers && key in s.world.jobs && s.world.jobs[key].status == Waiting
    ensures Reachable(config, after)
    ensures var tries := s.world.jobs[key].tries + 1;
            after == SetPc(SetJobs(s, s.world.jobs[key := Job(Processing, tries)]), w, Dispatched(Claim(key, tries)))
  {
    hide Reachable;
    Reach(config, s, StartWorker(w));
    var started := Do(config, s, StartWorker(w));
    Reach(config, started, ClaimNext(w, key));
    after := Do(config, started, ClaimNext(w, key));
  }

  /** A claim is given back by recovery. */
  lemma Recovered(config: Config, s: State, key: JobKey) returns (after: State)
    requires Reachable(config, s) && key in s.world.jobs && s.world.jobs[key].status == Processing
    ensures Reachable(config, after)
    ensures after == SetJobs(s, s.world.jobs[key := s.world.jobs[key].(status := Waiting)])
  {
    hide Reachable;
    Reach(config, s, RecoverStale({key}));
    after := Do(config, s, RecoverStale({key}));
  }

  function Holder(tries: nat): Pc {
    Dispatched(Claim(JobKey(Triage, 0), tries))
  }

  /** Three workers have claimed the same triage job, the later ones after a recovery. */
  lemma ThreeHolders(config: Config) returns (s: State)
    ensures Lone(config, s, Turn(0, AwaitingLabelConfirm, Undecided, 0, Some(RECORDING), None))
    ensures s.workers == map[0 := Holder(1), 1 := Holder(2), 2 := Holder(3)]
    ensures PackageKey(0) !in s.world.jobs && s.world.records == map[] && s.guesses == map[]
  {
    assert Reachable(config, Initial()) by {
      OneWaitingIsReachable(config);
    }
    hide Reachable;
    var key := JobKey(Triage, 0);
    Upload(config, Initial(), 0, 0);
    s := ClaimedBy(config, Uploaded(Initial(), 0, 0), 0, key);
    s := Recovered(config, s, key);
    s := ClaimedBy(config, s, 1, key);
    s := Recovered(config, s, key);
    s := ClaimedBy(config, s, 2, key);
  }

  /** A slow holder of the triage job commits its verdict; a package job that is there stays as it is. */
  lemma SlowCommit(config: Config, s: State, turn: Turn, w: WorkerId, tries: nat, verdict: Gates)
    returns (after: State, turn': Turn)
    requires Lone(config, s, turn) && !verdict.duplicate && w in s.workers && s.workers[w] == Holder(tries)
    requires turn.status != Scored || PackageKey(0) in s.world.jobs
    ensures Lone(config, after, turn') && turn'.quality.Some? && turn' == turn.(quality := turn'.quality)
    ensures turn'.quality.value.gates == verdict
    ensures after.workers == s.workers[w := CountingTriage(Claim(JobKey(Triage, 0), tries))]
    ensures after.world.jobs == s.world.jobs && after.world.records == s.world.records && after.guesses == s.guesses
  {
    var input := Input(verdict, 0);
    LoneVerdict(config, s, turn, verdict);
    hide Reachable, PersistTriage, NextWorld;
    Reach(config, s, Work(w, input));
    var listening := Do(config, s, Work(w, input));
    assert listening == s.(workers := s.workers[w := Listening(Claim(JobKey(Triage, 0), tries), turn.speaker, RECORDING)]);
    Reach(config, listening, Work(w, input));
    after := Do(config, listening, Work(w, input));
    turn' := after.world.turns[0];
  }

  /** Label and guess are given; the continuation queues the package job. */
  lemma PackageQueued(config: Config, s: State, turn: Turn) returns (after: State, turn': Turn)
    requires Lone(config, s, turn) && turn.status == AwaitingLabelConfirm && turn.quality.Some?
    requires PackageKey(0) !in s.world.jobs
    ensures Lone(config, after, turn') && turn'.quality == turn.quality && turn'.status == Scored && turn'.outcome == Validated
    ensures after.workers == s.workers && after.world.records == s.world.records
    ensures PackageKey(0) in after.world.jobs && after.world.jobs[PackageKey(0)] == Job(Waiting, 0)
  {
    hide Reachable;
    Reach(config, s, ConfirmLabel(0));
    var confirmed := Do(config, s, ConfirmLabel(0));
    Reach(config, confirmed, ApplyGuess(0, true));
    var guessed := Do(config, confirmed, ApplyGuess(0, true));
    Reach(config, guessed, ContinueGuess(0));
    var reread := Do(config, guessed, ContinueGuess(0));
    Reach(config, reread, ContinueGuess(0));
    after := Do(config, reread, ContinueGuess(0));
    turn' := after.world.turns[0];
  }

  /** A package worker that finds no record gets as far as writing an eligible one. */
  lemma RecordWritten(config: Config, s: State, turn: Turn, w: WorkerId, claim: Claim) returns (after: State)
    requires Lone(config, s, turn) && turn.status == Scored && turn.outcome == Validated
    requires turn.quality.Some? && turn.quality.value.gates == PASSED && s.world.records == map[]
    requires w in s.workers && s.workers[w] == Dispatched(claim) && claim.key == PackageKey(0)
    ensures Lone(config, after, turn) && w in after.workers && after.workers == s.workers[w := after.workers[w]]
    ensures after.world == s.world.(records := map[0 := Record(GoldenRecord(0, turn, 0), true, None)])
  {
    hide Reachable, Register, GameStep;
    Reach(config, s, Work(w, INPUT));
    var probing := Do(config, s, Work(w, INPUT));
    Reach(config, probing, Work(w, INPUT));
    var creating := Do(config, probing, Work(w, INPUT));
    Reach(config, creating, Work(w, INPUT));
    after := Do(config, creating, Work(w, INPUT));
  }

  /** A package worker writes the record and dies; its claim is recovered. */
  lemma RecordLeft(config: Config, s: State, turn: Turn, w: WorkerId) returns (after: State)
    requires Lone(config, s, turn) && turn.status == Scored && turn.outcome == Validated
    requires turn.quality.Some? && turn.quality.value.gates == PASSED
    requires w !in s.workers && s.world.records == map[]
    requires PackageKey(0) in s.world.jobs && s.world.jobs[PackageKey(0)].status == Waiting
    ensures Lone(config, after, turn) && after.workers == s.workers[w := Idle]
    ensures 0 in after.world.records && after.world.records[0].eligible && after.world.records[0].shard.None?
    ensures PackageKey(0) in after.world.jobs && after.world.jobs[PackageKey(0)].status == Waiting
  {
    hide Reachable;
    var claimed := ClaimedBy(config, s, w, PackageKey(0));
    var created := RecordWritten(config, claimed, turn, w, claimed.workers[w].claim);
    Reach(config, created, Crash(w));
    after := Recovered(config, Do(config, created, Crash(w)), PackageKey(0));
  }

  /** A package run that reads a failed gate completes its job and touches nothing else. */
  lemma GateEndsRun(config: Config, world: World, claim: Claim, input: Input)
    requires claim.key == PackageKey(0) && ReadyToPackage(world.turns, 0) && 0 in world.records
    requires world.turns[0].quality.value.gates == DIRTY
    ensures RunOut(config, world, Dispatched(claim), input) == world.(jobs := CompleteJob(world.jobs, claim.key))
  {
    var golden := GoldenRecord(0, world.turns[0], input.now);
    assert RunOut(config, world, Dispatched(claim), input) == RunOut(config, world, Probing(claim, golden, false), input);
    assert RunOut(config, world, Probing(claim, golden, false), input) == RunOut(config, world, Finishing(claim), input);
    EndsReporting(config, world, claim, input);
  }

  lemma PackageEnds(config: Config, s: State, turn: Turn, w: WorkerId) returns (after: State)
    requires Lone(config, s, turn) && turn.status == Scored && turn.quality.Some? && turn.quality.value.gates == DIRTY
    requires w !in s.workers && 0 in s.world.records
    requires PackageKey(0) in s.world.jobs && s.world.jobs[PackageKey(0)].status == Waiting
    ensures Lone(config, after, turn) && after.workers == s.workers[w := Idle] && after.world.records == s.world.records
    ensures IsComplete(after, PackageKey(0))
  {
    hide Reachable, RunOut, LockOk, Do;
    var claimed := ClaimedBy(config, s, w, PackageKey(0));
    LockIsFree(config, claimed);
    var run := RunOutIsRun(config, claimed, w, INPUT);
    GateEndsRun(config, claimed.world, claimed.workers[w].claim, INPUT);
    ReachableAfter(config, claimed, run);
    after := After(config, claimed, run);
  }

  /**
   Triage passes, the package worker writes an eligible record and dies, a second triage commit
   fails a gate, the next package run reads it and completes the job, and a third triage commit
   passes again: the turn is due and its package job is over.
   */
  lemma DueButOver(config: Config)
    ensures exists s :: Reachable(config, s) && Due(s.world, 0) && Over(config, s, PackageKey(0))
  {
    hide Reachable;
    var s := ThreeHolders(config);
    var turn: Turn;
    s, turn := SlowCommit(config, s, Turn(0, AwaitingLabelConfirm, Undecided, 0, Some(RECORDING), None), 0, 1, PASSED);
    s, turn := PackageQueued(config, s, turn);
    s := RecordLeft(config, s, turn, 3);
    s, turn := SlowCommit(config, s, turn, 1, 2, DIRTY);
    s := PackageEnds(config, s, turn, 4);
    s, turn := SlowCommit(config, s, turn, 2, 3, PASSED);
    assert Due(s.world, 0) && Over(config, s, PackageKey(0));
  }

  /** So an exportable turn can be kept out of the corpus for ever. */
  lemma NeverLinked(config: Config)
    ensures exists s :: Reachable(config, s) && Due(s.world, 0) && !CanBeLinked(config, s, 0)
  {
    DueButOver(config);
    hide Reachable, Due, CanBeLinked;
    var s :| Reachable(config, s) && Due(s.world, 0) && Over(config, s, PackageKey(0));
    LinkableExactlyWhen(config, s, 0);
  }
}
