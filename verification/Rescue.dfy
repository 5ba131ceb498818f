/**
 When a stranded turn can still reach the corpus (worker/repository.py): its package job was never
 queued, and only another triage commit, one that leaves the turn clean, can still queue it.
 */
module Rescue {
  import opened Fingerprints
  import opened Records
  import opened World
  import opened Protocol
  import opened Invariant
  import opened TriageProofs
  import opened ActionProofs
  import opened Claims
  import opened History
  import opened Linkable

  function TriageKey(t: TurnId): JobKey {
    JobKey(JobKind.Triage, t)
  }

  /** No other stored recording of the speaker matches: triage now would find the turn clean. */
  ghost predicate Unmatched(config: Config, turns: map<TurnId, Turn>, t: TurnId) {
    && t in turns && turns[t].audio.Some?
    && forall u :: u != t && Triaged(turns, u) && turns[u].speaker == turns[t].speaker ==>
         !Matches(turns[u].audio.value, turns[t].audio.value, config.tolerance)
  }

  const VERDICT := Gates(true, true, true, false, false)
  const AGAIN := Input(VERDICT, 0)

  // --------------------------------------------------------------- still possible

  /** Due, not queued, and triage would pass: everything but the commit is there. */
  ghost predicate Rescuable(config: Config, s: State, t: TurnId) {
    Inv(config, s) && Due(s.world, t) && PackageKey(t) !in s.world.jobs && Unmatched(config, s.world.turns, t)
  }

  /** The commit of a passing verdict leaves a due turn due and queues its package job. */
  lemma CommitRescues(config: Config, s: State, w: WorkerId, t: TurnId)
    requires Rescuable(config, s, t) && w in s.workers && Holds(s.workers[w], TriageKey(t)) && s.workers[w].Listening?
    ensures var after := NextWorld(config, s.world, s.workers[w], AGAIN);
            Due(after, t) && PackageKey(t) in after.jobs && after.jobs[PackageKey(t)].status == Waiting
  {
    assert PcOk(s.world, s.clean, s.workers[w]);
    assert TurnsOk(s.world.turns) && OwnersOk(s.world.turns, s.world.owners);
    hide Inv, Register;
    RetriageVerdict(s.world, s.clean, t, VERDICT, config.tolerance);
  }

  lemma FromListening(config: Config, s: State, w: WorkerId, t: TurnId)
    requires Rescuable(config, s, t) && w in s.workers && Holds(s.workers[w], TriageKey(t)) && s.workers[w].Listening?
    ensures CanBeLinked(config, s, t)
  {
    CommitRescues(config, s, w, t);
    hide Inv, Due, Unmatched, NextWorld, NextPc, Do, CanBeLinked;
    WorkShape(config, s, w, AGAIN);
    DoKeepsInv(config, s, Work(w, AGAIN));
    FromWaiting(config, Do(config, s, Work(w, AGAIN)), t);
    OneStepFirst(config, s, Work(w, AGAIN), t);
  }

  /** Job rows, the lock and workers do not matter to what a commit would find. */
  lemma RescuableReads(config: Config, s: State, after: State, t: TurnId)
    requires Rescuable(config, s, t) && Inv(config, after)
    requires after.world == s.world.(jobs := after.world.jobs) && PackageKey(t) !in after.world.jobs
    ensures Rescuable(config, after, t)
  {
    hide Inv, ReadyToPackage, Linked;
    DueReads(s.world, after.world.jobs, t);
  }

  lemma FromDispatched(config: Config, s: State, w: WorkerId, t: TurnId)
    requires Rescuable(config, s, t) && w in s.workers && Holds(s.workers[w], TriageKey(t)) && s.workers[w].Dispatched?
    ensures CanBeLinked(config, s, t)
  {
    hide Inv, Due, CanBeLinked, Matches, Do;
    WorkShape(config, s, w, AGAIN);
    DoKeepsInv(config, s, Work(w, AGAIN));
    var next := Do(config, s, Work(w, AGAIN));
    RescuableReads(config, s, next, t);
    FromListening(config, next, w, t);
    OneStepFirst(config, s, Work(w, AGAIN), t);
  }

  lemma FromTriageWaiting(config: Config, s: State, t: TurnId)
    requires Rescuable(config, s, t) && TriageKey(t) in s.world.jobs && s.world.jobs[TriageKey(t)].status == Waiting
    ensures CanBeLinked(config, s, t)
  {
    hide Inv, Due, Unmatched, CanBeLinked, Do;
    var key := TriageKey(t);
    var w := FreshWorker(s.workers);
    DoKeepsInv(config, s, StartWorker(w));
    StartShape(config, s, w);
    var started := Do(config, s, StartWorker(w));
    DoKeepsInv(config, started, ClaimNext(w, key));
    ClaimShape(config, started, w, key);
    DoOnJob(config, started, ClaimNext(w, key), PackageKey(t));
    var claimed := Do(config, started, ClaimNext(w, key));
    ClaimAddsNoJob(config, started, w, key);
    RescuableReads(config, s, claimed, t);
    FromDispatched(config, claimed, w, t);
    OneStepFirst(config, started, ClaimNext(w, key), t);
    OneStepFirst(config, s, StartWorker(w), t);
  }

  lemma ClaimAddsNoJob(config: Config, s: State, w: WorkerId, key: JobKey)
    requires Enabled(config, s, ClaimNext(w, key))
    ensures Do(config, s, ClaimNext(w, key)).world.jobs.Keys == s.world.jobs.Keys
  {
    LifeShape(config, s, ClaimNext(w, key));
  }

  lemma FromTriageProcessing(config: Config, s: State, t: TurnId)
    requires Rescuable(config, s, t) && TriageKey(t) in s.world.jobs && s.world.jobs[TriageKey(t)].status == Processing
    ensures CanBeLinked(config, s, t)
  {
    hide Inv, Due, Unmatched, CanBeLinked, Do;
    var recover := RecoverStale({TriageKey(t)});
    DoKeepsInv(config, s, recover);
    RecoverShape(config, s, TriageKey(t));
    LifeShape(config, s, recover);
    var recovered := Do(config, s, recover);
    assert PackageKey(t) !in recovered.world.jobs.Keys;
    RescuableReads(config, s, recovered, t);
    FromTriageWaiting(config, recovered, t);
    OneStepFirst(config, s, recover, t);
  }

  /** Had the triage job never been queued, the upload could still queue it. */
  lemma FromTriageMissing(config: Config, s: State, t: TurnId)
    requires Rescuable(config, s, t) && TriageKey(t) !in s.world.jobs
    ensures CanBeLinked(config, s, t)
  {
    var enqueue := EnqueueTriage(t);
    var queued := Do(config, s, enqueue);
    assert queued == SetJobs(s, s.world.jobs[TriageKey(t) := Job(Waiting, 0)]);
    hide Inv, Due, Unmatched, CanBeLinked, Do;
    DoKeepsInv(config, s, enqueue);
    RescuableReads(config, s, queued, t);
    FromTriageWaiting(config, queued, t);
    OneStepFirst(config, s, enqueue, t);
  }

  lemma {:induction false} FromTriageHolder(config: Config, s: State, w: WorkerId, t: TurnId)
    requires Rescuable(config, s, t) && TriageKey(t) in s.world.jobs
    requires w in s.workers && Holds(s.workers[w], TriageKey(t)) && s.workers[w].claim.tries < config.maxTries
    ensures CanBeLinked(config, s, t)
    decreases ToFailure(s.workers[w])
  {
    var action := TowardsFailure(s, w, AGAIN);
    FailureShape(config, s, w, TriageKey(t), AGAIN);
    DoKeepsInv(config, s, action);
    FailureAddsNoJob(config, s, w, AGAIN);
    var next := Do(config, s, action);
    hide Inv, Do, Due, Unmatched, TowardsFailure, ToFailure, Enabled;
    RescuableReads(config, s, next, t);
    if s.workers[w].Failing? {
      FromTriageWaiting(config, next, t);
    } else {
      FromTriageHolder(config, next, w, t);
    }
    OneStepFirst(config, s, action, t);
  }

  lemma FailureAddsNoJob(config: Config, s: State, w: WorkerId, input: Input)
    requires w in s.workers && !s.workers[w].Idle? && Enabled(config, s, TowardsFailure(s, w, input))
    ensures Do(config, s, TowardsFailure(s, w, input)).world.jobs.Keys == s.world.jobs.Keys
  {
    hide PersistTriage, RecoverStaleClaims;
  }

  /** While triage is not over, some run commits it again. */
  lemma TriageRescues(config: Config, s: State, t: TurnId)
    requires Rescuable(config, s, t) && KindsOk(s) && !Over(config, s, TriageKey(t))
    ensures CanBeLinked(config, s, t)
  {
    hide Inv, Due, Unmatched, CanBeLinked, Rescuable;
    if TriageKey(t) !in s.world.jobs {
      FromTriageMissing(config, s, t);
    } else if s.world.jobs[TriageKey(t)].status == Waiting {
      FromTriageWaiting(config, s, t);
    } else if s.world.jobs[TriageKey(t)].status == Processing {
      FromTriageProcessing(config, s, t);
    } else {
      var w :| w in s.workers && Holds(s.workers[w], TriageKey(t)) && !Hopeless(config, s.workers[w]);
      assert KindOk(s.workers[w]);
      if s.workers[w].Listening? {
        FromListening(config, s, w, t);
      } else if s.workers[w].Dispatched? {
        FromDispatched(config, s, w, t);
      } else {
        FromTriageHolder(config, s, w, t);
      }
    }
  }

  // ------------------------------------------------------------- no longer possible

  /** Scored, with nothing queued, nothing pending and nothing recorded. */
  ghost predicate Quiet(s: State, t: TurnId) {
    && t in s.world.turns && s.world.turns[t].status == Scored && t !in s.guesses
    && PackageKey(t) !in s.world.jobs && t !in s.world.records
  }

  /** Another stored recording of the speaker matches, and always will. */
  ghost predicate Matched(config: Config, turns: map<TurnId, Turn>, t: TurnId) {
    t in turns && turns[t].audio.Some? && !Unmatched(config, turns, t)
  }

  /** A handler that has not read the gates yet, or has read that they fail. */
  predicate Dormant(pc: Pc) {
    pc.Dispatched? || !Exports(pc)
  }

  /** Stored as a duplicate, before any eligible record was made of it. */
  ghost predicate Tainted(s: State, t: TurnId) {
    && t in s.world.turns && s.world.turns[t].status == Scored
    && s.world.turns[t].quality.Some? && s.world.turns[t].quality.value.gates.duplicate
    && (t in s.world.records ==> !s.world.records[t].eligible)
    && forall w :: w in s.workers && Holds(s.workers[w], PackageKey(t)) ==> Dormant(s.workers[w])
  }

  /** The turn is lost to the corpus: triage is over, or finds it to be a duplicate. */
  ghost predicate Forsaken(config: Config, s: State, t: TurnId) {
    || (Quiet(s, t) && Over(config, s, TriageKey(t)))
    || (Matched(config, s.world.turns, t) && (Quiet(s, t) || Tainted(s, t)))
  }

  /** The step of a worker that commits triage of this turn. */
  predicate CommitsOn(s: State, action: Action, t: TurnId) {
    && action.Work? && action.worker in s.workers
    && s.workers[action.worker].Listening? && s.workers[action.worker].claim.key.turn == t
  }

  lemma MatchedGrows(config: Config, before: map<TurnId, Turn>, after: map<TurnId, Turn>, t: TurnId)
    requires Matched(config, before, t) && TurnsGrow(before, after)
    ensures Matched(config, after, t)
  {
    hide Matches;
    var u :| u != t && Triaged(before, u) && before[u].speaker == before[t].speaker
             && Matches(before[u].audio.value, before[t].audio.value, config.tolerance);
    assert TurnGrows(before[u], after[u]) && TurnGrows(before[t], after[t]);
    assert Triaged(after, u);
  }

  /** A commit on a turn that matches a stored recording stores it as a duplicate. */
  lemma CommitTaints(config: Config, s: State, w: WorkerId, input: Input, t: TurnId)
    requires Inv(config, s) && Matched(config, s.world.turns, t) && w in s.workers
    requires s.workers[w].Listening? && s.workers[w].claim.key.turn == t
    ensures var after := NextWorld(config, s.world, s.workers[w], input);
            && t in after.turns && after.turns[t].quality.Some? && after.turns[t].quality.value.gates.duplicate
            && after.turns[t].status == s.world.turns[t].status && after.records == s.world.records
  {
    assert PcOk(s.world, s.clean, s.workers[w]);
    assert TurnsOk(s.world.turns) && OwnersOk(s.world.turns, s.world.owners);
    hide Inv, Register, Matches;
    RetriageVerdict(s.world, s.clean, t, input.verdict, config.tolerance);
  }

  /** A row is added to the records only by the handler that creates it. */
  lemma RecordAdded(config: Config, world: World, pc: Pc, input: Input, t: TurnId)
    requires t !in world.records && t in NextWorld(config, world, pc, input).records
    ensures pc.Creating? && pc.claim.key.turn == t
  {
    hide Register, StoredQuality;
  }

  lemma NoHolderWithoutJob(config: Config, s: State, w: WorkerId)
    requires Inv(config, s) && w in s.workers && !s.workers[w].Idle?
    ensures s.workers[w].claim.key in s.world.jobs
  {
    assert PcOk(s.world, s.clean, s.workers[w]);
  }

  // ------------------------------------------------------------------ it stays quiet

  lemma WorkStaysQuiet(config: Config, s: State, w: WorkerId, input: Input, t: TurnId)
    requires Inv(config, s) && KindsOk(s) && Quiet(s, t) && Enabled(config, s, Work(w, input)) && !CommitsOn(s, Work(w, input), t)
    ensures Quiet(Do(config, s, Work(w, input)), t)
  {
    var pc := s.workers[w];
    WorkShape(config, s, w, input);
    NoHolderWithoutJob(config, s, w);
    assert KindOk(pc);
    var after := NextWorld(config, s.world, pc, input);
    if t in after.records {
      RecordAdded(config, s.world, pc, input, t);
      assert false;
    }
    hide Do, NextWorld, NextPc, Inv;
    if pc.Listening? {
      ListenerKnowsTurn(config, s, w);
      CommitWork(config, s.world, pc, input);
    } else {
      OtherWork(config, s.world, pc, input);
      assert PackageKey(t) !in after.jobs.Keys;
    }
  }

  lemma OtherStaysQuiet(config: Config, s: State, action: Action, t: TurnId)
    requires Quiet(s, t) && Enabled(config, s, action) && !action.Work?
    ensures Quiet(Do(config, s, action), t)
  {
    OtherActionsKeepRecords(config, s, action);
    if ByWorkerLife(action) {
      LifeShape(config, s, action);
      assert PackageKey(t) !in Do(config, s, action).world.jobs.Keys;
      hide Do, Enabled;
    } else if action.turn != t {
      GameShape(config, s, action, t);
      hide Do, Enabled;
    } else {
      assert action.EnqueueTriage?;
    }
  }

  // ---------------------------------------------------------------- it stays tainted

  /** The row of a scored turn changes by commits on it alone. */
  lemma OtherLeavesRow(config: Config, s: State, action: Action, t: TurnId)
    requires t in s.world.turns && s.world.turns[t].status == Scored && Enabled(config, s, action) && !action.Work?
    ensures var after := Do(config, s, action).world.turns; t in after && after[t] == s.world.turns[t]
  {
    if ByWorkerLife(action) {
      LifeShape(config, s, action);
      hide Do, Enabled;
    } else if action.turn != t {
      GameShape(config, s, action, t);
      hide Do, Enabled;
    } else {
      assert action.EnqueueTriage? || action.ContinueGuess? || action.CrashGuess?;
    }
  }

  /** A handler that reads failed gates, or has read them, writes no eligible record and exports nothing. */
  lemma DormantMoves(config: Config, world: World, pc: Pc, input: Input, t: TurnId)
    requires Holds(pc, PackageKey(t)) && Dormant(pc) && KindOk(pc)
    requires t in world.turns && world.turns[t].quality.Some? && world.turns[t].quality.value.gates.duplicate
    requires t in world.records ==> !world.records[t].eligible
    ensures var next := NextPc(config, world, pc, input); next.Idle? || Dormant(next)
    ensures var records := NextWorld(config, world, pc, input).records; t in records ==> !records[t].eligible
  {
    hide Register, StoredQuality;
  }

  /** Handlers of other jobs leave the record alone. */
  lemma OthersLeaveRecord(config: Config, world: World, pc: Pc, input: Input, t: TurnId)
    requires !Holds(pc, PackageKey(t)) && KindOk(pc)
    ensures var records := NextWorld(config, world, pc, input).records;
            (t in records <==> t in world.records) && (t in records ==> records[t] == world.records[t])
  {
    hide Register, StoredQuality;
  }

  lemma DormantAfter(config: Config, s: State, action: Action, w: WorkerId, t: TurnId)
    requires Tainted(s, t) && KindsOk(s) && Enabled(config, s, action)
    requires w in Do(config, s, action).workers && Holds(Do(config, s, action).workers[w], PackageKey(t))
    ensures Dormant(Do(config, s, action).workers[w])
  {
    HoldsAfter(config, s, action, w, PackageKey(t));
    if action.Work? {
      WorkShape(config, s, action.worker, action.input);
      if action.worker == w {
        DormantMoves(config, s.world, s.workers[w], action.input, t);
      }
    }
    hide NextPc, NextWorld, KindOk;
  }

  lemma WorkLeavesRow(config: Config, s: State, w: WorkerId, input: Input, t: TurnId)
    requires Inv(config, s) && Enabled(config, s, Work(w, input)) && !CommitsOn(s, Work(w, input), t) && t in s.world.turns
    ensures var after := NextWorld(config, s.world, s.workers[w], input).turns; t in after && after[t] == s.world.turns[t]
  {
    hide NextWorld, Inv;
    if s.workers[w].Listening? {
      ListenerKnowsTurn(config, s, w);
      CommitWork(config, s.world, s.workers[w], input);
    } else {
      OtherWork(config, s.world, s.workers[w], input);
    }
  }

  lemma WorkStaysTainted(config: Config, s: State, w: WorkerId, input: Input, t: TurnId)
    requires Inv(config, s) && KindsOk(s) && Tainted(s, t) && Matched(config, s.world.turns, t)
    requires Enabled(config, s, Work(w, input))
    ensures Tainted(Do(config, s, Work(w, input)), t)
  {
    hide Inv, Do, NextWorld, NextPc, Matched, KindOk, Dormant;
    var pc := s.workers[w];
    var after := Do(config, s, Work(w, input));
    WorkShape(config, s, w, input);
    assert KindOk(pc);
    if CommitsOn(s, Work(w, input), t) {
      CommitTaints(config, s, w, input, t);
    } else {
      WorkLeavesRow(config, s, w, input, t);
      if Holds(pc, PackageKey(t)) {
        DormantMoves(config, s.world, pc, input, t);
      } else {
        OthersLeaveRecord(config, s.world, pc, input, t);
      }
    }
    forall v | v in after.workers && Holds(after.workers[v], PackageKey(t)) ensures Dormant(after.workers[v]) {
      DormantAfter(config, s, Work(w, input), v, t);
    }
  }

  lemma OtherStaysTainted(config: Config, s: State, action: Action, t: TurnId)
    requires KindsOk(s) && Tainted(s, t) && Enabled(config, s, action) && !action.Work?
    ensures Tainted(Do(config, s, action), t)
  {
    hide Do, Dormant, KindsOk, Enabled;
    var after := Do(config, s, action);
    OtherLeavesRow(config, s, action, t);
    OtherActionsKeepRecords(config, s, action);
    forall v | v in after.workers && Holds(after.workers[v], PackageKey(t)) ensures Dormant(after.workers[v]) {
      DormantAfter(config, s, action, v, t);
    }
  }

  /** The first commit after the match was stored: quiet until then, tainted from then on. */
  lemma QuietBecomesTainted(config: Config, s: State, w: WorkerId, input: Input, t: TurnId)
    requires Inv(config, s) && Quiet(s, t) && Matched(config, s.world.turns, t)
    requires Enabled(config, s, Work(w, input)) && CommitsOn(s, Work(w, input), t)
    ensures Tainted(Do(config, s, Work(w, input)), t)
  {
    hide Inv, Do, NextWorld, NextPc, Matched, Dormant;
    var after := Do(config, s, Work(w, input));
    WorkShape(config, s, w, input);
    CommitTaints(config, s, w, input, t);
    forall v | v in after.workers ensures !Holds(after.workers[v], PackageKey(t)) {
      if Holds(after.workers[v], PackageKey(t)) {
        HoldsAfter(config, s, Work(w, input), v, PackageKey(t));
        NoHolderWithoutJob(config, s, v);
      }
    }
  }

  // ------------------------------------------------------------------ over all runs

  lemma OverDoesNotCommit(config: Config, s: State, action: Action, t: TurnId)
    requires KindsOk(s) && Over(config, s, TriageKey(t)) && Enabled(config, s, action)
    ensures !CommitsOn(s, action, t)
  {
    if action.Work? {
      assert KindOk(s.workers[action.worker]);
    }
  }

  lemma DoKeepsForsaken(config: Config, s: State, action: Action, t: TurnId)
    requires Inv(config, s) && KindsOk(s) && Forsaken(config, s, t) && Enabled(config, s, action)
    ensures Forsaken(config, Do(config, s, action), t)
  {
    hide Inv, KindsOk, Do, Quiet, Tainted, Matched, Over, Enabled, CommitsOn;
    var after := Do(config, s, action);
    DoKeepsInv(config, s, action);
    if Quiet(s, t) && !CommitsOn(s, action, t) {
      if action.Work? {
        WorkStaysQuiet(config, s, action.worker, action.input, t);
      } else {
        OtherStaysQuiet(config, s, action, t);
      }
    }
    if Matched(config, s.world.turns, t) {
      MatchedGrows(config, s.world.turns, after.world.turns, t);
      if Tainted(s, t) {
        if action.Work? {
          WorkStaysTainted(config, s, action.worker, action.input, t);
        } else {
          OtherStaysTainted(config, s, action, t);
        }
      } else if CommitsOn(s, action, t) {
        CommitsByWork(s, action, t);
        QuietBecomesTainted(config, s, action.worker, action.input, t);
      }
    } else {
      OverDoesNotCommit(config, s, action, t);
      DoKeepsOver(config, s, action, TriageKey(t));
    }
  }

  lemma CommitsByWork(s: State, action: Action, t: TurnId)
    requires CommitsOn(s, action, t)
    ensures action.Work?
  {
  }

  lemma ForsakenIsUnlinked(config: Config, s: State, t: TurnId)
    requires Inv(config, s) && Forsaken(config, s, t)
    ensures !Linked(s.world, t)
  {
    if t in s.world.records {
      hide WorkersOk, CriticalOk, CountersOk, QueueOk, LockOk, Matched, Over;
      assert RecordOk(s.world.turns, s.clean, s.world.shards, t, s.world.records[t]);
    }
  }

  lemma {:induction false} ForsakenForGood(config: Config, s: State, run: seq<Action>, t: TurnId)
    requires Inv(config, s) && KindsOk(s) && Forsaken(config, s, t) && CanRun(config, s, run)
    ensures !Linked(After(config, s, run).world, t)
    decreases |run|
  {
    hide Inv, KindsOk, Forsaken, Linked, Do, Enabled;
    if run == [] {
      ForsakenIsUnlinked(config, s, t);
    } else {
      DoKeepsInv(config, s, run[0]);
      DoKeepsKinds(config, s, run[0]);
      DoKeepsForsaken(config, s, run[0], t);
      ForsakenForGood(config, Do(config, s, run[0]), run[1..], t);
    }
  }

  // ------------------------------------------------------------------- both ways

  /** A record exists only where a package job does. */
  ghost predicate RecordsQueued(s: State) {
    forall t :: t in s.world.records ==> PackageKey(t) in s.world.jobs
  }

  lemma DoKeepsRecordsQueued(config: Config, s: State, action: Action)
    requires Inv(config, s) && KindsOk(s) && RecordsQueued(s) && Enabled(config, s, action)
    ensures RecordsQueued(Do(config, s, action))
  {
    hide Do, Inv, Grows, KindsOk;
    var after := Do(config, s, action);
    DoKeepsInv(config, s, action);
    forall t | t in after.world.records ensures PackageKey(t) in after.world.jobs {
      if t !in s.world.records {
        RecordIsQueued(config, s, action, t);
      }
      KeysGrow(s.world, after.world, PackageKey(t));
    }
  }

  lemma KeysGrow(before: World, after: World, key: JobKey)
    requires Grows(before, after)
    ensures key in before.jobs ==> key in after.jobs
  {
    if key in before.jobs {
      assert key in before.jobs.Keys && key in after.jobs.Keys;
    }
  }

  lemma RecordIsQueued(config: Config, s: State, action: Action, t: TurnId)
    requires Inv(config, s) && KindsOk(s) && Enabled(config, s, action)
    requires t !in s.world.records && t in Do(config, s, action).world.records
    ensures PackageKey(t) in s.world.jobs
  {
    hide Do, Inv, NextWorld, NextPc;
    if action.Work? {
      WorkShape(config, s, action.worker, action.input);
      RecordAdded(config, s.world, s.workers[action.worker], action.input, t);
      NoHolderWithoutJob(config, s, action.worker);
      assert KindOk(s.workers[action.worker]);
    } else {
      OtherActionsKeepRecords(config, s, action);
    }
  }

  lemma {:induction false} RunKeepsRecordsQueued(config: Config, s: State, run: seq<Action>)
    requires Inv(config, s) && KindsOk(s) && RecordsQueued(s) && CanRun(config, s, run)
    ensures RecordsQueued(After(config, s, run))
    decreases |run|
  {
    hide Inv, KindsOk, RecordsQueued, Do, Enabled;
    if run != [] {
      DoKeepsInv(config, s, run[0]);
      DoKeepsKinds(config, s, run[0]);
      DoKeepsRecordsQueued(config, s, run[0]);
      RunKeepsRecordsQueued(config, Do(config, s, run[0]), run[1..]);
    }
  }

  lemma StrandedIsQuiet(config: Config, s: State, t: TurnId)
    requires Reachable(config, s) && Stranded(s, t)
    ensures Quiet(s, t)
  {
    var run :| CanRun(config, Initial(), run) && After(config, Initial(), run) == s;
    assert CanRun(config, Initial(), []) && After(config, Initial(), []) == Initial();
    ReachableInv(config, Initial());
    hide Inv, CanRun, After;
    RunKeepsRecordsQueued(config, Initial(), run);
  }

  /**
   A stranded turn that is due can be linked in some run if and only if its triage is not over, so
   that it can commit again, and no other stored recording of its speaker matches.
   */
  lemma RescuedExactlyWhen(config: Config, s: State, t: TurnId)
    requires Reachable(config, s) && Due(s.world, t) && Stranded(s, t)
    ensures CanBeLinked(config, s, t) <==> !Over(config, s, TriageKey(t)) && Unmatched(config, s.world.turns, t)
  {
    ReachableInv(config, s);
    ReachableKinds(config, s);
    StrandedIsQuiet(config, s, t);
    DueHasAudio(config, s, t);
    hide Inv, KindsOk, Due, Reachable, Over, Unmatched, CanRun, After, Linked;
    if !Over(config, s, TriageKey(t)) && Unmatched(config, s.world.turns, t) {
      TriageRescues(config, s, t);
    } else {
      forall run | CanRun(config, s, run) ensures !Linked(After(config, s, run).world, t) {
        ForsakenForGood(config, s, run, t);
      }
    }
  }

  lemma DueHasAudio(config: Config, s: State, t: TurnId)
    requires Inv(config, s) && Due(s.world, t)
    ensures t in s.world.turns && s.world.turns[t].audio.Some?
  {
    assert TurnOk(s.world.turns[t]);
  }

  /** For every reachable state: whether an exportable turn can still reach the corpus. */
  lemma DueIsLinkableExactlyWhen(config: Config, s: State, t: TurnId)
    requires Reachable(config, s) && Due(s.world, t)
    ensures CanBeLinked(config, s, t) <==>
            if Stranded(s, t) then !Over(config, s, TriageKey(t)) && Unmatched(config, s.world.turns, t)
            else !Over(config, s, PackageKey(t))
  {
    hide Reachable, Due, Over, Unmatched, CanBeLinked, Stranded;
    if Stranded(s, t) {
      RescuedExactlyWhen(config, s, t);
    } else {
      LinkableExactlyWhen(config, s, t);
    }
  }
}
