/**
 When a turn that should be in the corpus can still get there (worker/service.py,
 worker/repository.py).  A package job is queued once and never again, so what matters is whether
 its row can still be claimed, or one of its holders can still export or put it back.
 */
module Linkable {
  import opened Wrappers
  import opened Records
  import opened Corpus
  import opened World
  import opened Protocol
  import opened Invariant
  import opened ActionProofs
  import opened Guarantees
  import opened Convergence
  import opened Claims
  import opened History

  function PackageKey(t: TurnId): JobKey {
    JobKey(JobKind.Package, t)
  }

  predicate Linked(world: World, t: TurnId) {
    t in world.records && world.records[t].shard.Some?
  }

  /** Both gates allow the export, and it has not happened. */
  ghost predicate Due(world: World, t: TurnId) {
    ReadyToPackage(world.turns, t) && Exportable(world, t) && !Linked(world, t)
  }

  ghost predicate CanBeLinked(config: Config, s: State, t: TurnId) {
    exists run :: CanRun(config, s, run) && Linked(After(config, s, run).world, t)
  }

  /** The handler is still on its way to the link: it has not turned away and not raised. */
  predicate Exports(pc: Pc) {
    pc.Dispatched? || ((pc.Probing? || pc.Creating? || pc.CountingRecord? || pc.Reloading?) && pc.eligible)
    || pc.Locking? || pc.Inspecting? || pc.Searching? || pc.Relinking? || pc.Appending? || pc.Linking?
  }

  /** What the job is for, the commit or the link, is still ahead of the handler. */
  predicate Ahead(pc: Pc) {
    Exports(pc) || pc.Listening?
  }

  /** A holder that will neither do what the job is for nor, if it fails, put the job back. */
  predicate Hopeless(config: Config, pc: Pc) {
    !pc.Idle? && !Ahead(pc) && pc.claim.tries >= config.maxTries
  }

  /** The job is finished or parked, and none of its holders can change that for good. */
  ghost predicate Over(config: Config, s: State, key: JobKey) {
    && key in s.world.jobs && (s.world.jobs[key].status == Complete || s.world.jobs[key].status == Failed)
    && forall w :: w in s.workers && Holds(s.workers[w], key) ==> Hopeless(config, s.workers[w])
  }

  // ------------------------------------------------------------- handlers by kind

  /** Each section of the handlers runs for its own kind of job. */
  predicate KindOk(pc: Pc) {
    && (pc.Listening? || pc.CountingTriage? ==> pc.claim.key.kind == Triage)
    && (pc.Probing? || pc.Creating? || pc.CountingRecord? || pc.Reloading? || pc.Locking? || Critical(pc) ==>
          pc.claim.key.kind == Package)
  }

  ghost predicate KindsOk(s: State) {
    forall w :: w in s.workers ==> KindOk(s.workers[w])
  }

  lemma NextKind(config: Config, world: World, pc: Pc, input: Input)
    requires KindOk(pc)
    ensures KindOk(NextPc(config, world, pc, input))
  {
    hide GoldenRecord, Eligible, AppendLine, Find;
  }

  lemma DoKeepsKinds(config: Config, s: State, action: Action)
    requires KindsOk(s) && Enabled(config, s, action)
    ensures KindsOk(Do(config, s, action))
  {
    if action.Work? {
      WorkShape(config, s, action.worker, action.input);
      NextKind(config, s.world, s.workers[action.worker], action.input);
    }
    hide NextPc, NextWorld, WorkStep;
  }

  lemma {:induction false} RunKeepsKinds(config: Config, s: State, run: seq<Action>)
    requires KindsOk(s) && CanRun(config, s, run)
    ensures KindsOk(After(config, s, run))
    decreases |run|
  {
    hide KindsOk, Do, Enabled;
    if run != [] {
      DoKeepsKinds(config, s, run[0]);
      RunKeepsKinds(config, Do(config, s, run[0]), run[1..]);
    }
  }

  lemma ReachableKinds(config: Config, s: State)
    requires Reachable(config, s)
    ensures KindsOk(s)
  {
    var run :| CanRun(config, Initial(), run) && After(config, Initial(), run) == s;
    RunKeepsKinds(config, Initial(), run);
  }

  // ------------------------------------------------------------------ once it is over

  lemma HopelessStays(config: Config, world: World, pc: Pc, input: Input)
    requires Hopeless(config, pc)
    ensures var next := NextPc(config, world, pc, input);
            next.Idle? || (Hopeless(config, next) && next.claim == pc.claim)
  {
    hide GoldenRecord, Eligible, AppendLine, Find;
  }

  /** Only a holder of the turn's package job that exports can link the turn. */
  lemma LinksOnlyByExport(config: Config, world: World, pc: Pc, input: Input, t: TurnId)
    requires KindOk(pc) && !Linked(world, t)
    requires Holds(pc, PackageKey(t)) ==> !Exports(pc)
    ensures !Linked(NextWorld(config, world, pc, input), t)
  {
    hide AppendLine, Register, StoredQuality;
  }

  lemma OtherActionsKeepRecords(config: Config, s: State, action: Action)
    requires Enabled(config, s, action) && !action.Work?
    ensures Do(config, s, action).world.records == s.world.records
  {
  }

  /** What is over stays over. */
  lemma DoKeepsOver(config: Config, s: State, action: Action, key: JobKey)
    requires Over(config, s, key) && Enabled(config, s, action)
    ensures Over(config, Do(config, s, action), key)
  {
    var after := Do(config, s, action);
    DoOnJob(config, s, action, key);
    forall w | w in after.workers && Holds(after.workers[w], key) ensures Hopeless(config, after.workers[w]) {
      HoldsAfter(config, s, action, w, key);
      HopelessAfter(config, s, action, w, key);
    }
    hide Do, NextPc, NextWorld, Ahead;
  }

  lemma HopelessAfter(config: Config, s: State, action: Action, w: WorkerId, key: JobKey)
    requires Enabled(config, s, action) && Over(config, s, key)
    requires w in Do(config, s, action).workers && Holds(Do(config, s, action).workers[w], key)
    ensures Hopeless(config, Do(config, s, action).workers[w])
  {
    HoldsAfter(config, s, action, w, key);
    if action.Work? {
      WorkShape(config, s, action.worker, action.input);
      if action.worker == w {
        HopelessStays(config, s.world, s.workers[w], action.input);
      }
    }
    hide NextPc, NextWorld;
  }

  lemma OverIsUnlinked(config: Config, s: State, action: Action, t: TurnId)
    requires KindsOk(s) && Over(config, s, PackageKey(t)) && !Linked(s.world, t) && Enabled(config, s, action)
    ensures !Linked(Do(config, s, action).world, t)
  {
    hide Do, NextPc, NextWorld, Exports, Linked, KindOk;
    if action.Work? {
      WorkShape(config, s, action.worker, action.input);
      LinksOnlyByExport(config, s.world, s.workers[action.worker], action.input, t);
    } else {
      OtherActionsKeepRecords(config, s, action);
      LinkedReads(s.world, Do(config, s, action).world, t);
    }
  }

  lemma LinkedReads(world: World, after: World, t: TurnId)
    requires after.records == world.records
    ensures Linked(after, t) <==> Linked(world, t)
  {
  }

  lemma {:induction false} OverForGood(config: Config, s: State, run: seq<Action>, t: TurnId)
    requires KindsOk(s) && Over(config, s, PackageKey(t)) && !Linked(s.world, t) && CanRun(config, s, run)
    ensures !Linked(After(config, s, run).world, t)
    decreases |run|
  {
    hide KindsOk, Over, Linked, Do, Enabled;
    if run != [] {
      DoKeepsKinds(config, s, run[0]);
      DoKeepsOver(config, s, run[0], PackageKey(t));
      OverIsUnlinked(config, s, run[0], t);
      OverForGood(config, Do(config, s, run[0]), run[1..], t);
    }
  }

  // ------------------------------------------------------------------ until it is over

  /** Before the lock: the handler reads what makes it go on, and creates the record if there is none. */
  lemma PackageMoves(config: Config, world: World, clean: set<TurnId>, pc: Pc, input: Input, t: TurnId)
    requires PcOk(world, clean, pc) && Holds(pc, PackageKey(t)) && Exports(pc) && !Critical(pc) && Due(world, t)
    ensures var next := NextPc(config, world, pc, input);
            Exports(next) && next.claim == pc.claim && Due(NextWorld(config, world, pc, input), t)
  {
    hide Faithful, PersistTriage;
  }

  /** Under the lock: the line is found or appended, and linked. */
  lemma LockedMoves(config: Config, world: World, clean: set<TurnId>, pc: Pc, input: Input, t: TurnId)
    requires PcOk(world, clean, pc) && Holds(pc, PackageKey(t)) && Exports(pc) && Critical(pc) && Due(world, t)
    requires t in world.records ==> world.records[t].golden.utterance == Some(t)
    ensures var next := NextPc(config, world, pc, input);
            var after := NextWorld(config, world, pc, input);
            if pc.Relinking? || pc.Linking? then Linked(after, t)
            else Exports(next) && next.claim == pc.claim && Due(after, t)
  {
    hide Faithful, PersistTriage, Find, Put, Current;
  }

  /** One more step of an exporting handler: it goes on exporting, or the link is there. */
  lemma ExportStep(config: Config, s: State, w: WorkerId, input: Input, t: TurnId)
    requires Inv(config, s) && Enabled(config, s, Work(w, input))
    requires Holds(s.workers[w], PackageKey(t)) && Exports(s.workers[w]) && Due(s.world, t)
    ensures var next := NextPc(config, s.world, s.workers[w], input);
            var world := NextWorld(config, s.world, s.workers[w], input);
            if s.workers[w].Relinking? || s.workers[w].Linking? then Linked(world, t)
            else Exports(next) && next.claim == s.workers[w].claim && Due(world, t)
  {
    hide NextPc, NextWorld, Exports, Due, TablesOk, QueueOk, CriticalOk, LockOk, CountersOk;
    assert PcOk(s.world, s.clean, s.workers[w]);
    if t in s.world.records {
      RecordFacts(config, s, t);
    }
    hide Inv, PcOk;
    if Critical(s.workers[w]) {
      LockedMoves(config, s.world, s.clean, s.workers[w], input, t);
    } else {
      PackageMoves(config, s.world, s.clean, s.workers[w], input, t);
      assert !s.workers[w].Relinking? && !s.workers[w].Linking?;
    }
  }

  lemma RecordFacts(config: Config, s: State, t: TurnId)
    requires Inv(config, s) && t in s.world.records
    ensures s.world.records[t].golden.utterance == Some(t)
  {
    hide CriticalOk, LockOk, CountersOk, QueueOk, WorkersOk;
    assert RecordOk(s.world.turns, s.clean, s.world.shards, t, s.world.records[t]);
  }

  /** Nobody else is in the way: the lock is free or this worker's. */
  predicate Clear(s: State, w: WorkerId) {
    s.lock.None? || s.lock == Some(w)
  }

  lemma LockKept(config: Config, s: State, w: WorkerId, input: Input)
    requires Enabled(config, s, Work(w, input)) && Clear(s, w)
    ensures Clear(Do(config, s, Work(w, input)), w)
  {
    hide NextPc, NextWorld;
  }

  /** The worker holds the turn's package job on the way to the link, with nobody in the way. */
  ghost predicate OnTheWay(config: Config, s: State, w: WorkerId, t: TurnId) {
    Inv(config, s) && Clear(s, w) && w in s.workers && Holds(s.workers[w], PackageKey(t)) && Exports(s.workers[w]) && Due(s.world, t)
  }

  lemma ExporterIsEnabled(config: Config, s: State, w: WorkerId, input: Input, t: TurnId)
    requires OnTheWay(config, s, w, t)
    ensures Enabled(config, s, Work(w, input))
  {
    hide Inv, Due;
    assert Inv(config, s);
    LockedIsCritical(config, s);
  }

  lemma LockedIsCritical(config: Config, s: State)
    requires Inv(config, s)
    ensures s.lock.Some? ==> s.lock.value in s.workers && Critical(s.workers[s.lock.value])
  {
    hide TablesOk, QueueOk, WorkersOk, CriticalOk, CountersOk;
  }

  lemma ExportOnce(config: Config, s: State, w: WorkerId, input: Input, t: TurnId)
    requires OnTheWay(config, s, w, t) && Enabled(config, s, Work(w, input))
    ensures var next := Do(config, s, Work(w, input));
            || Linked(next.world, t)
            || (OnTheWay(config, next, w, t) && StepsLeft(next.workers[w]) < StepsLeft(s.workers[w]))
  {
    hide Do, NextPc, NextWorld, Inv, Due, Linked, StepsLeft;
    ExportStep(config, s, w, input, t);
    WorkShape(config, s, w, input);
    LockKept(config, s, w, input);
    StepsShrink(config, s.world, s.workers[w], input);
    DoKeepsInv(config, s, Work(w, input));
  }

  /** Left alone, an exporting handler gets there. */
  lemma {:induction false} ExportRun(config: Config, s: State, w: WorkerId, input: Input, t: TurnId)
    requires OnTheWay(config, s, w, t)
    ensures CanBeLinked(config, s, t)
    decreases if w in s.workers then StepsLeft(s.workers[w]) else 0
  {
    assert w in s.workers;
    ExporterIsEnabled(config, s, w, input, t);
    ExportOnce(config, s, w, input, t);
    var next := Do(config, s, Work(w, input));
    hide Do, OnTheWay, Linked, Enabled;
    if Linked(next.world, t) {
      AlreadyLinked(config, next, t);
    } else {
      assert OnTheWay(config, next, w, t);
      StillThere(config, next, w, t);
      ExportRun(config, next, w, input, t);
    }
    OneStepFirst(config, s, Work(w, input), t);
  }

  lemma StillThere(config: Config, s: State, w: WorkerId, t: TurnId)
    requires OnTheWay(config, s, w, t)
    ensures w in s.workers
  {
  }

  lemma AlreadyLinked(config: Config, s: State, t: TurnId)
    requires Linked(s.world, t)
    ensures CanBeLinked(config, s, t)
  {
    assert CanRun(config, s, []) && After(config, s, []) == s;
  }

  lemma OneStepFirst(config: Config, s: State, action: Action, t: TurnId)
    requires Enabled(config, s, action) && CanBeLinked(config, Do(config, s, action), t)
    ensures CanBeLinked(config, s, t)
  {
    hide Do, Enabled, Linked;
    var run :| CanRun(config, Do(config, s, action), run) && Linked(After(config, Do(config, s, action), run).world, t);
    RunOne(config, s, action, run);
  }

  // -------------------------------------------------------------------- four ways

  lemma FreshWorker(workers: map<WorkerId, Pc>) returns (w: WorkerId)
    ensures w !in workers
  {
    w := AboveAll(workers.Keys);
  }

  lemma {:induction false} AboveAll(ids: set<WorkerId>) returns (w: WorkerId)
    ensures forall id :: id in ids ==> id < w
    decreases ids
  {
    if ids == {} {
      w := 0;
    } else {
      var id :| id in ids;
      var rest := AboveAll(ids - {id});
      w := if id < rest then rest else id + 1;
      assert forall other :: other in ids ==> other == id || other in ids - {id};
    }
  }

  lemma CrashShape(config: Config, s: State, v: WorkerId)
    requires v in s.workers && s.lock == Some(v)
    ensures Do(config, s, Crash(v)) == s.(workers := s.workers[v := Idle], lock := None)
  {
    hide WorkStep, GameStep;
  }

  lemma FromExporter(config: Config, s: State, w: WorkerId, t: TurnId)
    requires Inv(config, s) && w in s.workers && Holds(s.workers[w], PackageKey(t)) && Exports(s.workers[w]) && Due(s.world, t)
    ensures CanBeLinked(config, s, t)
  {
    hide Inv, Due, Exports, Do, CanBeLinked, Clear, Holds;
    if Clear(s, w) {
      ExportRun(config, s, w, Input(Gates(true, true, true, false, false), 0), t);
    } else {
      FromBlocked(config, s, w, t);
    }
  }

  /** The worker inside the lock dies first. */
  lemma FromBlocked(config: Config, s: State, w: WorkerId, t: TurnId)
    requires Inv(config, s) && w in s.workers && Holds(s.workers[w], PackageKey(t)) && Exports(s.workers[w]) && Due(s.world, t)
    requires !Clear(s, w)
    ensures CanBeLinked(config, s, t)
  {
    hide Inv, Due, Exports, Do, CanBeLinked;
    var v := s.lock.value;
    LockedIsCritical(config, s);
    CrashShape(config, s, v);
    DoKeepsInv(config, s, Crash(v));
    ExportRun(config, Do(config, s, Crash(v)), w, Input(Gates(true, true, true, false, false), 0), t);
    OneStepFirst(config, s, Crash(v), t);
  }

  lemma ClaimShape(config: Config, s: State, w: WorkerId, key: JobKey)
    requires Enabled(config, s, ClaimNext(w, key))
    ensures var after := Do(config, s, ClaimNext(w, key));
            && after.workers == s.workers[w := Dispatched(Claim(key, s.world.jobs[key].tries + 1))]
            && after.world == s.world.(jobs := after.world.jobs)
  {
    hide WorkStep, GameStep, RecoverStaleClaims;
  }

  lemma DueReads(world: World, jobs: map<JobKey, Job>, t: TurnId)
    requires Due(world, t)
    ensures Due(world.(jobs := jobs), t)
  {
  }

  /** A new worker claims the waiting job and exports. */
  lemma FromWaiting(config: Config, s: State, t: TurnId)
    requires Inv(config, s) && Due(s.world, t) && PackageKey(t) in s.world.jobs && s.world.jobs[PackageKey(t)].status == Waiting
    ensures CanBeLinked(config, s, t)
  {
    hide Inv, Do, Due;
    var key := PackageKey(t);
    var w := FreshWorker(s.workers);
    DoKeepsInv(config, s, StartWorker(w));
    var started := Do(config, s, StartWorker(w));
    assert started == SetPc(s, w, Idle) by {
      StartShape(config, s, w);
    }
    DoKeepsInv(config, started, ClaimNext(w, key));
    ClaimShape(config, started, w, key);
    DueReads(s.world, Do(config, started, ClaimNext(w, key)).world.jobs, t);
    FromExporter(config, Do(config, started, ClaimNext(w, key)), w, t);
    OneStepFirst(config, started, ClaimNext(w, key), t);
    OneStepFirst(config, s, StartWorker(w), t);
  }

  lemma StartShape(config: Config, s: State, w: WorkerId)
    requires Enabled(config, s, StartWorker(w))
    ensures Do(config, s, StartWorker(w)) == SetPc(s, w, Idle)
  {
    hide WorkStep, GameStep;
  }

  lemma RecoverShape(config: Config, s: State, key: JobKey)
    requires key in s.world.jobs && s.world.jobs[key].status == Processing
    ensures var after := Do(config, s, RecoverStale({key}));
            && after.world == s.world.(jobs := after.world.jobs)
            && key in after.world.jobs && after.world.jobs[key].status == Waiting
  {
    hide WorkStep, GameStep;
  }

  lemma FromProcessing(config: Config, s: State, t: TurnId)
    requires Inv(config, s) && Due(s.world, t) && PackageKey(t) in s.world.jobs && s.world.jobs[PackageKey(t)].status == Processing
    ensures CanBeLinked(config, s, t)
  {
    hide Inv, Do, Due;
    var recover := RecoverStale({PackageKey(t)});
    DoKeepsInv(config, s, recover);
    RecoverShape(config, s, PackageKey(t));
    DueReads(s.world, Do(config, s, recover).world.jobs, t);
    FromWaiting(config, Do(config, s, recover), t);
    OneStepFirst(config, s, recover, t);
  }

  /** On the way to a failure the tables stay, and the failure of a claim below the limit puts the job back. */
  lemma FailureShape(config: Config, s: State, w: WorkerId, key: JobKey, input: Input)
    requires w in s.workers && Holds(s.workers[w], key) && key in s.world.jobs && s.workers[w].claim.tries < config.maxTries
    ensures Enabled(config, s, TowardsFailure(s, w, input))
    ensures var after := Do(config, s, TowardsFailure(s, w, input));
            && after.world == s.world.(jobs := after.world.jobs) && key in after.world.jobs
            && if s.workers[w].Failing? then after.world.jobs[key].status == Waiting
               else w in after.workers && Holds(after.workers[w], key) && after.workers[w].claim == s.workers[w].claim
                    && ToFailure(after.workers[w]) < ToFailure(s.workers[w])
  {
    hide GoldenRecord, Eligible, AppendLine, PersistTriage, CreateRecord, SetRecordShard, GameStep, RecoverStaleClaims;
  }

  lemma {:induction false} FromHolder(config: Config, s: State, w: WorkerId, t: TurnId)
    requires Inv(config, s) && Due(s.world, t) && PackageKey(t) in s.world.jobs
    requires w in s.workers && Holds(s.workers[w], PackageKey(t)) && s.workers[w].claim.tries < config.maxTries
    ensures CanBeLinked(config, s, t)
    decreases ToFailure(s.workers[w])
  {
    var input := Input(Gates(true, true, true, false, false), 0);
    var action := TowardsFailure(s, w, input);
    FailureShape(config, s, w, PackageKey(t), input);
    DoKeepsInv(config, s, action);
    var next := Do(config, s, action);
    hide Inv, Do, Due, TowardsFailure, ToFailure, Enabled;
    DueReads(s.world, next.world.jobs, t);
    if s.workers[w].Failing? {
      FromWaiting(config, next, t);
    } else {
      FromHolder(config, next, w, t);
    }
    OneStepFirst(config, s, action, t);
  }

  lemma ContinueShape(config: Config, s: State, t: TurnId)
    requires t in s.guesses && ReadyToPackage(s.world.turns, t) && PackageKey(t) !in s.world.jobs
    ensures var next := Do(config, s, ContinueGuess(t));
            if s.guesses[t].RereadQuality? then next == s.(guesses := s.guesses[t := EnqueuePackage])
            else next == SetJobs(s, s.world.jobs[PackageKey(t) := Job(Waiting, 0)]).(guesses := s.guesses - {t})
  {
    hide WorkStep, RecoverStaleClaims;
  }

  /** The continuation of the guess queues the job, at once or after reading the quality. */
  lemma FromPending(config: Config, s: State, t: TurnId)
    requires Inv(config, s) && Due(s.world, t) && PackageKey(t) !in s.world.jobs && t in s.guesses
    ensures CanBeLinked(config, s, t)
    decreases s.guesses[t].RereadQuality?
  {
    hide Inv, Exportable, Linked, CanBeLinked, Do;
    var next := Do(config, s, ContinueGuess(t));
    DoKeepsInv(config, s, ContinueGuess(t));
    ContinueShape(config, s, t);
    DueReads(s.world, next.world.jobs, t);
    if s.guesses[t].RereadQuality? {
      FromPending(config, next, t);
    } else {
      FromWaiting(config, next, t);
    }
    OneStepFirst(config, s, ContinueGuess(t), t);
  }

  /** From every job row, and every continuation, that still has a way. */
  lemma FromJob(config: Config, s: State, t: TurnId)
    requires Inv(config, s) && KindsOk(s) && Due(s.world, t) && PackageKey(t) in s.world.jobs && !Over(config, s, PackageKey(t))
    ensures CanBeLinked(config, s, t)
  {
    hide Inv, Due, Linked, Exports, CanBeLinked;
    var status := s.world.jobs[PackageKey(t)].status;
    if status == Waiting {
      FromWaiting(config, s, t);
    } else if status == Processing {
      FromProcessing(config, s, t);
    } else {
      var w :| w in s.workers && Holds(s.workers[w], PackageKey(t)) && !Hopeless(config, s.workers[w]);
      if Exports(s.workers[w]) {
        FromExporter(config, s, w, t);
      } else {
        FromHolder(config, s, w, t);
      }
    }
  }

  /**
   A due turn whose package job is queued, or is still to be queued by the guess, can be linked in
   some run if and only if the job is not over: it is not finished or parked, or one of its holders
   is still on its way to the link or would put the job back if it failed.
   */
  lemma LinkableExactlyWhen(config: Config, s: State, t: TurnId)
    requires Reachable(config, s) && Due(s.world, t) && !Stranded(s, t)
    ensures CanBeLinked(config, s, t) <==> !Over(config, s, PackageKey(t))
  {
    ReachableInv(config, s);
    ReachableKinds(config, s);
    if Over(config, s, PackageKey(t)) {
      hide Inv, KindsOk, Due, Linked, Reachable, Over, CanRun, After;
      DueIsNotLinked(s.world, t);
      forall run | CanRun(config, s, run) ensures !Linked(After(config, s, run).world, t) {
        OverForGood(config, s, run, t);
      }
    } else if PackageKey(t) in s.world.jobs {
      hide Inv, KindsOk, Due, Reachable, Over, CanBeLinked;
      FromJob(config, s, t);
    } else {
      assert t in s.guesses by {
        hide Inv, Over, Reachable, CanBeLinked, Exportable;
      }
      hide Inv, Due, Reachable, Over, CanBeLinked;
      FromPending(config, s, t);
    }
  }

  lemma DueIsNotLinked(world: World, t: TurnId)
    requires Due(world, t)
    ensures !Linked(world, t)
  {
  }
}
