/** The remaining actions: claims, recovery, crashes, exceptions and the game's own writes. */
module ActionProofs {
  import opened Wrappers
  import opened Fingerprints
  import opened Records
  import opened World
  import opened Protocol
  import opened Invariant
  import opened Preservation

  // ----------------------------------------------------------- worker life cycle

  lemma StartKeepsInv(config: Config, s: State, w: WorkerId)
    requires Inv(config, s) && w !in s.workers
    ensures Inv(config, SetPc(s, w, Idle))
  {
    hide TablesOk, QueueOk, WorkersOk, CriticalOk, CountersOk;
    assert SetPc(s, w, Idle) == s.(lock := s.lock, workers := s.workers[w := Idle]);
    PcMoveKeepsInv(config, s, w, Idle, s.lock);
  }

  lemma CrashKeepsInv(config: Config, s: State, w: WorkerId)
    requires Inv(config, s) && w in s.workers
    ensures Inv(config, Do(config, s, Crash(w)))
  {
    hide TablesOk, QueueOk, WorkersOk, CriticalOk, CountersOk;
    var lock := if s.lock == Some(w) then None else s.lock;
    assert Do(config, s, Crash(w)) == s.(lock := lock, workers := s.workers[w := Idle]);
    PcMoveKeepsInv(config, s, w, Idle, lock);
  }

  lemma RaiseKeepsInv(config: Config, s: State, w: WorkerId)
    requires Inv(config, s) && Enabled(config, s, Raise(w))
    ensures Inv(config, SetPc(s, w, Raised(s.workers[w])))
  {
    hide TablesOk, QueueOk, CriticalOk, CountersOk;
    var pc := Raised(s.workers[w]);
    assert PcOk(s.world, s.clean, s.workers[w]);
    assert SetPc(s, w, pc) == s.(lock := s.lock, workers := s.workers[w := pc]);
    PcMoveKeepsInv(config, s, w, pc, s.lock);
  }

  lemma ClaimKeepsInv(config: Config, s: State, w: WorkerId, key: JobKey)
    requires Inv(config, s) && Enabled(config, s, ClaimNext(w, key))
    ensures Inv(config, Do(config, s, ClaimNext(w, key)))
    ensures Grows(s.world, Do(config, s, ClaimNext(w, key)).world)
  {
    hide TablesOk, QueueOk, WorkersOk, CriticalOk, LockOk;
    var after := Do(config, s, ClaimNext(w, key));
    JobsWorldOk(config, s, after.world.jobs);
    RecordCountMoves(s.world.records.Keys, s.countedRecords, s.world.recordsTotal, s.workers, w, after.workers[w]);
    OutsideMoveKeepsInv(config, s, after, w, after.workers[w]);
  }

  // --------------------------------------------------------------- job insertions

  /** Jobs are added or change status while the game's continuations move on. */
  lemma JobsMoveKeepsInv(config: Config, s: State, jobs: map<JobKey, Job>, guesses: map<TurnId, GuessPhase>, crashed: set<TurnId>)
    requires Inv(config, s)
    requires s.world.jobs.Keys <= jobs.Keys
    requires forall key :: key in jobs && key !in s.world.jobs ==> JobOk(s.world.turns, key)
    requires QueueOk(s.world.(jobs := jobs), guesses, crashed)
    ensures var after := s.(world := s.world.(jobs := jobs), guesses := guesses, crashedGuesses := crashed);
            Inv(config, after) && Grows(s.world, after.world)
  {
    hide TablesOk, QueueOk, LockOk, PcOk;
    var world := s.world.(jobs := jobs);
    JobsWorldOk(config, s, jobs);
    WorkersGrow(s.world, world, s.clean, s.clean, s.workers);
    if s.lock.Some? && s.lock.value in s.workers {
      HolderKept(s.world, world, s.countedLines, s.workers[s.lock.value]);
    }
  }

  lemma RecoverKeepsInv(config: Config, s: State, stale: set<JobKey>)
    requires Inv(config, s)
    ensures Inv(config, Do(config, s, RecoverStale(stale)))
    ensures Grows(s.world, Do(config, s, RecoverStale(stale)).world)
  {
    hide TablesOk, WorkersOk, CriticalOk, LockOk, CountersOk;
    var jobs := RecoverStaleClaims(s.world.jobs, stale);
    assert jobs.Keys == s.world.jobs.Keys;
    JobsMoveKeepsInv(config, s, jobs, s.guesses, s.crashedGuesses);
    assert Do(config, s, RecoverStale(stale)) == s.(world := s.world.(jobs := jobs), guesses := s.guesses, crashedGuesses := s.crashedGuesses);
  }

  lemma EnqueueTriageKeepsInv(config: Config, s: State, t: TurnId)
    requires Inv(config, s) && Enabled(config, s, EnqueueTriage(t))
    ensures Inv(config, GameStep(config, s, EnqueueTriage(t)))
    ensures Grows(s.world, GameStep(config, s, EnqueueTriage(t)).world)
  {
    hide TablesOk, WorkersOk, CriticalOk, LockOk, CountersOk;
    var jobs := Enqueue(s.world.jobs, JobKey(Triage, t));
    JobsMoveKeepsInv(config, s, jobs, s.guesses, s.crashedGuesses);
    assert GameStep(config, s, EnqueueTriage(t)) == s.(world := s.world.(jobs := jobs), guesses := s.guesses, crashedGuesses := s.crashedGuesses);
  }

  /** The continuation's outcome as a change of jobs and continuations only. */
  function ContinuedJobs(s: State, t: TurnId): map<JobKey, Job>
    requires t in s.guesses
  {
    if s.guesses[t].EnqueuePackage? then Enqueue(s.world.jobs, JobKey(Package, t)) else s.world.jobs
  }

  function ContinuedGuesses(s: State, t: TurnId): map<TurnId, GuessPhase>
    requires t in s.guesses
  {
    if s.guesses[t].RereadQuality? && t in s.world.turns && s.world.turns[t].quality.Some?
    then s.guesses[t := EnqueuePackage] else s.guesses - {t}
  }

  lemma ContinueShape(config: Config, s: State, t: TurnId)
    requires t in s.guesses
    ensures GameStep(config, s, ContinueGuess(t))
         == s.(world := s.world.(jobs := ContinuedJobs(s, t)), guesses := ContinuedGuesses(s, t),
               crashedGuesses := s.crashedGuesses)
  {
  }

  /** Re-reading the quality and enqueueing cannot lose a packaging job. */
  lemma ContinueQueue(s: State, t: TurnId)
    requires QueueOk(s.world, s.guesses, s.crashedGuesses) && t in s.guesses
    ensures QueueOk(s.world.(jobs := ContinuedJobs(s, t)), ContinuedGuesses(s, t), s.crashedGuesses)
  {
    var jobs, guesses := ContinuedJobs(s, t), ContinuedGuesses(s, t);
    forall u | ReadyToPackage(s.world.turns, u)
      ensures JobKey(Package, u) in jobs.Keys || u in guesses.Keys || u in s.crashedGuesses {
      assert JobKey(Package, u) in s.world.jobs.Keys || u in s.guesses.Keys || u in s.crashedGuesses;
    }
  }

  lemma ContinueKeepsInv(config: Config, s: State, t: TurnId)
    requires Inv(config, s) && t in s.guesses
    ensures Inv(config, GameStep(config, s, ContinueGuess(t)))
    ensures Grows(s.world, GameStep(config, s, ContinueGuess(t)).world)
  {
    hide TablesOk, WorkersOk, CriticalOk, LockOk, CountersOk;
    ContinueShape(config, s, t);
    ContinueQueue(s, t);
    JobsMoveKeepsInv(config, s, ContinuedJobs(s, t), ContinuedGuesses(s, t), s.crashedGuesses);
  }

  lemma CrashGuessQueue(s: State, t: TurnId)
    requires QueueOk(s.world, s.guesses, s.crashedGuesses)
    ensures QueueOk(s.world, s.guesses - {t}, s.crashedGuesses + {t})
  {
    forall u | ReadyToPackage(s.world.turns, u)
      ensures JobKey(Package, u) in s.world.jobs.Keys || u in (s.guesses - {t}).Keys || u in s.crashedGuesses + {t} {
    }
  }

  lemma CrashGuessKeepsInv(config: Config, s: State, t: TurnId)
    requires Inv(config, s) && t in s.guesses
    ensures Inv(config, GameStep(config, s, CrashGuess(t)))
    ensures Grows(s.world, GameStep(config, s, CrashGuess(t)).world)
  {
    hide TablesOk, WorkersOk, CriticalOk, LockOk, CountersOk, QueueOk;
    CrashGuessQueue(s, t);
    assert s.world.(jobs := s.world.jobs) == s.world;
    JobsMoveKeepsInv(config, s, s.world.jobs, s.guesses - {t}, s.crashedGuesses + {t});
  }

  // ------------------------------------------------------------------ turn writes

  /** A game write on one turn: it may appear, or advance without touching recording or quality. */
  ghost predicate GameWrite(turns: map<TurnId, Turn>, t: TurnId, turn: Turn) {
    && TurnOk(turn)
    && (if t in turns then TurnGrows(turns[t], turn) && turn.quality == turns[t].quality else turn.quality.None?)
  }

  lemma WriteGrows(turns: map<TurnId, Turn>, t: TurnId, turn: Turn)
    requires TurnsOk(turns) && GameWrite(turns, t, turn)
    ensures TurnsGrow(turns, turns[t := turn]) && TurnsOk(turns[t := turn])
  {
  }

  lemma WriteKeepsClean(turns: map<TurnId, Turn>, clean: set<TurnId>, t: TurnId, turn: Turn, tolerance: Tolerance)
    requires TurnsOk(turns) && CleanOk(turns, clean, tolerance) && GameWrite(turns, t, turn)
    ensures CleanOk(turns[t := turn], clean, tolerance)
  {
    var after := turns[t := turn];
    WriteGrows(turns, t, turn);
    forall u | u in clean ensures Triaged(after, u) && after[u].speaker == turns[u].speaker && after[u].audio == turns[u].audio {
      assert Triaged(turns, u);
      assert TurnGrows(turns[u], after[u]);
    }
    forall u, v | u in clean && v in clean && u != v ensures !SameUtterance(after, u, v, tolerance) {
      assert !SameUtterance(turns, u, v, tolerance);
    }
    forall u | StoredClean(after, u) ensures u in clean {
      assert StoredClean(turns, u);
    }
  }

  lemma WriteKeepsOwners(turns: map<TurnId, Turn>, owners: map<(PlayerId, Digest), TurnId>, t: TurnId, turn: Turn)
    requires OwnersOk(turns, owners) && GameWrite(turns, t, turn)
    ensures OwnersOk(turns[t := turn], owners)
  {
    forall speaker, hash, u
      ensures Owner(owners, speaker, hash, u) <==> Owns(turns[t := turn], speaker, hash, u) {
      assert Owner(owners, speaker, hash, u) <==> Owns(turns, speaker, hash, u);
    }
  }

  lemma WriteTables(config: Config, world: World, clean: set<TurnId>, t: TurnId, turn: Turn)
    requires TablesOk(config, world, clean) && GameWrite(world.turns, t, turn)
    ensures var after := world.(turns := world.turns[t := turn]);
            TablesOk(config, after, clean) && Grows(world, after) && TurnsOk(world.turns)
  {
    var turns := world.turns[t := turn];
    WriteGrows(world.turns, t, turn);
    WriteKeepsClean(world.turns, clean, t, turn, config.tolerance);
    WriteKeepsOwners(world.turns, world.owners, t, turn);
    RecordsOkGrows(world.turns, turns, clean, clean, world.shards, world.shards, world.records);
    JobsOkGrows(world.turns, turns, world.jobs.Keys);
    GrowsReflexive(world);
  }

  lemma WriteQueue(world: World, guesses: map<TurnId, GuessPhase>, guesses': map<TurnId, GuessPhase>, crashed: set<TurnId>,
                   t: TurnId, turn: Turn)
    requires QueueOk(world, guesses, crashed) && GameWrite(world.turns, t, turn) && TurnsOk(world.turns)
    requires guesses' == guesses ||
             (turn.status == Scored && guesses' == guesses[t := RereadQuality])
    requires turn.status == Scored ==> (t in world.turns && world.turns[t].status == Scored) || t in guesses'
    ensures QueueOk(world.(turns := world.turns[t := turn]), guesses', crashed)
  {
    var turns := world.turns[t := turn];
    forall u | u in guesses'
      ensures u in turns && turns[u].status == Scored && turns[u].audio.Some?
              && (guesses'[u].EnqueuePackage? ==> turns[u].quality.Some?) {
    }
    forall u | ReadyToPackage(turns, u)
      ensures JobKey(Package, u) in world.jobs.Keys || u in guesses'.Keys || u in crashed {
      if u != t {
        assert ReadyToPackage(world.turns, u);
      } else if t in world.turns && world.turns[t].status == Scored {
        assert ReadyToPackage(world.turns, t);
      }
    }
  }

  lemma WriteKeepsInv(config: Config, s: State, t: TurnId, turn: Turn, guesses: map<TurnId, GuessPhase>)
    requires Inv(config, s) && GameWrite(s.world.turns, t, turn)
    requires guesses == s.guesses || (turn.status == Scored && guesses == s.guesses[t := RereadQuality])
    requires turn.status == Scored ==> (t in s.world.turns && s.world.turns[t].status == Scored) || t in guesses
    ensures var after := SetTurn(s, t, turn).(guesses := guesses);
            Inv(config, after) && Grows(s.world, after.world)
  {
    hide TablesOk, QueueOk, LockOk, PcOk;
    var world := s.world.(turns := s.world.turns[t := turn]);
    WriteTables(config, s.world, s.clean, t, turn);
    WriteQueue(s.world, s.guesses, guesses, s.crashedGuesses, t, turn);
    WorkersGrow(s.world, world, s.clean, s.clean, s.workers);
    if s.lock.Some? && s.lock.value in s.workers {
      HolderKept(s.world, world, s.countedLines, s.workers[s.lock.value]);
    }
  }

  predicate WritesTurn(action: Action) {
    action.CreateTurn? || action.AcceptAudio? || action.ConfirmLabel? || action.ApplyGuess?
  }

  /** The row the game stores for the acted-on turn. */
  function WrittenTurn(config: Config, s: State, action: Action): Turn
    requires WritesTurn(action) && (!action.CreateTurn? ==> action.turn in s.world.turns)
  {
    match action
    case CreateTurn(_, speaker) => Turn(speaker, AwaitingAudio, Undecided, 0, None, None)
    case AcceptAudio(t, audio) => s.world.turns[t].(audio := Some(audio), status := AwaitingLabelConfirm)
    case ConfirmLabel(t) => s.world.turns[t].(status := AwaitingGuess)
    case ApplyGuess(t, correct) => Guessed(config, s.world.turns[t], correct)
  }

  lemma WrittenTurnOk(config: Config, s: State, action: Action)
    requires TurnsOk(s.world.turns) && WritesTurn(action) && Enabled(config, s, action)
    ensures GameWrite(s.world.turns, action.turn, WrittenTurn(config, s, action))
  {
    if !action.CreateTurn? {
      assert TurnOk(s.world.turns[action.turn]);
    }
  }

  lemma TurnActionKeepsInv(config: Config, s: State, action: Action)
    requires Inv(config, s) && WritesTurn(action) && Enabled(config, s, action)
    ensures Inv(config, GameStep(config, s, action))
    ensures Grows(s.world, GameStep(config, s, action).world)
  {
    hide QueueOk, WorkersOk, CriticalOk, LockOk, CountersOk;
    var turn := WrittenTurn(config, s, action);
    var guesses := if turn.status == Scored then s.guesses[action.turn := RereadQuality] else s.guesses;
    WrittenTurnOk(config, s, action);
    assert GameStep(config, s, action) == SetTurn(s, action.turn, turn).(guesses := guesses);
    WriteKeepsInv(config, s, action.turn, turn, guesses);
  }

  // ---------------------------------------------------------------- any action

  lemma DoKeepsInv(config: Config, s: State, action: Action)
    requires Inv(config, s) && Enabled(config, s, action)
    ensures Inv(config, Do(config, s, action))
    ensures Grows(s.world, Do(config, s, action).world)
  {
    hide Inv, Grows;
    GrowsReflexive(s.world);
    match action
    case StartWorker(w) => StartKeepsInv(config, s, w);
    case Crash(w) => CrashKeepsInv(config, s, w);
    case Raise(w) => RaiseKeepsInv(config, s, w);
    case ClaimNext(w, key) => ClaimKeepsInv(config, s, w, key);
    case RecoverStale(stale) => RecoverKeepsInv(config, s, stale);
    case Work(w, input) => WorkKeepsInv(config, s, w, input);
    case EnqueueTriage(t) => EnqueueTriageKeepsInv(config, s, t);
    case ContinueGuess(t) => ContinueKeepsInv(config, s, t);
    case CrashGuess(t) => CrashGuessKeepsInv(config, s, t);
    case _ => TurnActionKeepsInv(config, s, action);
  }

  lemma DoKeepsClean(config: Config, s: State, action: Action)
    requires Enabled(config, s, action)
    ensures s.clean <= Do(config, s, action).clean
  {
  }

  lemma InitialInv(config: Config)
    ensures Inv(config, Initial())
  {
  }

  /** Any run keeps the invariant, and its last world contains its first. */
  lemma {:induction false} RunKeepsInv(config: Config, s: State, run: seq<Action>)
    requires Inv(config, s) && CanRun(config, s, run)
    ensures Inv(config, After(config, s, run))
    ensures Grows(s.world, After(config, s, run).world)
    ensures s.clean <= After(config, s, run).clean
    decreases |run|
  {
    hide Inv, Grows, Enabled, Do;
    if run == [] {
      GrowsReflexive(s.world);
    } else {
      var next := Do(config, s, run[0]);
      DoKeepsInv(config, s, run[0]);
      DoKeepsClean(config, s, run[0]);
      RunKeepsInv(config, next, run[1..]);
      GrowsTransitive(s.world, next.world, After(config, s, run).world);
    }
  }

  lemma ReachableInv(config: Config, s: State)
    requires Reachable(config, s)
    ensures Inv(config, s)
  {
    hide Inv, Enabled, Do;
    var run :| CanRun(config, Initial(), run) && After(config, Initial(), run) == s;
    InitialInv(config);
    RunKeepsInv(config, Initial(), run);
  }
}
