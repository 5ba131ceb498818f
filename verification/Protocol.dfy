/**
 The gauntlet as a transition system: any number of workers run worker/service.py one
 atomic step at a time beside the game's own writes.  Workers may raise, crash at any
 point, or go on running after their claim was recovered.
 */
module Protocol {
  import opened Wrappers
  import opened Fingerprints
  import opened Records
  import opened Corpus
  import opened World

  type WorkerId = nat

  /** A worker's private copy of the job it claimed. */
  datatype Claim = Claim(key: JobKey, tries: nat)

  /**
   Where one worker stands, with the values it has read so far.  `Reporting` is between the commit
   of `complete_job` and its return: an exception there makes the worker fail the job it completed.
   */
  datatype Pc =
    | Idle
    | Dispatched(claim: Claim)
      // _triage
    | Listening(claim: Claim, speaker: PlayerId, audio: AcousticFingerprint)
    | CountingTriage(claim: Claim)
      // _package
    | Probing(claim: Claim, golden: Golden, eligible: bool)
    | Creating(claim: Claim, golden: Golden, eligible: bool)
    | CountingRecord(claim: Claim, golden: Golden, eligible: bool)
    | Reloading(claim: Claim, golden: Golden, eligible: bool)
      // _export_eligible_record
    | Locking(claim: Claim, golden: Golden)
    | Inspecting(claim: Claim, golden: Golden)
    | Searching(claim: Claim, golden: Golden)
    | Relinking(claim: Claim, shard: ShardNumber)
    | Appending(claim: Claim, golden: Golden)
    | Linking(claim: Claim, shard: ShardNumber)
    | CountingLine(claim: Claim)
    | Unlocking(claim: Claim, failed: bool)
      // process_once
    | Finishing(claim: Claim)
    | Reporting(claim: Claim)
    | Failing(claim: Claim)

  /** The game's continuation after a scoring guess has committed. */
  datatype GuessPhase = RereadQuality | EnqueuePackage

  /**
   `clean` holds every turn ever stored as non-duplicate, `countedRecords` and
   `countedLines` the turns behind the two counters, `crashedGuesses` the scored turns
   whose guess continuation was cut off.  They are history: no step reads them.
   */
  datatype State = State(
    world: World, lock: Option<WorkerId>, workers: map<WorkerId, Pc>, guesses: map<TurnId, GuessPhase>,
    crashedGuesses: set<TurnId>, clean: set<TurnId>, countedRecords: set<TurnId>, countedLines: set<TurnId>)

  /** Values that come from outside: the model's verdict and the packaging clock. */
  datatype Input = Input(verdict: Gates, now: nat)

  datatype Action =
    // game process
    | CreateTurn(turn: TurnId, speaker: PlayerId)
    | AcceptAudio(turn: TurnId, audio: AcousticFingerprint)
    | EnqueueTriage(turn: TurnId)
    | ConfirmLabel(turn: TurnId)
    | ApplyGuess(turn: TurnId, correct: bool)
    | ContinueGuess(turn: TurnId)
    | CrashGuess(turn: TurnId)
      // worker processes
    | StartWorker(worker: WorkerId)
    | RecoverStale(stale: set<JobKey>)
    | ClaimNext(worker: WorkerId, key: JobKey)
    | Work(worker: WorkerId, input: Input)
    | Raise(worker: WorkerId)
    | Crash(worker: WorkerId)

  /** The worker is inside the flusher-lock context. */
  predicate Critical(pc: Pc) {
    pc.Inspecting? || pc.Searching? || pc.Relinking? || pc.Appending? || pc.Linking? || pc.CountingLine? || pc.Unlocking?
  }

  // ------------------------------------------------------------- worker program

  /** What `_package` does with the export state it has just read. */
  function AfterRead(claim: Claim, eligible: bool, existing: Record): Pc {
    if !existing.eligible || !eligible then Finishing(claim)
    else if existing.shard.Some? then Finishing(claim)
    else Locking(claim, existing.golden)
  }

  /** Next program point; it depends only on the world as it is before the step. */
  function NextPc(config: Config, world: World, pc: Pc, input: Input): Pc {
    match pc
    case Idle => Idle
    case Dispatched(claim) =>
      var id := claim.key.turn;
      if id !in world.turns then Failing(claim)
      else
        var turn := world.turns[id];
        (match claim.key.kind
         case Triage =>
           if turn.audio.None? then Failing(claim) else Listening(claim, turn.speaker, turn.audio.value)
         case Package =>
           if turn.status != Scored || turn.quality.None? then Finishing(claim)
           else
             var golden := GoldenRecord(id, turn, input.now);
             Probing(claim, golden, Eligible(golden.gates, golden.correct)))
    case Listening(claim, _, _) => CountingTriage(claim)
    case CountingTriage(claim) => Finishing(claim)
    case Probing(claim, golden, eligible) =>
      if claim.key.turn in world.records then AfterRead(claim, eligible, world.records[claim.key.turn])
      else Creating(claim, golden, eligible)
    case Creating(claim, golden, eligible) =>
      if claim.key.turn in world.records then Reloading(claim, golden, eligible)
      else CountingRecord(claim, golden, eligible)
    case CountingRecord(claim, golden, eligible) => Reloading(claim, golden, eligible)
    case Reloading(claim, _, eligible) =>
      if claim.key.turn in world.records then AfterRead(claim, eligible, world.records[claim.key.turn])
      else Failing(claim)
    case Locking(claim, golden) => Inspecting(claim, golden)
    case Inspecting(claim, golden) =>
      if claim.key.turn !in world.records then Unlocking(claim, true)
      else
        var state := world.records[claim.key.turn];
        if !state.eligible || state.shard.Some? then Unlocking(claim, false) else Searching(claim, golden)
    case Searching(claim, golden) =>
      (match Find(world.shards, claim.key.turn)
       case Some(shard) => Relinking(claim, shard)
       case None => Appending(claim, golden))
    case Relinking(claim, _) => Unlocking(claim, false)
    case Appending(claim, golden) =>
      (match AppendLine(world.shards, config.shardLimit, golden).1
       case Ok(shard) => Linking(claim, shard)
       case Err(_) => Unlocking(claim, true))
    case Linking(claim, _) => CountingLine(claim)
    case CountingLine(claim) => Unlocking(claim, false)
    case Unlocking(claim, failed) => if failed then Failing(claim) else Finishing(claim)
    case Finishing(claim) => Reporting(claim)
    case Reporting(_) => Idle
    case Failing(_) => Idle
  }

  /** The effect of the same step on tables, files and counters. */
  ghost function NextWorld(config: Config, world: World, pc: Pc, input: Input): World {
    match pc
    case Listening(claim, speaker, audio) =>
      PersistTriage(world, claim.key.turn, input.verdict, speaker, audio, config.tolerance)
    case CountingTriage(_) => world.(triagedTotal := world.triagedTotal + 1)
    case Creating(claim, golden, eligible) =>
      world.(records := CreateRecord(world.records, claim.key.turn, golden, eligible))
    case CountingRecord(_, _, _) => world.(recordsTotal := world.recordsTotal + 1)
    case Relinking(claim, shard) => world.(records := SetRecordShard(world.records, claim.key.turn, shard))
    case Appending(_, golden) => world.(shards := AppendLine(world.shards, config.shardLimit, golden).0)
    case Linking(claim, shard) => world.(records := SetRecordShard(world.records, claim.key.turn, shard))
    case CountingLine(_) => world.(eligibleTotal := world.eligibleTotal + 1)
    case Finishing(claim) => world.(jobs := CompleteJob(world.jobs, claim.key))
    case Failing(claim) => world.(jobs := FailJob(world.jobs, claim.key, claim.tries, config.maxTries))
    case _ => world
  }

  /** The lock after the step of worker `w`. */
  function NextLock(lock: Option<WorkerId>, pc: Pc, w: WorkerId): Option<WorkerId> {
    match pc
    case Locking(_, _) => Some(w)
    case Unlocking(_, _) => None
    case _ => lock
  }

  /** Where an exception leaves the worker: the lock context releases before the handler runs. */
  function Raised(pc: Pc): Pc
    requires !pc.Idle?
  {
    if Critical(pc) then Unlocking(pc.claim, true) else Failing(pc.claim)
  }

  /** A turn whose stored quality says it is no duplicate. */
  predicate StoredClean(turns: map<TurnId, Turn>, t: TurnId) {
    t in turns && turns[t].quality.Some? && !turns[t].quality.value.gates.duplicate
  }

  // ---------------------------------------------------------------- transitions

  ghost predicate Enabled(config: Config, s: State, action: Action) {
    match action
    case CreateTurn(turn, _) => turn !in s.world.turns
    case AcceptAudio(turn, audio) =>
      turn in s.world.turns && s.world.turns[turn].status == AwaitingAudio && ValidEnvelope(audio.envelope)
    case EnqueueTriage(turn) => turn in s.world.turns && s.world.turns[turn].audio.Some?
    case ConfirmLabel(turn) => turn in s.world.turns && s.world.turns[turn].status == AwaitingLabelConfirm
    case ApplyGuess(turn, _) => turn in s.world.turns && s.world.turns[turn].status == AwaitingGuess
    case ContinueGuess(turn) => turn in s.guesses
    case CrashGuess(turn) => turn in s.guesses
    case StartWorker(worker) => worker !in s.workers
    case RecoverStale(_) => true
    case ClaimNext(worker, key) =>
      worker in s.workers && s.workers[worker].Idle? && key in s.world.jobs && s.world.jobs[key].status == Waiting
    case Work(worker, _) =>
      worker in s.workers && !s.workers[worker].Idle? && (s.workers[worker].Locking? ==> s.lock.None?)
    case Raise(worker) =>
      worker in s.workers && !s.workers[worker].Idle? && !s.workers[worker].Unlocking? && !s.workers[worker].Failing?
    case Crash(worker) => worker in s.workers
  }

  function Guessed(config: Config, turn: Turn, correct: bool): Turn {
    var attempts := turn.attempts + 1;
    if correct then turn.(attempts := attempts, status := Scored, outcome := Validated)
    else if attempts >= config.maxGuesses then turn.(attempts := attempts, status := Scored, outcome := Unclear)
    else turn.(attempts := attempts)
  }

  function SetTurn(s: State, id: TurnId, turn: Turn): State {
    s.(world := s.world.(turns := s.world.turns[id := turn]))
  }

  function SetJobs(s: State, jobs: map<JobKey, Job>): State {
    s.(world := s.world.(jobs := jobs))
  }

  function SetPc(s: State, w: WorkerId, pc: Pc): State {
    s.(workers := s.workers[w := pc])
  }

  /** One step of a worker's own program. */
  ghost function WorkStep(config: Config, s: State, w: WorkerId, input: Input): State
    requires w in s.workers && !s.workers[w].Idle?
  {
    var pc := s.workers[w];
    var world := NextWorld(config, s.world, pc, input);
    var id := pc.claim.key.turn;
    State(world, NextLock(s.lock, pc, w), s.workers[w := NextPc(config, s.world, pc, input)],
          s.guesses, s.crashedGuesses,
          if pc.Listening? && StoredClean(world.turns, id) then s.clean + {id} else s.clean,
          if pc.CountingRecord? then s.countedRecords + {id} else s.countedRecords,
          if pc.CountingLine? then s.countedLines + {id} else s.countedLines)
  }

  /** One step of the game process. */
  function GameStep(config: Config, s: State, action: Action): State {
    match action
    case CreateTurn(turn, speaker) =>
      SetTurn(s, turn, Turn(speaker, AwaitingAudio, Undecided, 0, None, None))
    case AcceptAudio(turn, audio) =>
      if turn in s.world.turns
      then SetTurn(s, turn, s.world.turns[turn].(audio := Some(audio), status := AwaitingLabelConfirm)) else s
    case EnqueueTriage(turn) => SetJobs(s, Enqueue(s.world.jobs, JobKey(Triage, turn)))
    case ConfirmLabel(turn) =>
      if turn in s.world.turns then SetTurn(s, turn, s.world.turns[turn].(status := AwaitingGuess)) else s
    case ApplyGuess(turn, correct) =>
      if turn !in s.world.turns then s
      else
        var guessed := Guessed(config, s.world.turns[turn], correct);
        var after := SetTurn(s, turn, guessed);
        if guessed.status == Scored then after.(guesses := s.guesses[turn := RereadQuality]) else after
    case ContinueGuess(turn) =>
      if turn !in s.guesses then s
      else if s.guesses[turn].EnqueuePackage?
      then SetJobs(s, Enqueue(s.world.jobs, JobKey(Package, turn))).(guesses := s.guesses - {turn})
      else if turn in s.world.turns && s.world.turns[turn].quality.Some?
      then s.(guesses := s.guesses[turn := EnqueuePackage])
      else s.(guesses := s.guesses - {turn})
    case CrashGuess(turn) =>
      s.(guesses := s.guesses - {turn}, crashedGuesses := s.crashedGuesses + {turn})
    case _ => s
  }

  ghost function Do(config: Config, s: State, action: Action): State
    requires Enabled(config, s, action)
  {
    match action
    case StartWorker(worker) => SetPc(s, worker, Idle)
    case RecoverStale(stale) => SetJobs(s, RecoverStaleClaims(s.world.jobs, stale))
    case ClaimNext(worker, key) =>
      SetPc(SetJobs(s, ClaimJob(s.world.jobs, key)), worker, Dispatched(Claim(key, s.world.jobs[key].tries + 1)))
    case Work(worker, input) => WorkStep(config, s, worker, input)
    case Raise(worker) => SetPc(s, worker, Raised(s.workers[worker]))
    case Crash(worker) =>
      SetPc(s, worker, Idle).(lock := if s.lock == Some(worker) then None else s.lock)
    case _ => GameStep(config, s, action)
  }

  // ----------------------------------------------------------------------- runs

  function Initial(): State {
    State(World(map[], map[], map[], map[], [], 0, 0, 0), None, map[], map[], {}, {}, {}, {})
  }

  /** Every action of the run is enabled when its turn comes. */
  ghost predicate CanRun(config: Config, s: State, run: seq<Action>)
    decreases |run|
  {
    run == [] || (Enabled(config, s, run[0]) && CanRun(config, Do(config, s, run[0]), run[1..]))
  }

  ghost function After(config: Config, s: State, run: seq<Action>): State
    requires CanRun(config, s, run)
    decreases |run|
  {
    if run == [] then s else After(config, Do(config, s, run[0]), run[1..])
  }

  ghost predicate Reachable(config: Config, s: State) {
    exists run :: CanRun(config, Initial(), run) && After(config, Initial(), run) == s
  }
}
