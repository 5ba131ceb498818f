/**
 What a run remembers beside its state: which scored turns the game still owes a package job,
 whose continuations were cut off, which uploads have not queued triage yet, and whose quality
 a package run has found ineligible.  With it, "not lost" and "complete" get exact conditions.
 */
module History {
  import opened Wrappers
  import opened Records
  import opened Corpus
  import opened World
  import opened Protocol
  import opened Invariant
  import opened ActionProofs
  import opened Claims

  /**
   `owed`: scored when quality was already stored, and no triage has committed since.
   `cutOff`: the guess continuation died with its process.
   `unqueued`: a recording was accepted and its triage not queued since.
   `refused`: a package run that had read ineligible quality finished.
   */
  datatype Memory = Memory(owed: set<TurnId>, cutOff: set<TurnId>, unqueued: set<TurnId>, refused: set<TurnId>)

  const NOTHING := Memory({}, {}, {}, {})

  /** What the action adds, read off the state it happens in. */
  ghost function Remember(config: Config, s: State, m: Memory, action: Action): Memory
    requires Enabled(config, s, action)
  {
    match action
    case AcceptAudio(t, _) => m.(unqueued := m.unqueued + {t})
    case EnqueueTriage(t) => m.(unqueued := m.unqueued - {t})
    case ApplyGuess(t, correct) =>
      if t in s.world.turns && s.world.turns[t].quality.Some? && Guessed(config, s.world.turns[t], correct).status == Scored
      then m.(owed := m.owed + {t}) else m
    case CrashGuess(t) => m.(cutOff := m.cutOff + {t})
    case Work(w, _) =>
      var pc := s.workers[w];
      if pc.Listening? then m.(owed := m.owed - {pc.claim.key.turn})
      else if (pc.Probing? || pc.Reloading?) && !pc.eligible then m.(refused := m.refused + {pc.claim.key.turn})
      else m
    case _ => m
  }

  ghost function Remembered(config: Config, s: State, m: Memory, run: seq<Action>): Memory
    requires CanRun(config, s, run)
    decreases |run|
  {
    if run == [] then m else Remembered(config, Do(config, s, run[0]), Remember(config, s, m, run[0]), run[1..])
  }

  // -------------------------------------------------------------- packaging owed

  predicate Queued(s: State, t: TurnId) {
    JobKey(Package, t) in s.world.jobs
  }

  /** One turn's packaging: queued, still being continued, or owed and cut off. */
  ghost predicate PackagingOk(s: State, m: Memory, t: TurnId) {
    && (t in m.owed ==> ReadyToPackage(s.world.turns, t))
    && (ReadyToPackage(s.world.turns, t) ==> Queued(s, t) || t in m.owed)
    && (t in s.guesses || t in m.cutOff ==> t in s.world.turns && s.world.turns[t].status == Scored)
    && (t in s.guesses ==> t !in m.cutOff)
    && (t in m.owed && (t in s.guesses || t in m.cutOff) ==> !Queued(s, t))
    && (t in m.owed ==> t in s.guesses || t in m.cutOff || Queued(s, t))
  }

  /** A finished package job has left its mark, or was refused for a reason that is on record. */
  ghost predicate Settled(world: World, m: Memory, t: TurnId) {
    t in world.records && (world.records[t].shard.Some? || !world.records[t].eligible || t in m.refused)
  }

  predicate NearEnd(pc: Pc) {
    pc.Finishing? || pc.Reporting? || (pc.Unlocking? && !pc.failed) || pc.CountingLine?
  }

  ghost predicate SettledOk(s: State, m: Memory) {
    && (forall t: TurnId :: IsComplete(s, JobKey(Package, t)) ==> Settled(s.world, m, t))
    && (forall w :: w in s.workers && NearEnd(s.workers[w]) && s.workers[w].claim.key.kind == Package ==>
          Settled(s.world, m, s.workers[w].claim.key.turn))
    && (forall w :: w in s.workers && (s.workers[w].Listening? || s.workers[w].CountingTriage?) ==>
          s.workers[w].claim.key.kind == Triage)
  }

  predicate TriageOk(s: State, m: Memory, t: TurnId) {
    t in m.unqueued <==> t in s.world.turns && s.world.turns[t].audio.Some? && JobKey(Triage, t) !in s.world.jobs
  }

  // ------------------------------------------------------------- what a step does

  /** Only a triage commit changes turns or adds job rows. */
  lemma OtherWork(config: Config, world: World, pc: Pc, input: Input)
    requires !pc.Listening?
    ensures var after := NextWorld(config, world, pc, input);
            after.turns == world.turns && after.jobs.Keys == world.jobs.Keys
  {
    hide AppendLine, CreateRecord, SetRecordShard;
  }

  /** A commit stores quality on its turn and queues packaging if the turn is scored. */
  lemma CommitWork(config: Config, world: World, pc: Pc, input: Input)
    requires pc.Listening? && pc.claim.key.turn in world.turns
    ensures var t := pc.claim.key.turn;
            var after := NextWorld(config, world, pc, input);
            && t in after.turns && after.turns[t].quality.Some?
            && after.turns == world.turns[t := world.turns[t].(quality := after.turns[t].quality)]
            && after.jobs == if world.turns[t].status == Scored then Enqueue(world.jobs, JobKey(Package, t)) else world.jobs
  {
    hide Register, StoredQuality;
  }

  lemma WorkShape(config: Config, s: State, w: WorkerId, input: Input)
    requires Enabled(config, s, Work(w, input))
    ensures var after := Do(config, s, Work(w, input));
            && after.world == NextWorld(config, s.world, s.workers[w], input)
            && after.workers == s.workers[w := NextPc(config, s.world, s.workers[w], input)]
            && after.guesses == s.guesses
  {
    hide NextWorld, NextPc;
  }

  predicate ByWorkerLife(action: Action) {
    action.StartWorker? || action.RecoverStale? || action.ClaimNext? || action.Raise? || action.Crash?
  }

  /** Starting, claiming, recovering, raising and crashing leave turns, continuations and the set of jobs alone. */
  lemma LifeShape(config: Config, s: State, action: Action)
    requires Enabled(config, s, action) && ByWorkerLife(action)
    ensures var after := Do(config, s, action);
            && after.world == s.world.(jobs := after.world.jobs) && after.world.jobs.Keys == s.world.jobs.Keys
            && after.guesses == s.guesses
  {
  }

  predicate ByGame(action: Action) {
    !action.Work? && !ByWorkerLife(action)
  }

  /** The rows and continuation of one turn are as before. */
  ghost predicate SameAt(s: State, after: State, t: TurnId) {
    && (t in after.world.turns <==> t in s.world.turns)
    && (t in s.world.turns ==> after.world.turns[t] == s.world.turns[t])
    && (t in after.guesses <==> t in s.guesses)
    && (JobKey(Triage, t) in after.world.jobs <==> JobKey(Triage, t) in s.world.jobs)
    && (JobKey(Package, t) in after.world.jobs <==> JobKey(Package, t) in s.world.jobs)
  }

  lemma DoIsGameStep(config: Config, s: State, action: Action)
    requires Enabled(config, s, action) && ByGame(action)
    ensures Do(config, s, action) == GameStep(config, s, action)
  {
    hide WorkStep, GameStep, RecoverStaleClaims, ClaimJob, Raised;
  }

  predicate WritesRow(action: Action) {
    action.CreateTurn? || action.AcceptAudio? || action.ConfirmLabel? || action.ApplyGuess?
  }

  lemma RowShape(config: Config, s: State, action: Action, t: TurnId)
    requires WritesRow(action) && action.turn != t
    ensures SameAt(s, GameStep(config, s, action), t)
  {
    hide Guessed, Enqueue;
  }

  lemma QueueShape(config: Config, s: State, action: Action, t: TurnId)
    requires ByGame(action) && !WritesRow(action) && action.turn != t
    ensures SameAt(s, GameStep(config, s, action), t)
  {
    hide Guessed;
  }

  /** A game action touches one turn and its jobs only. */
  lemma GameShape(config: Config, s: State, action: Action, t: TurnId)
    requires Enabled(config, s, action) && ByGame(action) && action.turn != t
    ensures SameAt(s, Do(config, s, action), t)
  {
    hide Do, Enabled, GameStep, SameAt;
    DoIsGameStep(config, s, action);
    if WritesRow(action) {
      RowShape(config, s, action, t);
    } else {
      QueueShape(config, s, action, t);
    }
  }

  lemma ListenerKnowsTurn(config: Config, s: State, w: WorkerId)
    requires Inv(config, s) && w in s.workers && s.workers[w].Listening?
    ensures s.workers[w].claim.key.turn in s.world.turns && s.world.turns[s.workers[w].claim.key.turn].audio.Some?
  {
    assert PcOk(s.world, s.clean, s.workers[w]);
  }

  lemma UnscoredIsUnqueued(config: Config, s: State, t: TurnId)
    requires Inv(config, s) && Queued(s, t)
    ensures ReadyToPackage(s.world.turns, t)
  {
    hide CriticalOk, LockOk, CountersOk, WorkersOk, QueueOk;
    assert JobKey(Package, t) in s.world.jobs.Keys;
    assert JobOk(s.world.turns, JobKey(Package, t));
  }

  // ------------------------------------------------------------------- packaging

  /** Packaging of a turn depends on its row, its job, its continuation and its memory. */
  lemma PackagingReads(s: State, after: State, m: Memory, m': Memory, t: TurnId)
    requires PackagingOk(s, m, t)
    requires (t in after.world.turns <==> t in s.world.turns) && (t in s.world.turns ==> after.world.turns[t] == s.world.turns[t])
    requires (t in after.guesses <==> t in s.guesses) && (Queued(after, t) <==> Queued(s, t))
    requires (t in m'.owed <==> t in m.owed) && (t in m'.cutOff <==> t in m.cutOff)
    ensures PackagingOk(after, m', t)
  {
  }

  lemma WorkKeepsPackaging(config: Config, s: State, m: Memory, w: WorkerId, input: Input, t: TurnId)
    requires Inv(config, s) && Enabled(config, s, Work(w, input)) && PackagingOk(s, m, t)
    ensures PackagingOk(Do(config, s, Work(w, input)), Remember(config, s, m, Work(w, input)), t)
  {
    hide Inv, Do, NextWorld, NextPc;
    var pc := s.workers[w];
    var after := Do(config, s, Work(w, input));
    var m' := Remember(config, s, m, Work(w, input));
    WorkShape(config, s, w, input);
    if pc.Listening? {
      ListenerKnowsTurn(config, s, w);
      CommitWork(config, s.world, pc, input);
      if t != pc.claim.key.turn {
        PackagingReads(s, after, m, m', t);
      }
    } else {
      OtherWork(config, s.world, pc, input);
      assert JobKey(Package, t) in after.world.jobs.Keys <==> JobKey(Package, t) in s.world.jobs.Keys;
      PackagingReads(s, after, m, m', t);
    }
  }

  lemma LifeKeepsPackaging(config: Config, s: State, m: Memory, action: Action, t: TurnId)
    requires Enabled(config, s, action) && ByWorkerLife(action) && PackagingOk(s, m, t)
    ensures PackagingOk(Do(config, s, action), Remember(config, s, m, action), t)
  {
    hide Do, Enabled;
    LifeShape(config, s, action);
    var after := Do(config, s, action);
    assert JobKey(Package, t) in after.world.jobs.Keys <==> JobKey(Package, t) in s.world.jobs.Keys;
    PackagingReads(s, after, m, Remember(config, s, m, action), t);
  }

  lemma GuessKeepsPackaging(config: Config, s: State, m: Memory, action: Action)
    requires action.ApplyGuess? || action.ContinueGuess? || action.CrashGuess?
    requires Inv(config, s) && Enabled(config, s, action) && PackagingOk(s, m, action.turn)
    ensures PackagingOk(Do(config, s, action), Remember(config, s, m, action), action.turn)
  {
    hide Inv, WorkStep, RecoverStaleClaims, ClaimJob, Raised;
    if Queued(s, action.turn) {
      UnscoredIsUnqueued(config, s, action.turn);
    }
  }

  lemma TurnKeepsPackaging(config: Config, s: State, m: Memory, action: Action)
    requires action.CreateTurn? || action.AcceptAudio? || action.EnqueueTriage? || action.ConfirmLabel?
    requires Inv(config, s) && Enabled(config, s, action) && PackagingOk(s, m, action.turn)
    ensures PackagingOk(Do(config, s, action), Remember(config, s, m, action), action.turn)
  {
    hide Inv, WorkStep, RecoverStaleClaims, ClaimJob, Raised;
    if Queued(s, action.turn) {
      UnscoredIsUnqueued(config, s, action.turn);
    }
  }

  lemma GameKeepsPackaging(config: Config, s: State, m: Memory, action: Action, t: TurnId)
    requires Inv(config, s) && Enabled(config, s, action) && PackagingOk(s, m, t) && ByGame(action)
    ensures PackagingOk(Do(config, s, action), Remember(config, s, m, action), t)
  {
    hide Inv, Do, Enabled, PackagingOk;
    if action.turn != t {
      GameShape(config, s, action, t);
      PackagingReads(s, Do(config, s, action), m, Remember(config, s, m, action), t);
    } else if action.ApplyGuess? || action.ContinueGuess? || action.CrashGuess? {
      GuessKeepsPackaging(config, s, m, action);
    } else {
      TurnKeepsPackaging(config, s, m, action);
    }
  }

  lemma DoKeepsPackaging(config: Config, s: State, m: Memory, action: Action, t: TurnId)
    requires Inv(config, s) && Enabled(config, s, action) && PackagingOk(s, m, t)
    ensures PackagingOk(Do(config, s, action), Remember(config, s, m, action), t)
  {
    hide Inv, Do, Remember, PackagingOk;
    if action.Work? {
      WorkKeepsPackaging(config, s, m, action.worker, action.input, t);
    } else if ByWorkerLife(action) {
      LifeKeepsPackaging(config, s, m, action, t);
    } else {
      GameKeepsPackaging(config, s, m, action, t);
    }
  }

  lemma {:induction false} RunKeepsPackaging(config: Config, s: State, m: Memory, run: seq<Action>, t: TurnId)
    requires Inv(config, s) && CanRun(config, s, run) && PackagingOk(s, m, t)
    ensures PackagingOk(After(config, s, run), Remembered(config, s, m, run), t)
    decreases |run|
  {
    hide Inv, Do, Enabled, Remember, PackagingOk;
    if run != [] {
      DoKeepsInv(config, s, run[0]);
      DoKeepsPackaging(config, s, m, run[0], t);
      RunKeepsPackaging(config, Do(config, s, run[0]), Remember(config, s, m, run[0]), run[1..], t);
    }
  }

  /** A complete turn that nothing will package: no job, no continuation under way. */
  ghost predicate Stranded(s: State, t: TurnId) {
    ReadyToPackage(s.world.turns, t) && !Queued(s, t) && t !in s.guesses
  }

  /**
   Packaging is lost in exactly one way: quality was stored before the turn was scored, the guess
   continuation was cut off, and no triage of the turn has committed since.
   */
  lemma StrandedExactlyWhen(config: Config, run: seq<Action>, t: TurnId)
    requires CanRun(config, Initial(), run)
    ensures var m := Remembered(config, Initial(), NOTHING, run);
            Stranded(After(config, Initial(), run), t) <==> t in m.owed && t in m.cutOff
  {
    InitialInv(config);
    RunKeepsPackaging(config, Initial(), NOTHING, run, t);
  }

  // ---------------------------------------------------------------------- triage

  lemma TriageReads(s: State, after: State, m: Memory, m': Memory, t: TurnId)
    requires TriageOk(s, m, t)
    requires (t in after.world.turns <==> t in s.world.turns)
    requires t in s.world.turns ==> (after.world.turns[t].audio.Some? <==> s.world.turns[t].audio.Some?)
    requires (JobKey(Triage, t) in after.world.jobs <==> JobKey(Triage, t) in s.world.jobs) && (t in m'.unqueued <==> t in m.unqueued)
    ensures TriageOk(after, m', t)
  {
  }

  lemma WorkKeepsTriage(config: Config, s: State, m: Memory, w: WorkerId, input: Input, t: TurnId)
    requires Inv(config, s) && Enabled(config, s, Work(w, input)) && TriageOk(s, m, t)
    ensures TriageOk(Do(config, s, Work(w, input)), Remember(config, s, m, Work(w, input)), t)
  {
    hide Inv, Do, NextWorld, NextPc, TriageOk;
    var pc := s.workers[w];
    var after := Do(config, s, Work(w, input));
    WorkShape(config, s, w, input);
    if pc.Listening? {
      ListenerKnowsTurn(config, s, w);
      CommitWork(config, s.world, pc, input);
    } else {
      OtherWork(config, s.world, pc, input);
      assert JobKey(Triage, t) in after.world.jobs.Keys <==> JobKey(Triage, t) in s.world.jobs.Keys;
    }
    TriageReads(s, after, m, Remember(config, s, m, Work(w, input)), t);
  }

  lemma GameKeepsTriage(config: Config, s: State, m: Memory, action: Action)
    requires ByGame(action) && Inv(config, s) && Enabled(config, s, action) && TriageOk(s, m, action.turn)
    ensures TriageOk(Do(config, s, action), Remember(config, s, m, action), action.turn)
  {
    hide Inv, WorkStep, RecoverStaleClaims, ClaimJob, Raised;
    if JobKey(Triage, action.turn) in s.world.jobs {
      TriagedHasAudio(config, s, action.turn);
    }
  }

  lemma DoKeepsTriage(config: Config, s: State, m: Memory, action: Action, t: TurnId)
    requires Inv(config, s) && Enabled(config, s, action) && TriageOk(s, m, t)
    ensures TriageOk(Do(config, s, action), Remember(config, s, m, action), t)
  {
    hide Inv, Do, Enabled, TriageOk;
    var after := Do(config, s, action);
    if action.Work? {
      WorkKeepsTriage(config, s, m, action.worker, action.input, t);
    } else if ByWorkerLife(action) {
      LifeShape(config, s, action);
      assert JobKey(Triage, t) in after.world.jobs.Keys <==> JobKey(Triage, t) in s.world.jobs.Keys;
      TriageReads(s, after, m, Remember(config, s, m, action), t);
    } else if action.turn == t {
      GameKeepsTriage(config, s, m, action);
    } else {
      GameShape(config, s, action, t);
      TriageReads(s, after, m, Remember(config, s, m, action), t);
    }
  }

  lemma TriagedHasAudio(config: Config, s: State, t: TurnId)
    requires Inv(config, s) && JobKey(Triage, t) in s.world.jobs
    ensures t in s.world.turns && s.world.turns[t].audio.Some? && s.world.turns[t].status != AwaitingAudio
  {
    hide CriticalOk, LockOk, CountersOk, WorkersOk, QueueOk;
    assert JobKey(Triage, t) in s.world.jobs.Keys;
    assert JobOk(s.world.turns, JobKey(Triage, t));
    assert TurnOk(s.world.turns[t]);
  }

  lemma {:induction false} RunKeepsTriage(config: Config, s: State, m: Memory, run: seq<Action>, t: TurnId)
    requires Inv(config, s) && CanRun(config, s, run) && TriageOk(s, m, t)
    ensures TriageOk(After(config, s, run), Remembered(config, s, m, run), t)
    decreases |run|
  {
    hide Inv, Do, Enabled, Remember, TriageOk;
    if run != [] {
      DoKeepsInv(config, s, run[0]);
      DoKeepsTriage(config, s, m, run[0], t);
      RunKeepsTriage(config, Do(config, s, run[0]), Remember(config, s, m, run[0]), run[1..], t);
    }
  }

  /** A recording lacks its triage job exactly when its upload has not gone on to queue it. */
  lemma TriageMissingExactlyWhen(config: Config, run: seq<Action>, t: TurnId)
    requires CanRun(config, Initial(), run)
    ensures var s := After(config, Initial(), run);
            (t in s.world.turns && s.world.turns[t].audio.Some? && JobKey(Triage, t) !in s.world.jobs) <==>
            t in Remembered(config, Initial(), NOTHING, run).unqueued
  {
    InitialInv(config);
    RunKeepsTriage(config, Initial(), NOTHING, run, t);
  }

  // ------------------------------------------------------------- completed packages

  lemma SettledGrows(before: World, after: World, m: Memory, m': Memory, t: TurnId)
    requires Settled(before, m, t) && RecordsGrow(before.records, after.records) && m.refused <= m'.refused
    ensures Settled(after, m', t)
  {
  }

  /** The end of the export section finds or leaves a link. */
  lemma ExportEnds(config: Config, world: World, counted: set<TurnId>, m: Memory, pc: Pc, input: Input)
    requires Critical(pc) && HolderOk(world, counted, pc)
    requires pc.Relinking? || pc.Linking? ==> pc.claim.key.turn in world.records && world.records[pc.claim.key.turn].eligible
    requires NearEnd(pc) ==> Settled(world, m, pc.claim.key.turn)
    ensures NearEnd(NextPc(config, world, pc, input)) ==> Settled(NextWorld(config, world, pc, input), m, pc.claim.key.turn)
  {
    hide InShard, AppendLine, Find, GoldenRecord, Eligible, Carries, Flatten;
  }

  lemma ExportSettles(config: Config, s: State, m: Memory, w: WorkerId, input: Input)
    requires Inv(config, s) && w in s.workers && Critical(s.workers[w])
    requires SettledOk(s, m) && s.workers[w].claim.key.kind == Package
    ensures NearEnd(NextPc(config, s.world, s.workers[w], input)) ==>
              Settled(NextWorld(config, s.world, s.workers[w], input), m, s.workers[w].claim.key.turn)
  {
    hide NextPc, NextWorld, TablesOk, QueueOk, CountersOk, HolderOk;
    assert PcOk(s.world, s.clean, s.workers[w]);
    assert s.lock == Some(w);
    ExportEnds(config, s.world, s.countedLines, m, s.workers[w], input);
  }

  /** So does every other way to the end of a package run. */
  lemma PackageSettles(config: Config, s: State, m: Memory, w: WorkerId, input: Input)
    requires Inv(config, s) && w in s.workers && !s.workers[w].Idle? && !Critical(s.workers[w])
    requires SettledOk(s, m) && s.workers[w].claim.key.kind == Package
    ensures NearEnd(NextPc(config, s.world, s.workers[w], input)) ==>
              var pc := s.workers[w];
              var refused := if (pc.Probing? || pc.Reloading?) && !pc.eligible then m.refused + {pc.claim.key.turn} else m.refused;
              Settled(NextWorld(config, s.world, pc, input), m.(refused := refused), pc.claim.key.turn)
  {
    var pc := s.workers[w];
    assert PcOk(s.world, s.clean, pc);
    assert pc.claim.key in s.world.jobs.Keys;
    assert JobOk(s.world.turns, pc.claim.key);
    hide Inv, TablesOk, QueueOk, WorkersOk, CountersOk, LockOk, CriticalOk, Faithful, GoldenRecord, Eligible;
  }

  lemma EndSettles(config: Config, s: State, m: Memory, w: WorkerId, input: Input)
    requires Inv(config, s) && Enabled(config, s, Work(w, input)) && SettledOk(s, m)
    requires s.workers[w].claim.key.kind == Package
    ensures NearEnd(NextPc(config, s.world, s.workers[w], input)) ==>
              Settled(NextWorld(config, s.world, s.workers[w], input), Remember(config, s, m, Work(w, input)), s.workers[w].claim.key.turn)
  {
    hide Inv, NextPc, NextWorld, Do, SettledOk, NearEnd;
    if Critical(s.workers[w]) {
      ExportSettles(config, s, m, w, input);
    } else {
      PackageSettles(config, s, m, w, input);
    }
  }

  /** Settled facts carry over when every newly finished job and worker is settled. */
  lemma SettledMoves(s: State, after: State, m: Memory, m': Memory)
    requires SettledOk(s, m) && RecordsGrow(s.world.records, after.world.records) && m.refused <= m'.refused
    requires forall t: TurnId :: IsComplete(after, JobKey(Package, t)) ==> IsComplete(s, JobKey(Package, t)) || Settled(s.world, m, t)
    requires forall v :: v in after.workers && (NearEnd(after.workers[v]) || after.workers[v].Listening? || after.workers[v].CountingTriage?) ==>
               || (v in s.workers && after.workers[v] == s.workers[v])
               || (NearEnd(after.workers[v]) && after.workers[v].claim.key.kind == Package && Settled(after.world, m', after.workers[v].claim.key.turn))
               || after.workers[v].claim.key.kind == Triage
    ensures SettledOk(after, m')
  {
    forall t: TurnId | IsComplete(after, JobKey(Package, t)) ensures Settled(after.world, m', t) {
      assert Settled(s.world, m, t);
      SettledGrows(s.world, after.world, m, m', t);
    }
    forall v | v in after.workers && NearEnd(after.workers[v]) && after.workers[v].claim.key.kind == Package
      ensures Settled(after.world, m', after.workers[v].claim.key.turn)
    {
      if v in s.workers && after.workers[v] == s.workers[v] {
        SettledGrows(s.world, after.world, m, m', after.workers[v].claim.key.turn);
      }
    }
  }

  lemma CompletedBySettled(config: Config, s: State, m: Memory, action: Action, t: TurnId)
    requires Enabled(config, s, action) && SettledOk(s, m) && IsComplete(Do(config, s, action), JobKey(Package, t))
    ensures IsComplete(s, JobKey(Package, t)) || Settled(s.world, m, t)
  {
    hide Do;
    DoOnJob(config, s, action, JobKey(Package, t));
  }

  lemma RecordsOnlyGrow(config: Config, s: State, action: Action)
    requires Inv(config, s) && Enabled(config, s, action)
    ensures RecordsGrow(s.world.records, Do(config, s, action).world.records)
  {
    hide Inv, Do, Enabled;
    DoKeepsInv(config, s, action);
  }

  lemma WorkKeepsSettled(config: Config, s: State, m: Memory, w: WorkerId, input: Input)
    requires Inv(config, s) && Enabled(config, s, Work(w, input)) && SettledOk(s, m)
    ensures SettledOk(Do(config, s, Work(w, input)), Remember(config, s, m, Work(w, input)))
  {
    var action := Work(w, input);
    var after := Do(config, s, action);
    WorkShape(config, s, w, input);
    RecordsOnlyGrow(config, s, action);
    TriageStaysTriage(config, s.world, s.workers[w], input);
    ClaimKept(config, s.world, s.workers[w], input);
    hide Inv, Do, Enabled, NextWorld, NextPc, IsComplete, Settled;
    if s.workers[w].claim.key.kind == Package {
      EndSettles(config, s, m, w, input);
    }
    forall t: TurnId | IsComplete(after, JobKey(Package, t)) ensures IsComplete(s, JobKey(Package, t)) || Settled(s.world, m, t) {
      CompletedBySettled(config, s, m, action, t);
    }
    SettledMoves(s, after, m, Remember(config, s, m, action));
  }

  lemma TriageStaysTriage(config: Config, world: World, pc: Pc, input: Input)
    requires !pc.Idle? && (pc.Listening? || pc.CountingTriage? ==> pc.claim.key.kind == Triage)
    ensures var next := NextPc(config, world, pc, input);
            next.Listening? || next.CountingTriage? ==> next.claim.key.kind == Triage
  {
    hide GoldenRecord, Eligible, AppendLine;
  }

  lemma OtherKeepsSettled(config: Config, s: State, m: Memory, action: Action)
    requires Inv(config, s) && Enabled(config, s, action) && SettledOk(s, m) && !action.Work?
    ensures SettledOk(Do(config, s, action), Remember(config, s, m, action))
  {
    var after := Do(config, s, action);
    hide Inv, Do, Enabled, IsComplete, Settled;
    RecordsOnlyGrow(config, s, action);
    OtherWorkers(config, s, action);
    forall t: TurnId | IsComplete(after, JobKey(Package, t)) ensures IsComplete(s, JobKey(Package, t)) || Settled(s.world, m, t) {
      CompletedBySettled(config, s, m, action, t);
    }
    SettledMoves(s, after, m, Remember(config, s, m, action));
  }

  /** Between a worker's own steps it can only start, claim, fail or die. */
  lemma OtherWorkers(config: Config, s: State, action: Action)
    requires Enabled(config, s, action) && !action.Work?
    ensures var after := Do(config, s, action).workers;
            forall v :: v in after && (NearEnd(after[v]) || after[v].Listening? || after[v].CountingTriage?) ==>
              v in s.workers && after[v] == s.workers[v]
  {
  }

  lemma DoKeepsSettled(config: Config, s: State, m: Memory, action: Action)
    requires Inv(config, s) && Enabled(config, s, action) && SettledOk(s, m)
    ensures SettledOk(Do(config, s, action), Remember(config, s, m, action))
  {
    hide Inv, Do, SettledOk, Remember;
    if action.Work? {
      WorkKeepsSettled(config, s, m, action.worker, action.input);
    } else {
      OtherKeepsSettled(config, s, m, action);
    }
  }

  lemma {:induction false} RunKeepsSettled(config: Config, s: State, m: Memory, run: seq<Action>)
    requires Inv(config, s) && CanRun(config, s, run) && SettledOk(s, m)
    ensures SettledOk(After(config, s, run), Remembered(config, s, m, run))
    decreases |run|
  {
    hide Inv, Do, Enabled, Remember, SettledOk;
    if run != [] {
      DoKeepsInv(config, s, run[0]);
      DoKeepsSettled(config, s, m, run[0]);
      RunKeepsSettled(config, Do(config, s, run[0]), Remember(config, s, m, run[0]), run[1..]);
    }
  }

  /**
   A completed package job means something: its turn has a record, and the record is linked, or
   stored as ineligible, or some package run read ineligible quality and stopped there.
   */
  lemma CompletedPackageIsSettled(config: Config, run: seq<Action>, t: TurnId)
    requires CanRun(config, Initial(), run)
    requires IsComplete(After(config, Initial(), run), JobKey(Package, t))
    ensures var s := After(config, Initial(), run);
            t in s.world.records
            && (s.world.records[t].shard.Some? || !s.world.records[t].eligible
                || t in Remembered(config, Initial(), NOTHING, run).refused)
  {
    InitialInv(config);
    RunKeepsSettled(config, Initial(), NOTHING, run);
  }
}
