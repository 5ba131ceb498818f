/** Every action of the gauntlet keeps the invariant and only adds to the world. */
module Preservation {
  import opened Wrappers
  import opened Fingerprints
  import opened Records
  import opened Corpus
  import opened World
  import opened Protocol
  import opened Invariant
  import opened TriageProofs

  // ------------------------------------------------------------ bookkeeping parts

  /** Lock and critical section move together. */
  lemma LockMoves(lock: Option<WorkerId>, workers: map<WorkerId, Pc>, w: WorkerId, pc: Pc)
    requires LockOk(lock, workers) && w in workers && !workers[w].Idle?
    requires workers[w].Locking? ==> lock.None? && Critical(pc)
    requires workers[w].Unlocking? ==> !Critical(pc)
    requires !workers[w].Locking? && !workers[w].Unlocking? ==> Critical(pc) == Critical(workers[w])
    ensures LockOk(NextLock(lock, workers[w], w), workers[w := pc])
  {
  }

  /** The holder's knowledge survives as long as records it knows, shards and count stay put. */
  lemma HolderKept(before: World, after: World, counted: set<TurnId>, pc: Pc)
    requires HolderOk(before, counted, pc)
    requires before.shards == after.shards
    requires forall t :: t in before.records ==> t in after.records && after.records[t] == before.records[t]
    ensures HolderOk(after, counted, pc)
  {
  }

  lemma RecordCountMoves(records: set<TurnId>, counted: set<TurnId>, total: nat, workers: map<WorkerId, Pc>, w: WorkerId, pc: Pc)
    requires RecordCountOk(records, counted, total, workers)
    requires !pc.CountingRecord?
    ensures RecordCountOk(records, counted, total, workers[w := pc])
  {
  }

  // ---------------------------------------------------------- steps that only read

  predicate ReadsOnly(pc: Pc) {
    pc.Dispatched? || pc.Probing? || pc.Reloading? || pc.Locking? || pc.Inspecting? || pc.Searching? || pc.Unlocking?
    || pc.Reporting?
  }

  /** What is promised about a move to `next`. */
  ghost predicate GoodMove(world: World, clean: set<TurnId>, counted: set<TurnId>, next: Pc) {
    PcOk(world, clean, next) && HolderOk(world, counted, next) && !next.CountingRecord?
  }

  lemma DispatchReads(config: Config, world: World, clean: set<TurnId>, counted: set<TurnId>, pc: Pc, input: Input)
    requires JobsOk(world.turns, world.jobs.Keys) && TurnsOk(world.turns) && CleanOk(world.turns, clean, config.tolerance)
    requires PcOk(world, clean, pc) && pc.Dispatched?
    ensures GoodMove(world, clean, counted, NextPc(config, world, pc, input))
    ensures !Critical(NextPc(config, world, pc, input))
  {
    var t := pc.claim.key.turn;
    assert JobOk(world.turns, pc.claim.key);
    assert TurnOk(world.turns[t]);
    assert StoredClean(world.turns, t) ==> t in clean;
  }

  /** `Find` points at the line of this very record. */
  lemma FoundLineIsRecord(shards: Shards, records: map<TurnId, Record>, t: TurnId)
    requires LogOk(records, Flatten(shards)) && Find(shards, t).Some?
    ensures t in records && InShard(shards, Find(shards, t).value, records[t].golden)
  {
    var found := Find(shards, t).value;
    var j :| 0 <= j < |shards[found - 1]| && shards[found - 1][j].utterance == Some(t);
    var k := FlattenIndex(shards, found, j);
    assert LineOk(records, Flatten(shards)[k]);
  }

  lemma SearchReads(config: Config, world: World, clean: set<TurnId>, counted: set<TurnId>, pc: Pc, input: Input)
    requires LogOk(world.records, Flatten(world.shards))
    requires PcOk(world, clean, pc) && HolderOk(world, counted, pc) && pc.Searching?
    ensures GoodMove(world, clean, counted, NextPc(config, world, pc, input))
    ensures Critical(NextPc(config, world, pc, input))
  {
    var t := pc.claim.key.turn;
    FindAgreesWithLog(world.shards, t);
    if Find(world.shards, t).Some? {
      FoundLineIsRecord(world.shards, world.records, t);
    }
  }

  lemma ProbeReads(config: Config, world: World, clean: set<TurnId>, counted: set<TurnId>, pc: Pc, input: Input)
    requires PcOk(world, clean, pc) && (pc.Probing? || pc.Reloading?)
    ensures GoodMove(world, clean, counted, NextPc(config, world, pc, input))
    ensures !Critical(NextPc(config, world, pc, input))
  {
  }

  lemma LockReads(config: Config, world: World, clean: set<TurnId>, counted: set<TurnId>, pc: Pc, input: Input)
    requires PcOk(world, clean, pc) && (pc.Locking? || pc.Inspecting? || pc.Unlocking? || pc.Reporting?)
    ensures GoodMove(world, clean, counted, NextPc(config, world, pc, input))
    ensures Critical(NextPc(config, world, pc, input)) <==> pc.Locking? || pc.Inspecting?
  {
  }

  lemma ReadStepShape(config: Config, s: State, w: WorkerId, input: Input)
    requires w in s.workers && ReadsOnly(s.workers[w])
    ensures WorkStep(config, s, w, input)
         == s.(lock := NextLock(s.lock, s.workers[w], w),
               workers := s.workers[w := NextPc(config, s.world, s.workers[w], input)])
  {
  }

  lemma ReadNextPc(config: Config, world: World, clean: set<TurnId>, counted: set<TurnId>, pc: Pc, input: Input)
    requires TablesOk(config, world, clean) && PcOk(world, clean, pc) && ReadsOnly(pc)
    requires Critical(pc) ==> HolderOk(world, counted, pc)
    ensures GoodMove(world, clean, counted, NextPc(config, world, pc, input))
    ensures Critical(NextPc(config, world, pc, input)) == (pc.Locking? || (Critical(pc) && !pc.Unlocking?))
  {
    if pc.Dispatched? {
      DispatchReads(config, world, clean, counted, pc, input);
    } else if pc.Searching? {
      SearchReads(config, world, clean, counted, pc, input);
    } else if pc.Probing? || pc.Reloading? {
      ProbeReads(config, world, clean, counted, pc, input);
    } else {
      LockReads(config, world, clean, counted, pc, input);
    }
  }

  /** A worker moves to `pc` while the world stays as it is. */
  lemma PcMoveKeepsInv(config: Config, s: State, w: WorkerId, pc: Pc, lock: Option<WorkerId>)
    requires Inv(config, s)
    requires GoodMove(s.world, s.clean, s.countedLines, pc)
    requires LockOk(lock, s.workers[w := pc])
    requires lock.Some? ==> lock == s.lock || lock == Some(w)
    ensures Inv(config, s.(lock := lock, workers := s.workers[w := pc]))
  {
    RecordCountMoves(s.world.records.Keys, s.countedRecords, s.world.recordsTotal, s.workers, w, pc);
    GrowsReflexive(s.world);
    WorkersMove(s.world, s.world, s.clean, s.clean, s.workers, w, pc);
  }

  lemma ReadStepKeepsInv(config: Config, s: State, w: WorkerId, input: Input)
    requires Inv(config, s) && Enabled(config, s, Work(w, input)) && ReadsOnly(s.workers[w])
    ensures Inv(config, WorkStep(config, s, w, input))
    ensures WorkStep(config, s, w, input).world == s.world
  {
    var pc := s.workers[w];
    var next := NextPc(config, s.world, pc, input);
    ReadStepShape(config, s, w, input);
    ReadNextPc(config, s.world, s.clean, s.countedLines, pc, input);
    LockMoves(s.lock, s.workers, w, next);
    PcMoveKeepsInv(config, s, w, next, NextLock(s.lock, pc, w));
  }

  // ------------------------------------------- steps outside the critical section

  /** Records may be added, none is changed, and no line is written. */
  ghost predicate ExportKept(before: World, after: World) {
    && after.shards == before.shards
    && forall t :: t in before.records ==> t in after.records && after.records[t] == before.records[t]
  }

  /** A worker outside the lock moves to `pc` while the world grows. */
  lemma OutsideMoveKeepsInv(config: Config, s: State, after: State, w: WorkerId, pc: Pc)
    requires Inv(config, s) && w in s.workers && !Critical(s.workers[w]) && !Critical(pc)
    requires after.lock == s.lock && after.workers == s.workers[w := pc] && after.countedLines == s.countedLines
    requires Grows(s.world, after.world) && s.clean <= after.clean && ExportKept(s.world, after.world)
    requires TablesOk(config, after.world, after.clean) && PcOk(after.world, after.clean, pc)
    requires QueueOk(after.world, after.guesses, after.crashedGuesses) && CountersOk(after)
    ensures Inv(config, after)
  {
    hide TablesOk, QueueOk, CountersOk;
    WorkersMove(s.world, after.world, s.clean, after.clean, s.workers, w, pc);
    if s.lock.Some? {
      HolderKept(s.world, after.world, s.countedLines, s.workers[s.lock.value]);
    }
  }

  lemma JobsWorldOk(config: Config, s: State, jobs: map<JobKey, Job>)
    requires TablesOk(config, s.world, s.clean) && QueueOk(s.world, s.guesses, s.crashedGuesses)
    requires s.world.jobs.Keys <= jobs.Keys
    requires forall key :: key in jobs && key !in s.world.jobs ==> JobOk(s.world.turns, key)
    ensures var world := s.world.(jobs := jobs);
            && TablesOk(config, world, s.clean) && QueueOk(world, s.guesses, s.crashedGuesses)
            && Grows(s.world, world) && ExportKept(s.world, world)
  {
    var world := s.world.(jobs := jobs);
    GrowsReflexive(s.world);
    forall key | key in jobs.Keys ensures JobOk(world.turns, key) {
      if key in s.world.jobs {
        assert key in s.world.jobs.Keys;
      }
    }
  }

  /** After its last write a handler reports success, or is done. */
  function EndPc(pc: Pc): Pc
    requires pc.Finishing? || pc.Failing?
  {
    if pc.Finishing? then Reporting(pc.claim) else Idle
  }

  lemma JobEndShape(config: Config, s: State, w: WorkerId, input: Input)
    requires w in s.workers && (s.workers[w].Finishing? || s.workers[w].Failing?)
    ensures var after := WorkStep(config, s, w, input);
            && after == s.(world := s.world.(jobs := after.world.jobs), workers := s.workers[w := EndPc(s.workers[w])])
            && after.world.jobs.Keys == s.world.jobs.Keys
  {
  }

  lemma JobIsStored(config: Config, s: State, w: WorkerId)
    requires Inv(config, s) && w in s.workers && !s.workers[w].Idle?
    ensures s.workers[w].claim.key in s.world.jobs
  {
    hide TablesOk, QueueOk, CountersOk, CriticalOk, LockOk;
    assert PcOk(s.world, s.clean, s.workers[w]);
  }

  lemma JobEndKeepsInv(config: Config, s: State, w: WorkerId, input: Input)
    requires Inv(config, s) && w in s.workers && (s.workers[w].Finishing? || s.workers[w].Failing?)
    ensures Inv(config, WorkStep(config, s, w, input))
    ensures Grows(s.world, WorkStep(config, s, w, input).world)
  {
    hide TablesOk, QueueOk, WorkersOk, LockOk, CriticalOk;
    var after := WorkStep(config, s, w, input);
    JobIsStored(config, s, w);
    JobEndShape(config, s, w, input);
    JobsWorldOk(config, s, after.world.jobs);
    RecordCountMoves(s.world.records.Keys, s.countedRecords, s.world.recordsTotal, s.workers, w, EndPc(s.workers[w]));
    hide WorkStep;
    OutsideMoveKeepsInv(config, s, after, w, EndPc(s.workers[w]));
  }

  lemma CountTriageShape(config: Config, s: State, w: WorkerId, input: Input)
    requires w in s.workers && s.workers[w].CountingTriage?
    ensures WorkStep(config, s, w, input)
         == s.(world := s.world.(triagedTotal := s.world.triagedTotal + 1),
               workers := s.workers[w := Finishing(s.workers[w].claim)])
  {
  }

  lemma CountTriageKeepsInv(config: Config, s: State, w: WorkerId, input: Input)
    requires Inv(config, s) && w in s.workers && s.workers[w].CountingTriage?
    ensures Inv(config, WorkStep(config, s, w, input))
    ensures Grows(s.world, WorkStep(config, s, w, input).world)
  {
    hide CriticalOk, LockOk;
    var after := WorkStep(config, s, w, input);
    var pc := Finishing(s.workers[w].claim);
    CountTriageShape(config, s, w, input);
    GrowsReflexive(s.world);
    RecordCountMoves(s.world.records.Keys, s.countedRecords, s.world.recordsTotal, s.workers, w, pc);
    OutsideMoveKeepsInv(config, s, after, w, pc);
  }

  // ------------------------------------------------------------------ triage commit

  lemma TriageTurnsGrow(turns: map<TurnId, Turn>, t: TurnId, verdict: Gates, candidate: AcousticFingerprint, owned: bool)
    requires TurnsOk(turns) && t in turns && turns[t].audio == Some(candidate)
    ensures var after := TriagedTurns(turns, t, verdict, candidate, owned);
            TurnsGrow(turns, after) && TurnsOk(after)
  {
    assert TurnOk(turns[t]);
  }

  lemma PersistTables(config: Config, world: World, clean: set<TurnId>, t: TurnId, verdict: Gates,
                      speaker: PlayerId, candidate: AcousticFingerprint)
    requires TablesOk(config, world, clean) && Candidate(world.turns, speaker, candidate, t)
    ensures var after := PersistTriage(world, t, verdict, speaker, candidate, config.tolerance);
            var clean' := if StoredClean(after.turns, t) then clean + {t} else clean;
            TablesOk(config, after, clean') && Grows(world, after) && ExportKept(world, after)
  {
    hide Register, TurnOk, JobOk, RecordOk;
    var after := PersistTriage(world, t, verdict, speaker, candidate, config.tolerance);
    var owned := Register(world.turns, world.owners, speaker, candidate, t, config.tolerance).1;
    var clean' := if owned then clean + {t} else clean;
    assert after.turns == TriagedTurns(world.turns, t, verdict, candidate, owned);
    TriageTurnsGrow(world.turns, t, verdict, candidate, owned);
    TriageKeepsClean(world.turns, clean, world.owners, speaker, candidate, t, verdict, config.tolerance);
    TriageKeepsOwners(world.turns, world.owners, speaker, candidate, t, verdict, config.tolerance);
    RecordsOkGrows(world.turns, after.turns, clean, clean', world.shards, world.shards, world.records);
    JobsOkGrows(world.turns, after.turns, world.jobs.Keys);
    PersistJobs(world, t, after);
  }

  lemma PersistJobs(world: World, t: TurnId, after: World)
    requires TurnsGrow(world.turns, after.turns) && JobsOk(after.turns, world.jobs.Keys)
    requires TurnsOk(after.turns) && t in after.turns && after.turns[t].quality.Some?
    requires after.jobs == if after.turns[t].status == Scored then Enqueue(world.jobs, JobKey(Package, t)) else world.jobs
    ensures JobsOk(after.turns, after.jobs.Keys) && world.jobs.Keys <= after.jobs.Keys
  {
    assert TurnOk(after.turns[t]);
    forall key | key in after.jobs.Keys ensures JobOk(after.turns, key) {
      if key in world.jobs {
        assert key in world.jobs.Keys;
      }
    }
  }

  lemma PersistQueue(config: Config, s: State, t: TurnId, verdict: Gates, speaker: PlayerId, candidate: AcousticFingerprint)
    requires QueueOk(s.world, s.guesses, s.crashedGuesses) && t in s.world.turns && s.world.turns[t].audio == Some(candidate)
    ensures QueueOk(PersistTriage(s.world, t, verdict, speaker, candidate, config.tolerance), s.guesses, s.crashedGuesses)
  {
    var after := PersistTriage(s.world, t, verdict, speaker, candidate, config.tolerance);
    forall u | ReadyToPackage(after.turns, u)
      ensures JobKey(Package, u) in after.jobs.Keys || u in s.guesses.Keys || u in s.crashedGuesses {
      if u != t {
        assert ReadyToPackage(s.world.turns, u);
      }
    }
  }

  lemma PersistShape(config: Config, s: State, w: WorkerId, input: Input)
    requires w in s.workers && s.workers[w].Listening?
    ensures var pc := s.workers[w];
            var t := pc.claim.key.turn;
            var world := PersistTriage(s.world, t, input.verdict, pc.speaker, pc.audio, config.tolerance);
            WorkStep(config, s, w, input) ==
            s.(world := world, clean := if StoredClean(world.turns, t) then s.clean + {t} else s.clean,
               workers := s.workers[w := CountingTriage(pc.claim)])
  {
  }

  lemma PersistKeepsInv(config: Config, s: State, w: WorkerId, input: Input)
    requires Inv(config, s) && w in s.workers && s.workers[w].Listening?
    ensures Inv(config, WorkStep(config, s, w, input))
    ensures Grows(s.world, WorkStep(config, s, w, input).world)
  {
    var pc := s.workers[w];
    var t := pc.claim.key.turn;
    var next := CountingTriage(pc.claim);
    var after := WorkStep(config, s, w, input);
    PersistShape(config, s, w, input);
    PersistTables(config, s.world, s.clean, t, input.verdict, pc.speaker, pc.audio);
    PersistQueue(config, s, t, input.verdict, pc.speaker, pc.audio);
    RecordCountMoves(s.world.records.Keys, s.countedRecords, s.world.recordsTotal, s.workers, w, next);
    OutsideMoveKeepsInv(config, s, after, w, next);
  }

  // --------------------------------------------------------------- record creation

  lemma CreateWorldOk(config: Config, s: State, t: TurnId, golden: Golden, eligible: bool)
    requires TablesOk(config, s.world, s.clean) && QueueOk(s.world, s.guesses, s.crashedGuesses) && t !in s.world.records
    requires Faithful(s.world.turns, s.clean, t, golden, eligible)
    ensures var world := s.world.(records := CreateRecord(s.world.records, t, golden, eligible));
            TablesOk(config, world, s.clean) && QueueOk(world, s.guesses, s.crashedGuesses) && Grows(s.world, world)
  {
    var world := s.world.(records := CreateRecord(s.world.records, t, golden, eligible));
    GrowsReflexive(s.world);
    forall u | u in world.records ensures RecordOk(world.turns, s.clean, world.shards, u, world.records[u]) {
    }
    forall i | 0 <= i < |Flatten(world.shards)| ensures LineOk(world.records, Flatten(world.shards)[i]) {
      assert LineOk(s.world.records, Flatten(world.shards)[i]);
    }
  }

  lemma CreateCounts(records: map<TurnId, Record>, counted: set<TurnId>, total: nat, lines: set<TurnId>, lineTotal: nat,
                     workers: map<WorkerId, Pc>, w: WorkerId, pc: Pc, record: Record)
    requires RecordCountOk(records.Keys, counted, total, workers) && LineCountOk(records, lines, lineTotal)
    requires pc.CountingRecord? && pc.claim.key.turn !in records
    ensures var after := records[pc.claim.key.turn := record];
            RecordCountOk(after.Keys, counted, total, workers[w := pc]) && LineCountOk(after, lines, lineTotal)
  {
    var after := records[pc.claim.key.turn := record];
    assert after.Keys == records.Keys + {pc.claim.key.turn};
  }

  lemma CreateShape(config: Config, s: State, w: WorkerId, input: Input)
    requires w in s.workers && s.workers[w].Creating?
    ensures var pc := s.workers[w];
            var t := pc.claim.key.turn;
            WorkStep(config, s, w, input) ==
            s.(world := s.world.(records := CreateRecord(s.world.records, t, pc.golden, pc.eligible)),
               workers := s.workers[w := if t in s.world.records then Reloading(pc.claim, pc.golden, pc.eligible)
                                         else CountingRecord(pc.claim, pc.golden, pc.eligible)])
  {
  }

  lemma CreateKeepsInv(config: Config, s: State, w: WorkerId, input: Input)
    requires Inv(config, s) && w in s.workers && s.workers[w].Creating?
    ensures Inv(config, WorkStep(config, s, w, input))
    ensures Grows(s.world, WorkStep(config, s, w, input).world)
  {
    hide TablesOk, QueueOk, CriticalOk;
    var pc := s.workers[w];
    var t := pc.claim.key.turn;
    var after := WorkStep(config, s, w, input);
    CreateShape(config, s, w, input);
    if t in s.world.records {
      GrowsReflexive(s.world);
      PcMoveKeepsInv(config, s, w, Reloading(pc.claim, pc.golden, pc.eligible), s.lock);
    } else {
      var next := CountingRecord(pc.claim, pc.golden, pc.eligible);
      CreateWorldOk(config, s, t, pc.golden, pc.eligible);
      CreateCounts(s.world.records, s.countedRecords, s.world.recordsTotal, s.countedLines, s.world.eligibleTotal,
                   s.workers, w, next, Record(pc.golden, pc.eligible, None));
      OutsideMoveKeepsInv(config, s, after, w, next);
    }
  }

  lemma CountRecordShape(config: Config, s: State, w: WorkerId, input: Input)
    requires w in s.workers && s.workers[w].CountingRecord?
    ensures var pc := s.workers[w];
            WorkStep(config, s, w, input) ==
            s.(world := s.world.(recordsTotal := s.world.recordsTotal + 1),
               countedRecords := s.countedRecords + {pc.claim.key.turn},
               workers := s.workers[w := Reloading(pc.claim, pc.golden, pc.eligible)])
  {
  }

  lemma CountRecordCounts(records: set<TurnId>, counted: set<TurnId>, total: nat, workers: map<WorkerId, Pc>, w: WorkerId, pc: Pc)
    requires RecordCountOk(records, counted, total, workers)
    requires w in workers && workers[w].CountingRecord? && !pc.CountingRecord?
    ensures RecordCountOk(records, counted + {workers[w].claim.key.turn}, total + 1, workers[w := pc])
  {
    assert |counted + {workers[w].claim.key.turn}| == |counted| + 1;
  }

  lemma CounterOnly(config: Config, s: State, total: nat)
    requires TablesOk(config, s.world, s.clean) && QueueOk(s.world, s.guesses, s.crashedGuesses)
    ensures var world := s.world.(recordsTotal := total);
            TablesOk(config, world, s.clean) && QueueOk(world, s.guesses, s.crashedGuesses)
  {
  }

  lemma CountRecordKeepsInv(config: Config, s: State, w: WorkerId, input: Input)
    requires Inv(config, s) && w in s.workers && s.workers[w].CountingRecord?
    ensures Inv(config, WorkStep(config, s, w, input))
    ensures Grows(s.world, WorkStep(config, s, w, input).world)
  {
    hide TablesOk, QueueOk, LockOk, CriticalOk;
    var pc := s.workers[w];
    CounterOnly(config, s, s.world.recordsTotal + 1);
    var next := Reloading(pc.claim, pc.golden, pc.eligible);
    var after := WorkStep(config, s, w, input);
    CountRecordShape(config, s, w, input);
    CountRecordCounts(s.world.records.Keys, s.countedRecords, s.world.recordsTotal, s.workers, w, next);
    GrowsReflexive(s.world);
    OutsideMoveKeepsInv(config, s, after, w, next);
  }

  // -------------------------------------------------- steps of the lock holder

  /** The lock holder moves to `pc` inside the critical section while the world grows. */
  lemma InsideMoveKeepsInv(config: Config, s: State, after: State, w: WorkerId, pc: Pc)
    requires Inv(config, s) && w in s.workers && Critical(s.workers[w]) && Critical(pc)
    requires after.lock == s.lock && after.workers == s.workers[w := pc] && after.clean == s.clean
    requires Grows(s.world, after.world)
    requires TablesOk(config, after.world, after.clean)
    requires PcOk(after.world, after.clean, pc) && HolderOk(after.world, after.countedLines, pc)
    requires QueueOk(after.world, after.guesses, after.crashedGuesses) && CountersOk(after)
    ensures Inv(config, after)
  {
    hide TablesOk, QueueOk, CountersOk, PcOk, HolderOk;
    WorkersMove(s.world, after.world, s.clean, after.clean, s.workers, w, pc);
  }

  lemma HolderFacts(config: Config, s: State, w: WorkerId)
    requires Inv(config, s) && w in s.workers && Critical(s.workers[w])
    ensures PcOk(s.world, s.clean, s.workers[w]) && HolderOk(s.world, s.countedLines, s.workers[w])
  {
    hide TablesOk, QueueOk, CountersOk, PcOk, HolderOk;
  }

  /** Writing a link: the record gains its shard and nothing else changes. */
  lemma LinkWorldOk(config: Config, s: State, t: TurnId, shard: ShardNumber)
    requires TablesOk(config, s.world, s.clean) && QueueOk(s.world, s.guesses, s.crashedGuesses)
    requires t in s.world.records && s.world.records[t].eligible && s.world.records[t].shard.None?
    requires InShard(s.world.shards, shard, s.world.records[t].golden)
    ensures var world := s.world.(records := SetRecordShard(s.world.records, t, shard));
            && TablesOk(config, world, s.clean) && QueueOk(world, s.guesses, s.crashedGuesses)
            && Grows(s.world, world) && world.records.Keys == s.world.records.Keys
            && world.records[t].shard.Some? && world.records[t].eligible
  {
    var world := s.world.(records := SetRecordShard(s.world.records, t, shard));
    GrowsReflexive(s.world);
    forall u | u in world.records ensures RecordOk(world.turns, s.clean, world.shards, u, world.records[u]) {
      assert RecordOk(s.world.turns, s.clean, s.world.shards, u, s.world.records[u]);
    }
    forall i | 0 <= i < |Flatten(world.shards)| ensures LineOk(world.records, Flatten(world.shards)[i]) {
      assert LineOk(s.world.records, Flatten(world.shards)[i]);
    }
  }

  lemma LinkCounts(records: map<TurnId, Record>, counted: set<TurnId>, total: nat, t: TurnId, shard: ShardNumber)
    requires LineCountOk(records, counted, total)
    ensures LineCountOk(SetRecordShard(records, t, shard), counted, total)
  {
  }

  lemma LinkShape(config: Config, s: State, w: WorkerId, input: Input)
    requires w in s.workers && (s.workers[w].Relinking? || s.workers[w].Linking?)
    ensures var pc := s.workers[w];
            WorkStep(config, s, w, input) ==
            s.(world := s.world.(records := SetRecordShard(s.world.records, pc.claim.key.turn, pc.shard)),
               workers := s.workers[w := if pc.Linking? then CountingLine(pc.claim) else Unlocking(pc.claim, false)])
  {
  }

  lemma LinkKeepsInv(config: Config, s: State, w: WorkerId, input: Input)
    requires Inv(config, s) && w in s.workers && (s.workers[w].Relinking? || s.workers[w].Linking?)
    ensures Inv(config, WorkStep(config, s, w, input))
    ensures Grows(s.world, WorkStep(config, s, w, input).world)
  {
    hide TablesOk, QueueOk, WorkersOk, LockOk, CriticalOk;
    var pc := s.workers[w];
    var t := pc.claim.key.turn;
    var next := if pc.Linking? then CountingLine(pc.claim) else Unlocking(pc.claim, false);
    var after := WorkStep(config, s, w, input);
    HolderFacts(config, s, w);
    LinkShape(config, s, w, input);
    LinkWorldOk(config, s, t, pc.shard);
    LinkCounts(s.world.records, s.countedLines, s.world.eligibleTotal, t, pc.shard);
    RecordCountMoves(s.world.records.Keys, s.countedRecords, s.world.recordsTotal, s.workers, w, next);
    InsideMoveKeepsInv(config, s, after, w, next);
  }

  /** Appending the stored body of a record that has no line yet. */
  lemma AppendWorldOk(config: Config, s: State, t: TurnId, golden: Golden)
    requires TablesOk(config, s.world, s.clean) && QueueOk(s.world, s.guesses, s.crashedGuesses)
    requires Exporting(s.world, t, golden) && !Carries(Flatten(s.world.shards), t)
    ensures var (shards, result) := AppendLine(s.world.shards, config.shardLimit, golden);
            var world := s.world.(shards := shards);
            && TablesOk(config, world, s.clean) && QueueOk(world, s.guesses, s.crashedGuesses)
            && Grows(s.world, world) && result.Ok? && InShard(shards, result.value, golden)
  {
    var shards := AppendLine(s.world.shards, config.shardLimit, golden).0;
    var log := Flatten(s.world.shards);
    assert RecordOk(s.world.turns, s.clean, s.world.shards, t, s.world.records[t]);
    FindAgreesWithLog(s.world.shards, t);
    PutAppends(s.world.shards, config.shardLimit, golden);
    GrowsReflexive(s.world);
    RecordsOkGrows(s.world.turns, s.world.turns, s.clean, s.clean, s.world.shards, shards, s.world.records);
    AppendedLogOk(s.world.records, log, golden, t);
  }

  lemma AppendedLogOk(records: map<TurnId, Record>, log: seq<Golden>, golden: Golden, t: TurnId)
    requires LogOk(records, log) && !Carries(log, t)
    requires golden.utterance == Some(t) && LineOk(records, golden)
    ensures LogOk(records, log + [golden])
  {
    var after := log + [golden];
    forall i | 0 <= i < |after| ensures LineOk(records, after[i]) {
      if i < |log| {
        assert LineOk(records, log[i]);
      }
    }
  }

  lemma AppendShape(config: Config, s: State, w: WorkerId, input: Input)
    requires w in s.workers && s.workers[w].Appending?
    ensures var pc := s.workers[w];
            var (shards, result) := AppendLine(s.world.shards, config.shardLimit, pc.golden);
            result.Ok? ==>
            WorkStep(config, s, w, input) ==
            s.(world := s.world.(shards := shards), workers := s.workers[w := Linking(pc.claim, result.value)])
  {
  }

  lemma AppendKeepsInv(config: Config, s: State, w: WorkerId, input: Input)
    requires Inv(config, s) && w in s.workers && s.workers[w].Appending?
    ensures Inv(config, WorkStep(config, s, w, input))
    ensures Grows(s.world, WorkStep(config, s, w, input).world)
  {
    hide TablesOk, QueueOk, WorkersOk, LockOk, CriticalOk;
    var pc := s.workers[w];
    var after := WorkStep(config, s, w, input);
    HolderFacts(config, s, w);
    AppendWorldOk(config, s, pc.claim.key.turn, pc.golden);
    AppendShape(config, s, w, input);
    var next := after.workers[w];
    RecordCountMoves(s.world.records.Keys, s.countedRecords, s.world.recordsTotal, s.workers, w, next);
    InsideMoveKeepsInv(config, s, after, w, next);
  }

  lemma CountLineShape(config: Config, s: State, w: WorkerId, input: Input)
    requires w in s.workers && s.workers[w].CountingLine?
    ensures var pc := s.workers[w];
            WorkStep(config, s, w, input) ==
            s.(world := s.world.(eligibleTotal := s.world.eligibleTotal + 1),
               countedLines := s.countedLines + {pc.claim.key.turn},
               workers := s.workers[w := Unlocking(pc.claim, false)])
  {
  }

  lemma LineCounterOnly(config: Config, s: State, total: nat)
    requires TablesOk(config, s.world, s.clean) && QueueOk(s.world, s.guesses, s.crashedGuesses)
    ensures var world := s.world.(eligibleTotal := total);
            TablesOk(config, world, s.clean) && QueueOk(world, s.guesses, s.crashedGuesses)
  {
  }

  lemma CountLineKeepsInv(config: Config, s: State, w: WorkerId, input: Input)
    requires Inv(config, s) && w in s.workers && s.workers[w].CountingLine?
    ensures Inv(config, WorkStep(config, s, w, input))
    ensures Grows(s.world, WorkStep(config, s, w, input).world)
  {
    hide TablesOk, QueueOk, WorkersOk, LockOk, CriticalOk;
    var pc := s.workers[w];
    var t := pc.claim.key.turn;
    var next := Unlocking(pc.claim, false);
    var after := WorkStep(config, s, w, input);
    HolderFacts(config, s, w);
    CountLineShape(config, s, w, input);
    LineCounterOnly(config, s, s.world.eligibleTotal + 1);
    assert |s.countedLines + {t}| == |s.countedLines| + 1;
    RecordCountMoves(s.world.records.Keys, s.countedRecords, s.world.recordsTotal, s.workers, w, next);
    GrowsReflexive(s.world);
    InsideMoveKeepsInv(config, s, after, w, next);
  }

  /** Every step of a worker's own program, at whatever point it stands. */
  lemma WorkKeepsInv(config: Config, s: State, w: WorkerId, input: Input)
    requires Inv(config, s) && Enabled(config, s, Work(w, input))
    ensures Inv(config, WorkStep(config, s, w, input))
    ensures Grows(s.world, WorkStep(config, s, w, input).world)
  {
    hide Inv, Grows;
    match s.workers[w]
    case Listening(_, _, _) => PersistKeepsInv(config, s, w, input);
    case CountingTriage(_) => CountTriageKeepsInv(config, s, w, input);
    case Creating(_, _, _) => CreateKeepsInv(config, s, w, input);
    case CountingRecord(_, _, _) => CountRecordKeepsInv(config, s, w, input);
    case Relinking(_, _) => LinkKeepsInv(config, s, w, input);
    case Linking(_, _) => LinkKeepsInv(config, s, w, input);
    case Appending(_, _) => AppendKeepsInv(config, s, w, input);
    case CountingLine(_) => CountLineKeepsInv(config, s, w, input);
    case Finishing(_) => JobEndKeepsInv(config, s, w, input);
    case Failing(_) => JobEndKeepsInv(config, s, w, input);
    case _ =>
      ReadStepKeepsInv(config, s, w, input);
      GrowsReflexive(s.world);
  }
}
