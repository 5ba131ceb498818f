/**
 The worker as it is written: a repository object that updates its tables in place and a
 service that calls it statement by statement.  Each repository method is one transaction of
 `World`; each handler, run without interference, is the big step `Convergence.RunOut` of the
 transition system, so everything proved about runs holds for what these methods do.
 */
module Worker {
  import opened Wrappers
  import opened Fingerprints
  import opened Records
  import opened Corpus
  import opened World
  import Tx = World
  import opened Protocol
  import opened Invariant
  import opened TriageProofs
  import opened Convergence

  datatype TriageError = CorruptEnvelope | UnknownTurn

  /** A stored envelope text that the decoder would reject. */
  predicate Corrupt(quality: Quality) {
    quality.acousticEnvelope != "" && DecodeEnvelope(quality.acousticEnvelope).None?
  }

  class GauntletRepository {
    var turns: map<TurnId, Turn>
    var owners: map<(PlayerId, Digest), TurnId>
    var jobs: map<JobKey, Job>
    var records: map<TurnId, Record>
    var triagedTotal: nat
    var recordsTotal: nat
    var eligibleTotal: nat
    const tolerance: Tolerance

    /** The tables beside a given set of shard files. */
    ghost function Tables(shards: Shards): World
      reads this
    {
      World(turns, owners, jobs, records, shards, triagedTotal, recordsTotal, eligibleTotal)
    }

    constructor (tolerance: Tolerance)
      ensures Tables([]) == Initial().world && this.tolerance == tolerance
    {
      this.tolerance := tolerance;
      turns, owners, jobs, records := map[], map[], map[], map[];
      triagedTotal, recordsTotal, eligibleTotal := 0, 0, 0;
    }

    // ------------------------------------------------------------------- jobs

    method RecoverStaleClaims(stale: set<JobKey>) returns (recovered: nat)
      modifies this`jobs
      ensures jobs == Tx.RecoverStaleClaims(old(jobs), stale)
      ensures recovered == |set key | key in stale && key in old(jobs) && old(jobs)[key].status == Processing|
      ensures forall key :: key in old(jobs) ==> key in jobs && jobs[key].tries == old(jobs)[key].tries
      ensures forall key :: key in old(jobs) && (key !in stale || old(jobs)[key].status != Processing) ==> jobs[key] == old(jobs)[key]
      ensures forall key :: key in stale && key in jobs ==> jobs[key].status != Processing
    {
      recovered := |set key | key in stale && key in jobs && jobs[key].status == Processing|;
      jobs := Tx.RecoverStaleClaims(jobs, stale);
    }

    /** Claims some due pending job; which one is due first is left to the clock. */
    method ClaimNextJob() returns (claim: Option<Claim>)
      modifies this`jobs
      ensures claim.None? ==> jobs == old(jobs) && forall key :: key in jobs ==> jobs[key].status != Waiting
      ensures claim.Some? ==>
                && claim.value.key in old(jobs) && old(jobs)[claim.value.key].status == Waiting
                && jobs == ClaimJob(old(jobs), claim.value.key) && claim.value.tries == jobs[claim.value.key].tries
    {
      var due := set key | key in jobs && jobs[key].status == Waiting;
      if due == {} {
        assert forall key :: key in jobs && jobs[key].status == Waiting ==> key in due;
        return None;
      }
      var key :| key in due;
      jobs := ClaimJob(jobs, key);
      return Some(Claim(key, jobs[key].tries));
    }

    method CompleteJob(key: JobKey)
      modifies this`jobs
      ensures jobs == Tx.CompleteJob(old(jobs), key)
      ensures jobs.Keys == old(jobs).Keys && forall other :: other in jobs && other != key ==> jobs[other] == old(jobs)[other]
      ensures key in jobs ==> jobs[key].status == Complete && jobs[key].tries == old(jobs)[key].tries
    {
      if key in jobs {
        jobs := jobs[key := jobs[key].(status := Complete)];
      }
    }

    method FailJob(claim: Claim, maxTries: int) returns (parked: bool)
      modifies this`jobs
      ensures jobs == Tx.FailJob(old(jobs), claim.key, claim.tries, maxTries)
      ensures parked <==> claim.tries >= maxTries
      ensures jobs.Keys == old(jobs).Keys && forall other :: other in jobs && other != claim.key ==> jobs[other] == old(jobs)[other]
      ensures claim.key in jobs ==> jobs[claim.key] == old(jobs)[claim.key].(status := if parked then Failed else Waiting)
    {
      if claim.tries >= maxTries {
        if claim.key in jobs {
          jobs := jobs[claim.key := jobs[claim.key].(status := Failed)];
        }
        return true;
      }
      if claim.key in jobs {
        jobs := jobs[claim.key := jobs[claim.key].(status := Waiting)];
      }
      return false;
    }

    // ---------------------------------------------------------- fingerprint index

    /** Scans the speaker's other stored recordings; a corrupt envelope met first aborts the scan. */
    method ScanFingerprintUnowned(speaker: PlayerId, candidate: AcousticFingerprint, exclude: TurnId)
      returns (unowned: Result<bool, TriageError>)
      ensures unowned.Ok? ==> (unowned.value <==> ScanUnowned(turns, speaker, candidate, exclude, tolerance))
      ensures unowned.Err? ==> exists t :: t in turns && turns[t].quality.Some? && Corrupt(turns[t].quality.value)
    {
      var rows := set t | t in turns && turns[t].speaker == speaker && t != exclude && turns[t].quality.Some?;
      ghost var all := rows;
      while rows != {}
        invariant rows <= all
        invariant forall t :: t in all && t !in rows ==> !BlockedBy(turns, speaker, candidate, t, tolerance)
        decreases rows
      {
        var t :| t in rows;
        var quality := turns[t].quality.value;
        if quality.dedupHash == candidate.contentHash {
          assert BlockedBy(turns, speaker, candidate, t, tolerance);
          return Ok(false);
        }
        if quality.acousticEnvelope != "" {
          var envelope := DecodeEnvelope(quality.acousticEnvelope);
          if envelope.None? {
            return Err(CorruptEnvelope);
          }
          var near := FingerprintsMatch(AcousticFingerprint(quality.dedupHash, envelope.value), candidate, tolerance);
          if near {
            assert BlockedBy(turns, speaker, candidate, t, tolerance);
            return Ok(false);
          }
        }
        rows := rows - {t};
      }
      forall t | t != exclude ensures !BlockedBy(turns, speaker, candidate, t, tolerance) {
        if t in turns && turns[t].speaker == speaker && turns[t].quality.Some? {
          assert t in all;
        }
      }
      return Ok(true);
    }

    method SpeakerHasMatchingFingerprint(speaker: PlayerId, candidate: AcousticFingerprint, exclude: TurnId)
      returns (matching: Result<bool, TriageError>)
      ensures matching.Err? ==> exists t :: t in turns && turns[t].quality.Some? && Corrupt(turns[t].quality.value)
      ensures matching.Ok? && OwnersOk(turns, owners) ==>
                (matching.value <==> !ScanUnowned(turns, speaker, candidate, exclude, tolerance))
    {
      var key := (speaker, candidate.contentHash);
      if key in owners && owners[key] != exclude {
        if OwnersOk(turns, owners) {
          OtherOwnerBlocks(turns, owners, speaker, candidate, exclude, tolerance);
        }
        return Ok(true);
      }
      var unowned := ScanFingerprintUnowned(speaker, candidate, exclude);
      if unowned.Err? {
        return Err(unowned.error);
      }
      return Ok(!unowned.value);
    }

    /** Insert-or-look-up on the ownership table. */
    method RegisterFingerprintTable(speaker: PlayerId, hash: Digest, turn: TurnId) returns (owned: bool)
      modifies this`owners
      ensures owners == InsertOwner(old(owners), speaker, hash, turn)
      ensures owned <==> (speaker, hash) in owners && owners[(speaker, hash)] == turn
    {
      if (speaker, hash) !in owners && turn !in owners.Values {
        owners := owners[(speaker, hash) := turn];
        return true;
      }
      return (speaker, hash) in owners && owners[(speaker, hash)] == turn;
    }

    /** Runs inside the caller's transaction: on error the caller rolls the table back. */
    method RegisterSpeakerFingerprint(speaker: PlayerId, candidate: AcousticFingerprint, turn: TurnId)
      returns (owned: Result<bool, TriageError>)
      modifies this`owners
      ensures owned.Ok? ==>
                (owners, owned.value) == Register(turns, old(owners), speaker, candidate, turn, tolerance)
      ensures owned.Err? ==> exists t :: t in turns && turns[t].quality.Some? && Corrupt(turns[t].quality.value)
    {
      var exact := RegisterFingerprintTable(speaker, candidate.contentHash, turn);
      if !exact {
        return Ok(false);
      }
      var clear := ScanFingerprintUnowned(speaker, candidate, turn);
      if clear.Err? {
        return Err(clear.error);
      }
      if clear.value {
        return Ok(true);
      }
      owners := owners - {(speaker, candidate.contentHash)};
      return Ok(false);
    }

    /** One transaction: all of it or, on error, nothing. */
    method PersistTriage(turn: TurnId, verdict: Gates, speaker: PlayerId, candidate: AcousticFingerprint)
      returns (stored: Result<Quality, TriageError>)
      modifies this
      ensures stored.Err? ==> Tables([]) == old(Tables([]))
      ensures stored.Err? <== turn !in old(turns)
      ensures stored.Err? && turn in old(turns) ==>
                exists t :: t in turns && turns[t].quality.Some? && Corrupt(turns[t].quality.value)
      ensures stored.Ok? ==>
                && Tables([]) == Tx.PersistTriage(old(Tables([])), turn, verdict, speaker, candidate, tolerance)
                && turns[turn].quality == Some(stored.value)
    {
      if turn !in turns {
        return Err(UnknownTurn);
      }
      var before := owners;
      var owned := RegisterSpeakerFingerprint(speaker, candidate, turn);
      if owned.Err? {
        owners := before;
        return Err(owned.error);
      }
      var quality := StoredQuality(verdict, candidate, owned.value);
      turns := turns[turn := turns[turn].(quality := Some(quality))];
      if turns[turn].status == Scored {
        jobs := Enqueue(jobs, JobKey(Package, turn));
      }
      return Ok(quality);
    }

    // ----------------------------------------------------------------- records

    method CreateRecord(turn: TurnId, golden: Golden, eligible: bool) returns (inserted: bool)
      modifies this`records
      ensures records == Tx.CreateRecord(old(records), turn, golden, eligible)
      ensures inserted <==> turn !in old(records)
      ensures turn in records && RecordsGrow(old(records), records)
    {
      if turn in records {
        return false;
      }
      records := records[turn := Record(golden, eligible, None)];
      return true;
    }

    method SetRecordShard(turn: TurnId, shard: ShardNumber)
      modifies this`records
      ensures records == Tx.SetRecordShard(old(records), turn, shard)
      ensures RecordsGrow(old(records), records) && records.Keys == old(records).Keys
      ensures turn in records && records[turn].eligible ==> records[turn].shard.Some?
    {
      if turn in records && records[turn].eligible && (records[turn].shard.None? || records[turn].shard == Some(shard)) {
        records := records[turn := records[turn].(shard := Some(shard))];
      }
    }
  }

  class GauntletService {
    const repository: GauntletRepository
    const corpus: CorpusWriter
    const config: Config

    ghost predicate Valid()
      reads repository, corpus
    {
      && corpus.Valid() && corpus.limit == config.shardLimit
      && repository.tolerance == config.tolerance && TurnsOk(repository.turns)
    }

    ghost function Snapshot(): World
      reads repository, corpus
    {
      repository.Tables(corpus.Shards())
    }

    constructor (config: Config)
      ensures Valid() && Snapshot() == Initial().world && this.config == config
      ensures fresh(repository) && fresh(corpus)
    {
      this.config := config;
      repository := new GauntletRepository(config.tolerance);
      corpus := new CorpusWriter(config.shardLimit);
    }

    /** `handled` says whether the handler returned normally; the rest of the handler is `process_once`. */
    ghost function Ending(claim: Claim, handled: bool): Pc {
      if handled then Finishing(claim) else Failing(claim)
    }

    method ExportEligibleRecord(claim: Claim, golden: Golden, ghost input: Input) returns (handled: bool)
      requires Valid()
      modifies repository, corpus
      ensures Valid() && repository.turns == old(repository.turns)
      ensures RunOut(config, old(Snapshot()), Locking(claim, golden), input)
           == RunOut(config, Snapshot(), Ending(claim, handled), input)
    {
      hide RunOut, NextPc, NextWorld, Layout, Chunks, Distinct, Flatten, AppendLine, Find, TurnsOk, Eligible, Numbered, Tx.PersistTriage, RecordsGrow;
      var turn := claim.key.turn;
      InspectSteps(config, Snapshot(), claim, golden, input);
      if turn !in repository.records {
        return false;
      }
      var state := repository.records[turn];
      if !state.eligible || state.shard.Some? {
        return true;
      }
      SearchSteps(config, Snapshot(), claim, golden, input);
      var found := corpus.FindUtterance(turn);
      if found.Some? {
        repository.SetRecordShard(turn, found.value);
        return true;
      }
      AppendSteps(config, Snapshot(), claim, golden, input);
      var shard := corpus.Append(golden);
      if shard.Err? {
        return false;
      }
      repository.SetRecordShard(turn, shard.value);
      repository.eligibleTotal := repository.eligibleTotal + 1;
      return true;
    }

    /** What `_package` does once an existing record has been read. */
    method Reconcile(claim: Claim, eligible: bool, existing: Record, ghost input: Input) returns (handled: bool)
      requires Valid()
      modifies repository, corpus
      ensures Valid() && repository.turns == old(repository.turns)
      ensures RunOut(config, old(Snapshot()), AfterRead(claim, eligible, existing), input)
           == RunOut(config, Snapshot(), Ending(claim, handled), input)
    {
      hide RunOut, Layout, Chunks, Distinct, Flatten, AppendLine, Find, TurnsOk, Eligible, Numbered, Tx.PersistTriage, RecordsGrow;
      if !existing.eligible || !eligible {
        return true;
      }
      if existing.shard.Some? {
        return true;
      }
      handled := ExportEligibleRecord(claim, existing.golden, input);
    }

    method Package(claim: Claim, now: nat, ghost input: Input) returns (handled: bool)
      requires Valid() && claim.key.kind == JobKind.Package && input.now == now
      modifies repository, corpus
      ensures Valid() && repository.turns == old(repository.turns)
      ensures RunOut(config, old(Snapshot()), Dispatched(claim), input)
           == RunOut(config, Snapshot(), Ending(claim, handled), input)
    {
      hide RunOut, NextPc, NextWorld, Layout, Chunks, Distinct, Flatten, AppendLine, Find, TurnsOk, Eligible, Numbered, Tx.PersistTriage, RecordsGrow;
      var turn := claim.key.turn;
      PackageSteps(config, Snapshot(), claim, input);
      if turn !in repository.turns {
        return false;
      }
      var context := repository.turns[turn];
      if context.status != Scored || context.quality.None? {
        return true;
      }
      var golden := GoldenRecord(turn, context, now);
      var eligible := Eligible(golden.gates, golden.correct);
      ProbeSteps(config, Snapshot(), claim, golden, eligible, input);
      if turn !in repository.records {
        var inserted := repository.CreateRecord(turn, golden, eligible);
        if inserted {
          repository.recordsTotal := repository.recordsTotal + 1;
        }
        if turn !in repository.records {
          return false;
        }
      }
      handled := Reconcile(claim, eligible, repository.records[turn], input);
    }

    method Triage(claim: Claim, verdict: Gates, ghost input: Input) returns (handled: bool)
      requires Valid() && claim.key.kind == JobKind.Triage && input.verdict == verdict
      modifies repository
      ensures Valid()
      ensures RunOut(config, old(Snapshot()), Dispatched(claim), input)
           == RunOut(config, Snapshot(), Ending(claim, handled), input)
    {
      hide RunOut, Layout, Chunks, Distinct, Flatten, AppendLine, Find, Eligible, Numbered, Tx.PersistTriage;
      var turn := claim.key.turn;
      Unfold(config, Snapshot(), Dispatched(claim), input);
      if turn !in repository.turns || repository.turns[turn].audio.None? {
        return false;
      }
      assert TurnOk(repository.turns[turn]);
      var speaker, audio := repository.turns[turn].speaker, repository.turns[turn].audio.value;
      NoneCorrupt(repository.turns);
      // The probe only informs the model prompt; the transaction below overrides it.
      var softDuplicate := repository.SpeakerHasMatchingFingerprint(speaker, audio, turn);
      Unfold(config, Snapshot(), Listening(claim, speaker, audio), input);
      PersistIgnoresShards(Snapshot(), [], turn, verdict, speaker, audio, config.tolerance);
      var stored := repository.PersistTriage(turn, verdict, speaker, audio);
      Unfold(config, Snapshot(), CountingTriage(claim), input);
      repository.triagedTotal := repository.triagedTotal + 1;
      return true;
    }

    /** Claims and processes at most one job. */
    method ProcessOnce(verdict: Gates, now: nat) returns (worked: bool)
      requires Valid()
      modifies repository, corpus
      ensures Valid()
      ensures !worked ==> Snapshot() == old(Snapshot())
                          && forall key :: key in repository.jobs ==> repository.jobs[key].status != Waiting
      ensures worked ==>
                exists key :: key in old(repository.jobs) && old(repository.jobs)[key].status == Waiting
                  && Snapshot() == ProcessedWorld(config, old(Snapshot()), key, Input(verdict, now))
    {
      hide RunOut, Layout, Chunks, Distinct, Flatten, AppendLine, Find, TurnsOk, Eligible, Numbered, Tx.PersistTriage, RecordsGrow;
      var claimed := repository.ClaimNextJob();
      if claimed.None? {
        return false;
      }
      var claim := claimed.value;
      ghost var input := Input(verdict, now);
      assert Snapshot() == old(Snapshot()).(jobs := ClaimJob(old(Snapshot()).jobs, claim.key));
      ghost var start := Snapshot();
      var handled;
      match claim.key.kind {
        case Triage => handled := Triage(claim, verdict, input);
        case Package => handled := Package(claim, now, input);
      }
      if handled {
        EndsReporting(config, Snapshot(), claim, input);
        repository.CompleteJob(claim.key);
      } else {
        Unfold(config, Snapshot(), Failing(claim), input);
        var parked := repository.FailJob(claim, config.maxTries);
        Finished(config, Snapshot(), input);
      }
      return true;
    }
  }

  /** Claiming one job and running its handler to the end. */
  ghost function ProcessedWorld(config: Config, world: World, key: JobKey, input: Input): World
    requires key in world.jobs
  {
    RunOut(config, world.(jobs := ClaimJob(world.jobs, key)), Dispatched(Claim(key, world.jobs[key].tries + 1)), input)
  }

  lemma Unfold(config: Config, world: World, pc: Pc, input: Input)
    requires !pc.Idle?
    ensures RunOut(config, world, pc, input)
         == RunOut(config, NextWorld(config, world, pc, input), NextPc(config, world, pc, input), input)
  {
  }

  lemma Finished(config: Config, world: World, input: Input)
    ensures RunOut(config, world, Idle, input) == world
  {
  }

  lemma PersistIgnoresShards(world: World, shards: Shards, t: TurnId, verdict: Gates, speaker: PlayerId,
                             candidate: AcousticFingerprint, tolerance: Tolerance)
    requires TurnsOk(world.turns) && Candidate(world.turns, speaker, candidate, t)
    ensures var after := Tx.PersistTriage(world, t, verdict, speaker, candidate, tolerance);
            && Tx.PersistTriage(world.(shards := shards), t, verdict, speaker, candidate, tolerance) == after.(shards := shards)
            && after.shards == world.shards && TurnsOk(after.turns)
  {
    assert TurnOk(world.turns[t]);
  }

  /** Reading the turn context of a package job. */
  lemma PackageSteps(config: Config, world: World, claim: Claim, input: Input)
    requires claim.key.kind == JobKind.Package
    ensures RunOut(config, world, Dispatched(claim), input)
         == RunOut(config, world,
                   if claim.key.turn !in world.turns then Failing(claim)
                   else if !ReadyToPackage(world.turns, claim.key.turn) then Finishing(claim)
                   else
                     var golden := GoldenRecord(claim.key.turn, world.turns[claim.key.turn], input.now);
                     Probing(claim, golden, Eligible(golden.gates, golden.correct)), input)
  {
    Unfold(config, world, Dispatched(claim), input);
  }

  /** Finding the record, or inserting, counting and re-reading it. */
  lemma ProbeSteps(config: Config, world: World, claim: Claim, golden: Golden, eligible: bool, input: Input)
    ensures var t := claim.key.turn;
            RunOut(config, world, Probing(claim, golden, eligible), input) ==
            if t in world.records then RunOut(config, world, AfterRead(claim, eligible, world.records[t]), input)
            else
              RunOut(config, world.(records := Tx.CreateRecord(world.records, t, golden, eligible),
                                    recordsTotal := world.recordsTotal + 1),
                     AfterRead(claim, eligible, Record(golden, eligible, None)), input)
  {
    var t := claim.key.turn;
    Unfold(config, world, Probing(claim, golden, eligible), input);
    if t !in world.records {
      var created := world.(records := Tx.CreateRecord(world.records, t, golden, eligible));
      Unfold(config, world, Creating(claim, golden, eligible), input);
      Unfold(config, created, CountingRecord(claim, golden, eligible), input);
      Unfold(config, created.(recordsTotal := world.recordsTotal + 1), Reloading(claim, golden, eligible), input);
    }
  }

  /** Taking the lock and re-reading the export state. */
  lemma InspectSteps(config: Config, world: World, claim: Claim, golden: Golden, input: Input)
    ensures RunOut(config, world, Locking(claim, golden), input)
         == RunOut(config, world,
                   if claim.key.turn !in world.records then Failing(claim)
                   else if !world.records[claim.key.turn].eligible || world.records[claim.key.turn].shard.Some? then Finishing(claim)
                   else Searching(claim, golden), input)
  {
    Unfold(config, world, Locking(claim, golden), input);
    Unfold(config, world, Inspecting(claim, golden), input);
    Unfold(config, world, Unlocking(claim, true), input);
    Unfold(config, world, Unlocking(claim, false), input);
  }

  /** Looking for a line left by a crash, and re-linking it. */
  lemma SearchSteps(config: Config, world: World, claim: Claim, golden: Golden, input: Input)
    ensures RunOut(config, world, Searching(claim, golden), input)
         == (match Find(world.shards, claim.key.turn)
             case None => RunOut(config, world, Appending(claim, golden), input)
             case Some(shard) =>
               RunOut(config, world.(records := Tx.SetRecordShard(world.records, claim.key.turn, shard)), Finishing(claim), input))
  {
    Unfold(config, world, Searching(claim, golden), input);
    match Find(world.shards, claim.key.turn)
    case None =>
    case Some(shard) =>
      Unfold(config, world, Relinking(claim, shard), input);
      Unfold(config, NextWorld(config, world, Relinking(claim, shard), input), Unlocking(claim, false), input);
  }

  /** Appending, linking and counting a new line. */
  lemma AppendSteps(config: Config, world: World, claim: Claim, golden: Golden, input: Input)
    ensures var (shards, result) := AppendLine(world.shards, config.shardLimit, golden);
            RunOut(config, world, Appending(claim, golden), input) ==
            (match result
             case Err(_) => RunOut(config, world.(shards := shards), Failing(claim), input)
             case Ok(shard) =>
               RunOut(config, world.(shards := shards, records := Tx.SetRecordShard(world.records, claim.key.turn, shard),
                                     eligibleTotal := world.eligibleTotal + 1), Finishing(claim), input))
  {
    hide AppendLine;
    var (shards, result) := AppendLine(world.shards, config.shardLimit, golden);
    var appended := world.(shards := shards);
    Unfold(config, world, Appending(claim, golden), input);
    match result
    case Err(_) => Unfold(config, appended, Unlocking(claim, true), input);
    case Ok(shard) =>
      var linked := appended.(records := Tx.SetRecordShard(world.records, claim.key.turn, shard));
      Unfold(config, appended, Linking(claim, shard), input);
      Unfold(config, linked, CountingLine(claim), input);
      Unfold(config, linked.(eligibleTotal := world.eligibleTotal + 1), Unlocking(claim, false), input);
  }

  /** Text written by the encoder is never corrupt. */
  lemma NoneCorrupt(turns: map<TurnId, Turn>)
    requires TurnsOk(turns)
    ensures forall t :: t in turns && turns[t].quality.Some? ==> !Corrupt(turns[t].quality.value)
  {
    forall t | t in turns && turns[t].quality.Some? ensures !Corrupt(turns[t].quality.value) {
      assert TurnOk(turns[t]);
      EnvelopeRoundTrip(turns[t].audio.value.envelope);
    }
  }
}
