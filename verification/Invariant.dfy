/**
 The inductive invariant of the gauntlet, split by the tables each part reads, and the
 lemmas that every action keeps it.
 */
module Invariant {
  import opened Wrappers
  import opened Fingerprints
  import opened Records
  import opened Corpus
  import opened World
  import opened Protocol

  // ------------------------------------------------------------------ the parts

  ghost predicate TurnOk(turn: Turn) {
    && (turn.audio.None? <==> turn.status == AwaitingAudio)
    && (turn.status == Scored <==> turn.outcome != Undecided)
    && (turn.audio.Some? ==> ValidEnvelope(turn.audio.value.envelope))
    && (turn.quality.Some? ==>
          && turn.audio.Some?
          && turn.quality.value.dedupHash == turn.audio.value.contentHash
          && turn.quality.value.acousticEnvelope == EncodeEnvelope(turn.audio.value.envelope))
  }

  ghost predicate TurnsOk(turns: map<TurnId, Turn>) {
    forall t :: t in turns ==> TurnOk(turns[t])
  }

  ghost predicate Triaged(turns: map<TurnId, Turn>, t: TurnId) {
    t in turns && turns[t].quality.Some? && turns[t].audio.Some?
  }

  /** Two recordings of one speaker that count as the same utterance. */
  ghost predicate SameUtterance(turns: map<TurnId, Turn>, t: TurnId, u: TurnId, tolerance: Tolerance)
    requires Triaged(turns, t) && Triaged(turns, u)
  {
    turns[t].speaker == turns[u].speaker && Matches(turns[t].audio.value, turns[u].audio.value, tolerance)
  }

  /** Of two matching recordings at most one was ever stored as non-duplicate. */
  ghost predicate CleanOk(turns: map<TurnId, Turn>, clean: set<TurnId>, tolerance: Tolerance) {
    && (forall t :: t in clean ==> Triaged(turns, t))
    && (forall t :: StoredClean(turns, t) ==> t in clean)
    && (forall t, u :: t in clean && u in clean && t != u ==> !SameUtterance(turns, t, u, tolerance))
  }

  /** The turn's stored quality has this hash and says it is no duplicate. */
  ghost predicate Owns(turns: map<TurnId, Turn>, speaker: PlayerId, hash: Digest, t: TurnId) {
    StoredClean(turns, t) && turns[t].speaker == speaker && turns[t].quality.value.dedupHash == hash
  }

  ghost predicate Owner(owners: map<(PlayerId, Digest), TurnId>, speaker: PlayerId, hash: Digest, t: TurnId) {
    (speaker, hash) in owners && owners[(speaker, hash)] == t
  }

  ghost predicate OwnersOk(turns: map<TurnId, Turn>, owners: map<(PlayerId, Digest), TurnId>) {
    forall speaker, hash, t :: Owner(owners, speaker, hash, t) <==> Owns(turns, speaker, hash, t)
  }

  /** A record body that some read of the scored turn produced. */
  ghost predicate Faithful(turns: map<TurnId, Turn>, clean: set<TurnId>, t: TurnId, golden: Golden, eligible: bool) {
    && Triaged(turns, t) && turns[t].status == Scored
    && golden.utterance == Some(t) && golden.speaker == turns[t].speaker
    && golden.correct == (turns[t].outcome == Validated)
    && golden.dedupHash == turns[t].audio.value.contentHash
    && eligible == Eligible(golden.gates, golden.correct)
    && (eligible ==> t in clean)
  }

  ghost predicate RecordOk(turns: map<TurnId, Turn>, clean: set<TurnId>, shards: Shards, t: TurnId, record: Record) {
    && Faithful(turns, clean, t, record.golden, record.eligible)
    && (record.shard.Some? ==> record.eligible && InShard(shards, record.shard.value, record.golden))
  }

  ghost predicate RecordsOk(turns: map<TurnId, Turn>, clean: set<TurnId>, shards: Shards, records: map<TurnId, Record>) {
    forall t :: t in records ==> RecordOk(turns, clean, shards, t, records[t])
  }

  ghost predicate LineOk(records: map<TurnId, Record>, line: Golden) {
    && line.utterance.Some? && line.utterance.value in records
    && records[line.utterance.value].eligible && records[line.utterance.value].golden == line
  }

  ghost predicate LogOk(records: map<TurnId, Record>, log: seq<Golden>) {
    Distinct(log) && forall i :: 0 <= i < |log| ==> LineOk(records, log[i])
  }

  ghost predicate JobOk(turns: map<TurnId, Turn>, key: JobKey) {
    && key.turn in turns && turns[key.turn].audio.Some?
    && (key.kind == Package ==> turns[key.turn].status == Scored && turns[key.turn].quality.Some?)
  }

  ghost predicate JobsOk(turns: map<TurnId, Turn>, jobs: set<JobKey>) {
    forall key :: key in jobs ==> JobOk(turns, key)
  }

  ghost predicate GuessesOk(turns: map<TurnId, Turn>, guesses: map<TurnId, GuessPhase>) {
    forall t :: t in guesses ==>
      && t in turns && turns[t].status == Scored && turns[t].audio.Some?
      && (guesses[t].EnqueuePackage? ==> turns[t].quality.Some?)
  }

  /** Both gates of packaging are complete. */
  ghost predicate ReadyToPackage(turns: map<TurnId, Turn>, t: TurnId) {
    t in turns && turns[t].status == Scored && turns[t].quality.Some?
  }

  ghost predicate NoneLost(turns: map<TurnId, Turn>, jobs: set<JobKey>, guesses: set<TurnId>, crashed: set<TurnId>) {
    forall t :: ReadyToPackage(turns, t) ==> JobKey(Package, t) in jobs || t in guesses || t in crashed
  }

  /** What a worker has read is still true, or can only have become more so. */
  ghost predicate PcOk(world: World, clean: set<TurnId>, pc: Pc) {
    if pc.Idle? then true
    else
      var key := pc.claim.key;
      var t := key.turn;
      && key in world.jobs
      && (match pc
          case Listening(_, speaker, audio) =>
            t in world.turns && world.turns[t].speaker == speaker && world.turns[t].audio == Some(audio)
          case Probing(_, golden, eligible) => Faithful(world.turns, clean, t, golden, eligible)
          case Creating(_, golden, eligible) => Faithful(world.turns, clean, t, golden, eligible)
          case CountingRecord(_, golden, eligible) =>
            Faithful(world.turns, clean, t, golden, eligible) && t in world.records
          case Reloading(_, golden, eligible) =>
            Faithful(world.turns, clean, t, golden, eligible) && t in world.records
          case Locking(_, golden) => Exporting(world, t, golden)
          case Inspecting(_, golden) => Exporting(world, t, golden)
          case Searching(_, golden) => Exporting(world, t, golden)
          case Appending(_, golden) => Exporting(world, t, golden)
          case Relinking(_, _) => t in world.records && world.records[t].eligible
          case Linking(_, _) => t in world.records && world.records[t].eligible
          case CountingLine(_) => t in world.records && world.records[t].eligible
          case _ => true)
  }

  /** The body to append is the stored one. */
  ghost predicate Exporting(world: World, t: TurnId, golden: Golden) {
    t in world.records && world.records[t].eligible && world.records[t].golden == golden
  }

  ghost predicate WorkersOk(world: World, clean: set<TurnId>, workers: map<WorkerId, Pc>) {
    forall w :: w in workers ==> PcOk(world, clean, workers[w])
  }

  /** Exactly the lock holder is inside the critical section. */
  ghost predicate LockOk(lock: Option<WorkerId>, workers: map<WorkerId, Pc>) {
    && (lock.Some? ==> lock.value in workers)
    && (forall w :: w in workers ==> (Critical(workers[w]) <==> lock == Some(w)))
  }

  /** What the lock holder knows and nobody else can invalidate. */
  ghost predicate HolderOk(world: World, counted: set<TurnId>, pc: Pc) {
    if pc.Idle? then true
    else
      var t := pc.claim.key.turn;
      match pc
      case Searching(_, _) => t in world.records && world.records[t].shard.None?
      case Relinking(_, shard) =>
        t in world.records && world.records[t].shard.None? && InShard(world.shards, shard, world.records[t].golden)
      case Appending(_, _) =>
        t in world.records && world.records[t].shard.None? && !Carries(Flatten(world.shards), t)
      case Linking(_, shard) =>
        t in world.records && world.records[t].shard.None? && InShard(world.shards, shard, world.records[t].golden)
      case CountingLine(_) => t in world.records && world.records[t].shard.Some? && t !in counted
      case _ => true
  }

  ghost predicate CriticalOk(world: World, counted: set<TurnId>, lock: Option<WorkerId>, workers: map<WorkerId, Pc>) {
    lock.Some? && lock.value in workers ==> HolderOk(world, counted, workers[lock.value])
  }

  /** The eligible counter is the number of turns counted, each of them linked. */
  ghost predicate LineCountOk(records: map<TurnId, Record>, counted: set<TurnId>, total: nat) {
    && total == |counted|
    && forall t :: t in counted ==> t in records && records[t].shard.Some?
  }

  /** The record counter is the number of records counted; each insertion is counted by its inserter only. */
  ghost predicate RecordCountOk(records: set<TurnId>, counted: set<TurnId>, total: nat, workers: map<WorkerId, Pc>) {
    && total == |counted| && counted <= records
    && (forall w :: w in workers && workers[w].CountingRecord? ==>
          workers[w].claim.key.turn in records && workers[w].claim.key.turn !in counted)
    && (forall v, w :: v in workers && w in workers && v != w && workers[v].CountingRecord? && workers[w].CountingRecord? ==>
          workers[v].claim.key.turn != workers[w].claim.key.turn)
  }

  ghost predicate TablesOk(config: Config, world: World, clean: set<TurnId>) {
    && TurnsOk(world.turns)
    && CleanOk(world.turns, clean, config.tolerance)
    && OwnersOk(world.turns, world.owners)
    && RecordsOk(world.turns, clean, world.shards, world.records)
    && LogOk(world.records, Flatten(world.shards))
    && JobsOk(world.turns, world.jobs.Keys)
  }

  ghost predicate QueueOk(world: World, guesses: map<TurnId, GuessPhase>, crashed: set<TurnId>) {
    && GuessesOk(world.turns, guesses)
    && NoneLost(world.turns, world.jobs.Keys, guesses.Keys, crashed)
  }

  ghost predicate CountersOk(s: State) {
    && LineCountOk(s.world.records, s.countedLines, s.world.eligibleTotal)
    && RecordCountOk(s.world.records.Keys, s.countedRecords, s.world.recordsTotal, s.workers)
  }

  ghost predicate Inv(config: Config, s: State) {
    && TablesOk(config, s.world, s.clean)
    && QueueOk(s.world, s.guesses, s.crashedGuesses)
    && WorkersOk(s.world, s.clean, s.workers)
    && LockOk(s.lock, s.workers)
    && CriticalOk(s.world, s.countedLines, s.lock, s.workers)
    && CountersOk(s)
  }

  // ---------------------------------------------------------------- monotonicity

  lemma FaithfulGrows(before: map<TurnId, Turn>, after: map<TurnId, Turn>, clean: set<TurnId>, clean': set<TurnId>,
                      t: TurnId, golden: Golden, eligible: bool)
    requires TurnsGrow(before, after) && clean <= clean'
    requires Faithful(before, clean, t, golden, eligible)
    ensures Faithful(after, clean', t, golden, eligible)
  {
    assert TurnGrows(before[t], after[t]);
  }

  lemma InShardGrows(before: Shards, after: Shards, number: ShardNumber, golden: Golden)
    requires Extends(before, after) && InShard(before, number, golden)
    ensures InShard(after, number, golden)
  {
    assert before[number - 1] <= after[number - 1];
  }

  lemma PcGrows(before: World, after: World, clean: set<TurnId>, clean': set<TurnId>, pc: Pc)
    requires Grows(before, after) && clean <= clean'
    requires PcOk(before, clean, pc)
    ensures PcOk(after, clean', pc)
  {
    if !pc.Idle? {
      var t := pc.claim.key.turn;
      if pc.Probing? || pc.Creating? || pc.CountingRecord? || pc.Reloading? {
        FaithfulGrows(before.turns, after.turns, clean, clean', t, pc.golden, pc.eligible);
      } else if pc.Listening? {
        assert TurnGrows(before.turns[t], after.turns[t]);
      }
      if t in before.records {
        assert RecordGrows(before.records[t], after.records[t]);
      }
    }
  }

  lemma WorkersGrow(before: World, after: World, clean: set<TurnId>, clean': set<TurnId>, workers: map<WorkerId, Pc>)
    requires Grows(before, after) && clean <= clean' && WorkersOk(before, clean, workers)
    ensures WorkersOk(after, clean', workers)
  {
    forall w | w in workers ensures PcOk(after, clean', workers[w]) {
      PcGrows(before, after, clean, clean', workers[w]);
    }
  }

  /** One worker moves on in a grown world; all others keep what they know. */
  lemma WorkersMove(before: World, after: World, clean: set<TurnId>, clean': set<TurnId>,
                    workers: map<WorkerId, Pc>, w: WorkerId, pc: Pc)
    requires Grows(before, after) && clean <= clean' && WorkersOk(before, clean, workers)
    requires PcOk(after, clean', pc)
    ensures WorkersOk(after, clean', workers[w := pc])
  {
    WorkersGrow(before, after, clean, clean', workers);
  }

  lemma RecordsOkGrows(before: map<TurnId, Turn>, after: map<TurnId, Turn>, clean: set<TurnId>, clean': set<TurnId>,
                       shards: Shards, shards': Shards, records: map<TurnId, Record>)
    requires TurnsGrow(before, after) && clean <= clean' && Extends(shards, shards')
    requires RecordsOk(before, clean, shards, records)
    ensures RecordsOk(after, clean', shards', records)
  {
    forall t | t in records ensures RecordOk(after, clean', shards', t, records[t]) {
      assert RecordOk(before, clean, shards, t, records[t]);
      FaithfulGrows(before, after, clean, clean', t, records[t].golden, records[t].eligible);
      if records[t].shard.Some? {
        InShardGrows(shards, shards', records[t].shard.value, records[t].golden);
      }
    }
  }

  lemma JobsOkGrows(before: map<TurnId, Turn>, after: map<TurnId, Turn>, jobs: set<JobKey>)
    requires TurnsGrow(before, after) && JobsOk(before, jobs)
    ensures JobsOk(after, jobs)
  {
    forall key | key in jobs ensures JobOk(after, key) {
      assert JobOk(before, key);
      assert TurnGrows(before[key.turn], after[key.turn]);
    }
  }
}
