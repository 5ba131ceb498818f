/**
 The durable world of the cleaning gauntlet: database tables, throughput counters and the
 shard files, with each transaction of worker/repository.py as a function on it.
 SQL statements and transactions are atomic; clocks only decide which pending or
 processing jobs are due, so a caller may pick any of them.
 */
module World {
  import opened Wrappers
  import opened Fingerprints
  import opened Records
  import opened Corpus

  datatype Config = Config(tolerance: Tolerance, shardLimit: int, maxTries: int, maxGuesses: int)

  /** `audio` is the fingerprint of the accepted recording, fixed once the upload is accepted. */
  datatype Turn = Turn(
    speaker: PlayerId, status: TurnStatus, outcome: Outcome, attempts: nat,
    audio: Option<AcousticFingerprint>, quality: Option<Quality>)

  datatype JobKind = Triage | Package

  /** The unique index on (kind, payload.turn_id) makes this pair the identity of a job. */
  datatype JobKey = JobKey(kind: JobKind, turn: TurnId)

  datatype JobStatus = Waiting | Processing | Complete | Failed

  datatype Job = Job(status: JobStatus, tries: nat)

  datatype Record = Record(golden: Golden, eligible: bool, shard: Option<ShardNumber>)

  datatype World = World(
    turns: map<TurnId, Turn>, owners: map<(PlayerId, Digest), TurnId>, jobs: map<JobKey, Job>,
    records: map<TurnId, Record>, shards: Shards, triagedTotal: nat, recordsTotal: nat, eligibleTotal: nat)

  // --------------------------------------------------------------------- jobs

  /** INSERT ... ON CONFLICT DO NOTHING. */
  function Enqueue(jobs: map<JobKey, Job>, key: JobKey): map<JobKey, Job> {
    if key in jobs then jobs else jobs[key := Job(Waiting, 0)]
  }

  function ClaimJob(jobs: map<JobKey, Job>, key: JobKey): map<JobKey, Job>
    requires key in jobs
  {
    jobs[key := Job(Processing, jobs[key].tries + 1)]
  }

  /** Every stale claim returns to the queue in one statement. */
  function RecoverStaleClaims(jobs: map<JobKey, Job>, stale: set<JobKey>): map<JobKey, Job> {
    map key | key in jobs ::
      if key in stale && jobs[key].status == Processing then jobs[key].(status := Waiting) else jobs[key]
  }

  /** Unfenced: nothing checks that the caller still holds the claim. */
  function CompleteJob(jobs: map<JobKey, Job>, key: JobKey): map<JobKey, Job> {
    if key in jobs then jobs[key := jobs[key].(status := Complete)] else jobs
  }

  /** Unfenced too; `tries` is the caller's copy from its own claim. */
  function FailJob(jobs: map<JobKey, Job>, key: JobKey, tries: int, maxTries: int): map<JobKey, Job> {
    if key in jobs then jobs[key := jobs[key].(status := if tries >= maxTries then Failed else Waiting)] else jobs
  }

  // -------------------------------------------------------------- fingerprints

  /** The fingerprint that a stored quality object stands for in a near-duplicate scan. */
  function StoredFingerprint(quality: Quality): Option<AcousticFingerprint> {
    if quality.acousticEnvelope == "" then None
    else
      match DecodeEnvelope(quality.acousticEnvelope)
      case None => None
      case Some(envelope) => Some(AcousticFingerprint(quality.dedupHash, envelope))
  }

  /** A stored quality object blocks a candidate fingerprint. */
  ghost predicate Blocks(quality: Quality, candidate: AcousticFingerprint, tolerance: Tolerance) {
    || quality.dedupHash == candidate.contentHash
    || (StoredFingerprint(quality).Some? && Matches(StoredFingerprint(quality).value, candidate, tolerance))
  }

  ghost predicate BlockedBy(turns: map<TurnId, Turn>, speaker: PlayerId, candidate: AcousticFingerprint,
                            other: TurnId, tolerance: Tolerance) {
    && other in turns && turns[other].speaker == speaker && turns[other].quality.Some?
    && Blocks(turns[other].quality.value, candidate, tolerance)
  }

  /** No other stored recording of this speaker blocks the candidate. */
  ghost predicate ScanUnowned(turns: map<TurnId, Turn>, speaker: PlayerId, candidate: AcousticFingerprint,
                              exclude: TurnId, tolerance: Tolerance) {
    forall other :: other != exclude ==> !BlockedBy(turns, speaker, candidate, other, tolerance)
  }

  /** Insert unless either unique constraint, (speaker, fingerprint) or turn, is taken. */
  function InsertOwner(owners: map<(PlayerId, Digest), TurnId>, speaker: PlayerId, hash: Digest, turn: TurnId)
    : map<(PlayerId, Digest), TurnId>
  {
    if (speaker, hash) in owners || turn in owners.Values then owners else owners[(speaker, hash) := turn]
  }

  /** The registration transaction: table first, envelope scan second, undo when the scan objects. */
  ghost function Register(turns: map<TurnId, Turn>, owners: map<(PlayerId, Digest), TurnId>, speaker: PlayerId,
                          candidate: AcousticFingerprint, turn: TurnId, tolerance: Tolerance)
    : (map<(PlayerId, Digest), TurnId>, bool)
  {
    var key := (speaker, candidate.contentHash);
    var inserted := InsertOwner(owners, speaker, candidate.contentHash, turn);
    if key !in inserted || inserted[key] != turn then (inserted, false)
    else if ScanUnowned(turns, speaker, candidate, turn, tolerance) then (inserted, true)
    else (inserted - {key}, false)
  }

  /** The quality object that triage stores; the model's own duplicate hint is overwritten. */
  function StoredQuality(verdict: Gates, candidate: AcousticFingerprint, owned: bool): Quality {
    Quality(verdict.(duplicate := !owned), candidate.contentHash, EncodeEnvelope(candidate.envelope))
  }

  /**
   Ownership, quality and the conditional package job commit together.  An unknown turn
   violates the foreign key, so nothing is stored.
   */
  ghost function PersistTriage(world: World, turn: TurnId, verdict: Gates, speaker: PlayerId,
                               candidate: AcousticFingerprint, tolerance: Tolerance): World {
    if turn !in world.turns then world
    else
      var (owners, owned) := Register(world.turns, world.owners, speaker, candidate, turn, tolerance);
      var row := world.turns[turn].(quality := Some(StoredQuality(verdict, candidate, owned)));
      world.(turns := world.turns[turn := row], owners := owners,
             jobs := if row.status == Scored then Enqueue(world.jobs, JobKey(Package, turn)) else world.jobs)
  }

  // ------------------------------------------------------------------- records

  /** The canonical record built from one read of a scored turn. */
  function GoldenRecord(id: TurnId, turn: Turn, now: nat): Golden
    requires turn.quality.Some?
  {
    var quality := turn.quality.value;
    Golden(Some(id), turn.speaker, turn.outcome == Validated, quality.gates, quality.dedupHash, now)
  }

  /** INSERT ... ON CONFLICT (turn_id) DO NOTHING. */
  function CreateRecord(records: map<TurnId, Record>, turn: TurnId, golden: Golden, eligible: bool)
    : map<TurnId, Record>
  {
    if turn in records then records else records[turn := Record(golden, eligible, None)]
  }

  /** Links an eligible record once; a different shard never replaces the first. */
  function SetRecordShard(records: map<TurnId, Record>, turn: TurnId, shard: ShardNumber): map<TurnId, Record> {
    if turn in records && records[turn].eligible && (records[turn].shard.None? || records[turn].shard == Some(shard))
    then records[turn := records[turn].(shard := Some(shard))]
    else records
  }

  // -------------------------------------------------------------------- growth

  ghost predicate TurnGrows(before: Turn, after: Turn) {
    && after.speaker == before.speaker
    && (before.audio.Some? ==> after.audio == before.audio)
    && (before.quality.Some? ==> after.quality.Some?)
    && (before.status == Scored ==> after.status == Scored && after.outcome == before.outcome)
  }

  ghost predicate RecordGrows(before: Record, after: Record) {
    && after.golden == before.golden && after.eligible == before.eligible
    && (before.shard.Some? ==> after.shard == before.shard)
  }

  ghost predicate TurnsGrow(before: map<TurnId, Turn>, after: map<TurnId, Turn>) {
    forall t :: t in before ==> t in after && TurnGrows(before[t], after[t])
  }

  ghost predicate RecordsGrow(before: map<TurnId, Record>, after: map<TurnId, Record>) {
    forall t :: t in before ==> t in after && RecordGrows(before[t], after[t])
  }

  /**
   What no step ever takes back: recordings, scores and record contents are final, links are
   written once, corpus lines stay where they are, jobs are never deleted, counters never drop.
   */
  ghost predicate Grows(before: World, after: World) {
    && TurnsGrow(before.turns, after.turns)
    && RecordsGrow(before.records, after.records)
    && Extends(before.shards, after.shards)
    && Flatten(before.shards) <= Flatten(after.shards)
    && before.jobs.Keys <= after.jobs.Keys
    && before.triagedTotal <= after.triagedTotal
    && before.recordsTotal <= after.recordsTotal
    && before.eligibleTotal <= after.eligibleTotal
  }

  lemma GrowsReflexive(world: World)
    ensures Grows(world, world)
  {
  }

  lemma ExtendsTransitive(a: Shards, b: Shards, c: Shards)
    requires Extends(a, b) && Extends(b, c)
    ensures Extends(a, c)
  {
    forall i | 0 <= i < |a| ensures a[i] <= c[i] {
      assert a[i] <= b[i] <= c[i];
    }
  }

  lemma GrowsTransitive(a: World, b: World, c: World)
    requires Grows(a, b) && Grows(b, c)
    ensures Grows(a, c)
  {
    ExtendsTransitive(a.shards, b.shards, c.shards);
  }
}
