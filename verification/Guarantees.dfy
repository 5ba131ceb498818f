/**
 What every run of the gauntlet keeps, stated over reachable states and over whole runs:
 any number of workers, crashes, recovered claims and zombie workers included.
 */
module Guarantees {
  import opened Wrappers
  import opened Sequences
  import opened Fingerprints
  import opened Records
  import opened Corpus
  import opened World
  import opened Protocol
  import opened Invariant
  import opened TriageProofs
  import opened ActionProofs

  // -------------------------------------------------------------------- corpus

  /** Exactly-once export: an utterance id is on at most one line of one shard. */
  lemma ExactlyOnceExport(config: Config, s: State, a: ShardNumber, i: nat, b: ShardNumber, j: nat)
    requires Reachable(config, s)
    requires 1 <= a <= |s.world.shards| && i < |s.world.shards[a - 1]|
    requires 1 <= b <= |s.world.shards| && j < |s.world.shards[b - 1]|
    requires s.world.shards[a - 1][i].utterance == s.world.shards[b - 1][j].utterance
    ensures a == b && i == j
  {
    ReachableInv(config, s);
    var k := FlattenIndex(s.world.shards, a, i);
    assert LineOk(s.world.records, Flatten(s.world.shards)[k]);
    OnlyOneLine(s.world.shards, a, i, b, j);
  }

  /** Corpus de-duplication: two lines of one speaker never carry matching recordings. */
  lemma CorpusHasNoTwins(config: Config, s: State, i: nat, j: nat)
    requires Reachable(config, s)
    requires i < j < |Flatten(s.world.shards)|
    requires Flatten(s.world.shards)[i].speaker == Flatten(s.world.shards)[j].speaker
    ensures var (a, b) := (Flatten(s.world.shards)[i].utterance, Flatten(s.world.shards)[j].utterance);
            && a.Some? && b.Some? && Triaged(s.world.turns, a.value) && Triaged(s.world.turns, b.value)
            && !Matches(s.world.turns[a.value].audio.value, s.world.turns[b.value].audio.value, config.tolerance)
  {
    ReachableInv(config, s);
    var log := Flatten(s.world.shards);
    assert LineOk(s.world.records, log[i]) && LineOk(s.world.records, log[j]);
    var t, u := log[i].utterance.value, log[j].utterance.value;
    assert RecordOk(s.world.turns, s.clean, s.world.shards, t, s.world.records[t]);
    assert RecordOk(s.world.turns, s.clean, s.world.shards, u, s.world.records[u]);
    assert !SameUtterance(s.world.turns, t, u, config.tolerance);
  }

  /** A corpus line is the stored body of an eligible record; every machine finding in it is in order, and its turn was validated. */
  lemma EveryLineIsEligible(config: Config, s: State, i: nat)
    requires Reachable(config, s) && i < |Flatten(s.world.shards)|
    ensures var line := Flatten(s.world.shards)[i];
            && line.utterance.Some? && line.utterance.value in s.world.records
            && s.world.records[line.utterance.value].golden == line
            && s.world.records[line.utterance.value].eligible
            && line.gates.isSpeech && line.gates.singleSpeaker && line.gates.audioQualityOk
            && !line.gates.contaminated && !line.gates.duplicate && line.correct
            && line.utterance.value in s.world.turns
            && s.world.turns[line.utterance.value].status == Scored
            && s.world.turns[line.utterance.value].outcome == Validated
            && s.world.turns[line.utterance.value].speaker == line.speaker
  {
    ReachableInv(config, s);
    var line := Flatten(s.world.shards)[i];
    assert LineOk(s.world.records, line);
    var t := line.utterance.value;
    assert RecordOk(s.world.turns, s.clean, s.world.shards, t, s.world.records[t]);
  }

  /** A linked record is eligible and its stored body, not a racing worker's copy, is in that shard. */
  lemma LinkSoundness(config: Config, s: State, t: TurnId)
    requires Reachable(config, s) && t in s.world.records && s.world.records[t].shard.Some?
    ensures s.world.records[t].eligible
    ensures InShard(s.world.shards, s.world.records[t].shard.value, s.world.records[t].golden)
    ensures s.world.records[t].golden.utterance == Some(t)
  {
    ReachableInv(config, s);
    assert RecordOk(s.world.turns, s.clean, s.world.shards, t, s.world.records[t]);
  }

  /** An unscored turn has neither record nor line; an unclear one may have a record but never a line. */
  lemma UnvalidatedNeverExported(config: Config, s: State, t: TurnId)
    requires Reachable(config, s) && t in s.world.turns
    ensures s.world.turns[t].status != Scored ==> t !in s.world.records
    ensures s.world.turns[t].outcome != Validated ==>
              !Carries(Flatten(s.world.shards), t) && (t in s.world.records ==> !s.world.records[t].eligible)
  {
    ReachableInv(config, s);
    if t in s.world.records {
      assert RecordOk(s.world.turns, s.clean, s.world.shards, t, s.world.records[t]);
    }
    if Carries(Flatten(s.world.shards), t) {
      var i :| 0 <= i < |Flatten(s.world.shards)| && Flatten(s.world.shards)[i].utterance == Some(t);
      EveryLineIsEligible(config, s, i);
    }
  }

  /** From any reachable state on, records, links, scores, lines and jobs are only added to. */
  lemma NothingIsTakenBack(config: Config, s: State, run: seq<Action>)
    requires Reachable(config, s) && CanRun(config, s, run)
    ensures Grows(s.world, After(config, s, run).world)
  {
    hide Inv, Grows, Enabled, Do;
    ReachableInv(config, s);
    RunKeepsInv(config, s, run);
  }

  // ------------------------------------------------------------ de-duplication

  lemma {:induction false} RunSplit(config: Config, s: State, run: seq<Action>, i: nat)
    requires CanRun(config, s, run) && i <= |run|
    ensures CanRun(config, s, run[..i]) && CanRun(config, After(config, s, run[..i]), run[i..])
    ensures After(config, After(config, s, run[..i]), run[i..]) == After(config, s, run)
    decreases i
  {
    hide Enabled, Do;
    if i > 0 {
      var next := Do(config, s, run[0]);
      RunSplit(config, next, run[1..], i - 1);
      assert run[..i][0] == run[0] && run[..i][1..] == run[1..][..i - 1];
      assert run[i..] == run[1..][i - 1..];
    } else {
      assert run[..0] == [] && run[0..] == run;
    }
  }

  /** The world after the first `i` actions of a run from the start. */
  ghost function WorldAt(config: Config, run: seq<Action>, i: nat): World
    requires CanRun(config, Initial(), run) && i <= |run|
  {
    RunSplit(config, Initial(), run, i);
    After(config, Initial(), run[..i]).world
  }

  /**
   The key to de-duplication: over a whole run, re-triages and flag flips included, at most one
   of two matching recordings of a speaker is stored as non-duplicate at any time.
   */
  lemma AtMostOneEverClean(config: Config, run: seq<Action>, i: nat, j: nat, t: TurnId, u: TurnId)
    requires CanRun(config, Initial(), run) && i <= j <= |run|
    requires StoredClean(WorldAt(config, run, i).turns, t) && StoredClean(WorldAt(config, run, j).turns, u)
    requires t != u
    ensures Triaged(WorldAt(config, run, j).turns, t) && Triaged(WorldAt(config, run, j).turns, u)
    ensures !SameUtterance(WorldAt(config, run, j).turns, t, u, config.tolerance)
    ensures !SameUtterance(WorldAt(config, run, j).turns, u, t, config.tolerance)
  {
    hide Enabled, Do;
    RunSplit(config, Initial(), run, i);
    RunSplit(config, Initial(), run, j);
    var early := After(config, Initial(), run[..i]);
    RunSplit(config, Initial(), run[..j], i);
    assert run[..j][..i] == run[..i];
    var late := After(config, Initial(), run[..j]);
    ReachableInv(config, early);
    ReachableInv(config, late);
    RunKeepsInv(config, early, run[..j][i..]);
  }

  /** The ownership table is an index of the clean turns: rows and flags agree in both directions. */
  lemma IndexAgreement(config: Config, s: State, speaker: PlayerId, hash: Digest, t: TurnId)
    requires Reachable(config, s)
    ensures (speaker, hash) in s.world.owners && s.world.owners[(speaker, hash)] == t
       <==> t in s.world.turns && s.world.turns[t].speaker == speaker && s.world.turns[t].quality.Some?
            && s.world.turns[t].quality.value.dedupHash == hash && !s.world.turns[t].quality.value.gates.duplicate
  {
    ReachableInv(config, s);
    assert Owner(s.world.owners, speaker, hash, t) <==> Owns(s.world.turns, speaker, hash, t);
  }

  /**
   A verdict is not final: re-running triage of a clean turn after a matching recording was
   stored (as its duplicate) turns the first one into a duplicate as well, so neither is clean.
   */
  lemma RetriageCanDropBoth(config: Config, s: State, t: TurnId, u: TurnId, verdict: Gates)
    requires Reachable(config, s)
    requires StoredClean(s.world.turns, t) && Triaged(s.world.turns, t) && Triaged(s.world.turns, u) && t != u
    requires SameUtterance(s.world.turns, u, t, config.tolerance)
    ensures var turn := s.world.turns[t];
            var after := PersistTriage(s.world, t, verdict, turn.speaker, turn.audio.value, config.tolerance);
            !StoredClean(after.turns, t) && !StoredClean(after.turns, u)
  {
    ReachableInv(config, s);
    RetriageVerdict(s.world, s.clean, t, verdict, config.tolerance);
    assert StoredClean(s.world.turns, t) ==> t in s.clean;
    assert StoredClean(s.world.turns, u) ==> u in s.clean;
  }

  // ----------------------------------------------------------------- packaging

  /** A package job exists only for complete turns, and no complete turn is left without one. */
  lemma PackagingIsNotLost(config: Config, s: State, t: TurnId)
    requires Reachable(config, s)
    ensures JobKey(Package, t) in s.world.jobs ==> ReadyToPackage(s.world.turns, t)
    ensures ReadyToPackage(s.world.turns, t) ==>
              JobKey(Package, t) in s.world.jobs || t in s.guesses || t in s.crashedGuesses
  {
    ReachableInv(config, s);
    if JobKey(Package, t) in s.world.jobs {
      assert JobKey(Package, t) in s.world.jobs.Keys;
      assert JobOk(s.world.turns, JobKey(Package, t));
    }
  }

  /** The defensive branches are dead: no deferred package, no vanished record, no line without an id. */
  lemma GuardsNeverFire(config: Config, s: State, w: WorkerId, input: Input)
    requires Reachable(config, s) && w in s.workers
    ensures var pc := s.workers[w];
            var next := NextPc(config, s.world, pc, input);
            && (pc.Dispatched? && pc.claim.key.kind == Package ==> next.Probing?)
            && (pc.Dispatched? && pc.claim.key.kind == Triage ==> next.Listening?)
            && (pc.Reloading? ==> next.Locking? || next.Finishing?)
            && (pc.Inspecting? ==> next.Searching? || next == Unlocking(pc.claim, false))
            && (pc.Appending? ==> next.Linking?)
  {
    hide CriticalOk, LockOk, CountersOk;
    ReachableInv(config, s);
    var pc := s.workers[w];
    assert PcOk(s.world, s.clean, pc);
    if pc.Dispatched? {
      assert JobOk(s.world.turns, pc.claim.key);
    }
    if pc.Appending? {
      var t := pc.claim.key.turn;
      assert RecordOk(s.world.turns, s.clean, s.world.shards, t, s.world.records[t]);
    }
  }

  lemma MutualExclusion(config: Config, s: State, v: WorkerId, w: WorkerId)
    requires Reachable(config, s)
    requires v in s.workers && Critical(s.workers[v]) && w in s.workers && Critical(s.workers[w])
    ensures v == w
  {
    ReachableInv(config, s);
  }

  // ------------------------------------------------------------------ counters

  lemma {:induction false} NoMoreIdsThanLines(ids: set<TurnId>, log: seq<Golden>)
    requires forall t :: t in ids ==> Carries(log, t)
    ensures |ids| <= |log|
  {
    if log == [] {
      assert forall t :: !Carries(log, t);
      assert ids == {};
    } else {
      var last := log[|log| - 1];
      var rest := if last.utterance.Some? then ids - {last.utterance.value} else ids;
      forall t | t in rest ensures Carries(log[..|log| - 1], t) {
        var i :| 0 <= i < |log| && log[i].utterance == Some(t);
        assert log[..|log| - 1][i] == log[i];
      }
      NoMoreIdsThanLines(rest, log[..|log| - 1]);
    }
  }

  lemma LinkedIsCarried(config: Config, s: State, t: TurnId)
    requires Reachable(config, s) && t in s.world.records && s.world.records[t].shard.Some?
    ensures Carries(Flatten(s.world.shards), t)
  {
    LinkSoundness(config, s, t);
    var record := s.world.records[t];
    var shard := s.world.shards[record.shard.value - 1];
    var j :| 0 <= j < |shard| && shard[j] == record.golden;
    var k := FlattenIndex(s.world.shards, record.shard.value, j);
  }

  /** The throughput counters never claim more than the corpus and the record table hold. */
  lemma CountersNeverExceed(config: Config, s: State)
    requires Reachable(config, s)
    ensures s.world.eligibleTotal <= |Flatten(s.world.shards)|
    ensures s.world.recordsTotal <= |s.world.records|
  {
    hide TablesOk, QueueOk, WorkersOk, CriticalOk, LockOk, Reachable;
    ReachableInv(config, s);
    forall t | t in s.countedLines ensures Carries(Flatten(s.world.shards), t) {
      LinkedIsCarried(config, s, t);
    }
    NoMoreIdsThanLines(s.countedLines, Flatten(s.world.shards));
    SubsetSize(s.countedRecords, s.world.records.Keys);
  }

  // ----------------------------------------------------- what the queue allows

  /** Claims, crashes and recoveries, `n` times over. */
  ghost function CrashLoop(w: WorkerId, key: JobKey, n: nat): seq<Action> {
    if n == 0 then [] else [ClaimNext(w, key), Crash(w), RecoverStale({key})] + CrashLoop(w, key, n - 1)
  }

  /** The retry limit does not bound attempts under crashes: any number of claims is possible. */
  lemma {:induction false} TriesAreUnbounded(config: Config, s: State, w: WorkerId, key: JobKey, n: nat)
    requires w in s.workers && s.workers[w].Idle? && key in s.world.jobs && s.world.jobs[key].status == Waiting
    ensures CanRun(config, s, CrashLoop(w, key, n))
    ensures key in After(config, s, CrashLoop(w, key, n)).world.jobs
    ensures After(config, s, CrashLoop(w, key, n)).world.jobs[key] == Job(Waiting, s.world.jobs[key].tries + n)
    decreases n
  {
    if n > 0 {
      var claimed := Do(config, s, ClaimNext(w, key));
      var crashed := Do(config, claimed, Crash(w));
      var recovered := Do(config, crashed, RecoverStale({key}));
      TriesAreUnbounded(config, recovered, w, key, n - 1);
      var rest := CrashLoop(w, key, n - 1);
      RunThree(config, s, ClaimNext(w, key), Crash(w), RecoverStale({key}), rest);
    }
  }

  lemma RunThree(config: Config, s: State, a: Action, b: Action, c: Action, rest: seq<Action>)
    requires Enabled(config, s, a) && Enabled(config, Do(config, s, a), b)
    requires Enabled(config, Do(config, Do(config, s, a), b), c)
    requires CanRun(config, Do(config, Do(config, Do(config, s, a), b), c), rest)
    ensures CanRun(config, s, [a, b, c] + rest)
    ensures After(config, s, [a, b, c] + rest) == After(config, Do(config, Do(config, Do(config, s, a), b), c), rest)
  {
    hide Enabled, Do;
    RunOne(config, Do(config, Do(config, s, a), b), c, rest);
    RunOne(config, Do(config, s, a), b, [c] + rest);
    RunOne(config, s, a, [b] + ([c] + rest));
    assert [a, b, c] + rest == [a] + ([b] + ([c] + rest));
  }

  lemma RunOne(config: Config, s: State, a: Action, rest: seq<Action>)
    requires Enabled(config, s, a) && CanRun(config, Do(config, s, a), rest)
    ensures CanRun(config, s, [a] + rest)
    ensures After(config, s, [a] + rest) == After(config, Do(config, s, a), rest)
  {
    hide Enabled, Do;
    assert ([a] + rest)[1..] == rest;
  }

  // ------------------------------------------------------- the triage counter

  /** The step in which a worker counts the triage it has committed. */
  predicate CountsTriage(s: State, action: Action) {
    action.Work? && action.worker in s.workers && s.workers[action.worker].CountingTriage?
  }

  ghost function TriagesCounted(config: Config, s: State, run: seq<Action>): nat
    requires CanRun(config, s, run)
    decreases |run|
  {
    if run == [] then 0
    else (if CountsTriage(s, run[0]) then 1 else 0) + TriagesCounted(config, Do(config, s, run[0]), run[1..])
  }

  lemma StepCountsTriage(config: Config, s: State, action: Action)
    requires Enabled(config, s, action)
    ensures Do(config, s, action).world.triagedTotal == s.world.triagedTotal + if CountsTriage(s, action) then 1 else 0
  {
    hide NextPc, AppendLine, Register, StoredQuality;
  }

  /** The triage counter goes up by one for every triage that is counted, and for nothing else. */
  lemma {:induction false} TriagedTotalIsExact(config: Config, s: State, run: seq<Action>)
    requires CanRun(config, s, run)
    ensures After(config, s, run).world.triagedTotal == s.world.triagedTotal + TriagesCounted(config, s, run)
    decreases |run|
  {
    hide Do, Enabled, CountsTriage;
    if run != [] {
      StepCountsTriage(config, s, run[0]);
      TriagedTotalIsExact(config, Do(config, s, run[0]), run[1..]);
    }
  }
}
