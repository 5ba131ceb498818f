/**
 One worker left alone: iterating its program points is a big step on the world, that big
 step is a run of the transition system, and it repairs whatever an earlier crash cut off.
 */
module Convergence {
  import opened Wrappers
  import opened Records
  import opened Corpus
  import opened World
  import opened Protocol
  import opened Invariant
  import opened ActionProofs
  import opened Guarantees

  /** No handler is longer than this many steps from here. */
  function StepsLeft(pc: Pc): nat {
    match pc
    case Idle => 0
    case Reporting(_) => 1
    case Failing(_) => 1
    case Finishing(_) => 2
    case Unlocking(_, _) => 3
    case CountingLine(_) => 4
    case Linking(_, _) => 5
    case Relinking(_, _) => 5
    case Appending(_, _) => 6
    case Searching(_, _) => 7
    case Inspecting(_, _) => 8
    case Locking(_, _) => 9
    case Reloading(_, _, _) => 10
    case CountingRecord(_, _, _) => 11
    case Creating(_, _, _) => 12
    case Probing(_, _, _) => 13
    case CountingTriage(_) => 3
    case Listening(_, _, _) => 4
    case Dispatched(_) => 14
  }

  lemma StepsShrink(config: Config, world: World, pc: Pc, input: Input)
    requires !pc.Idle?
    ensures StepsLeft(NextPc(config, world, pc, input)) < StepsLeft(pc)
  {
  }

  /** The world when the worker has run its handler to the end without interference. */
  ghost function RunOut(config: Config, world: World, pc: Pc, input: Input): World
    decreases StepsLeft(pc)
  {
    if pc.Idle? then world
    else
      StepsShrink(config, world, pc, input);
      RunOut(config, NextWorld(config, world, pc, input), NextPc(config, world, pc, input), input)
  }

  /** The uninterrupted handler is a run of the transition system in which only this worker acts. */
  lemma {:induction false} RunOutIsRun(config: Config, s: State, w: WorkerId, input: Input) returns (run: seq<Action>)
    requires LockOk(s.lock, s.workers) && w in s.workers
    requires s.lock.None? || s.lock == Some(w)
    ensures forall i :: 0 <= i < |run| ==> run[i] == Work(w, input)
    ensures CanRun(config, s, run)
    ensures var after := After(config, s, run);
            && after.world == RunOut(config, s.world, s.workers[w], input)
            && after.workers == s.workers[w := Idle] && after.lock.None?
    decreases StepsLeft(s.workers[w])
  {
    var pc := s.workers[w];
    if pc.Idle? {
      run := [];
      assert s.workers[w := Idle] == s.workers;
    } else {
      StepsShrink(config, s.world, pc, input);
      LockStep(config, s, w, input);
      var next := WorkStep(config, s, w, input);
      var rest := RunOutIsRun(config, next, w, input);
      run := [Work(w, input)] + rest;
      RunOne(config, s, Work(w, input), rest);
      assert next.workers[w := Idle] == s.workers[w := Idle];
    }
  }

  lemma LockStep(config: Config, s: State, w: WorkerId, input: Input)
    requires LockOk(s.lock, s.workers) && w in s.workers && !s.workers[w].Idle?
    requires s.lock.None? || s.lock == Some(w)
    ensures var next := WorkStep(config, s, w, input);
            LockOk(next.lock, next.workers) && (next.lock.None? || next.lock == Some(w))
  {
  }

  /** The end of a successful handler completes its job and changes nothing else. */
  lemma EndsReporting(config: Config, world: World, claim: Claim, input: Input)
    ensures RunOut(config, world, Finishing(claim), input) == world.(jobs := CompleteJob(world.jobs, claim.key))
  {
    var completed := NextWorld(config, world, Finishing(claim), input);
    assert RunOut(config, world, Finishing(claim), input) == RunOut(config, completed, Reporting(claim), input);
    assert RunOut(config, completed, Reporting(claim), input) == completed;
  }

  // --------------------------------------------------------- what a rerun achieves

  /** The stored verdict is all clear, the turn was validated, and no record says otherwise. */
  ghost predicate Exportable(world: World, t: TurnId)
    requires ReadyToPackage(world.turns, t)
  {
    var gates := world.turns[t].quality.value.gates;
    && gates.isSpeech && gates.singleSpeaker && gates.audioQualityOk && !gates.contaminated && !gates.duplicate
    && world.turns[t].outcome == Validated
    && (t in world.records ==> world.records[t].eligible)
  }

  lemma ExportLinks(config: Config, world: World, claim: Claim, golden: Golden, input: Input)
    requires claim.key.turn in world.records && world.records[claim.key.turn].eligible
    requires golden.utterance == Some(claim.key.turn)
    ensures var after := RunOut(config, world, Searching(claim, golden), input);
            claim.key.turn in after.records && after.records[claim.key.turn].shard.Some?
  {
    var pc := Searching(claim, golden);
    var found := NextPc(config, world, pc, input);
    FindAgreesWithLog(world.shards, claim.key.turn);
    if found.Relinking? {
      LinkedAfter(config, world, found, input);
    } else {
      var appended := NextWorld(config, world, found, input);
      LinkedAfter(config, appended, NextPc(config, world, found, input), input);
      assert RunOut(config, world, found, input) == RunOut(config, appended, NextPc(config, world, found, input), input);
    }
  }

  lemma LinkedAfter(config: Config, world: World, pc: Pc, input: Input)
    requires pc.Relinking? || pc.Linking?
    requires pc.claim.key.turn in world.records && world.records[pc.claim.key.turn].eligible
    ensures var after := RunOut(config, world, pc, input);
            pc.claim.key.turn in after.records && after.records[pc.claim.key.turn].shard.Some?
  {
    var linked := NextWorld(config, world, pc, input);
    var next := NextPc(config, world, pc, input);
    RecordsSettled(config, linked, next, input);
  }

  /** From the counting or unlocking point on, records no longer change. */
  lemma RecordsSettled(config: Config, world: World, pc: Pc, input: Input)
    requires pc.CountingLine? || pc.Unlocking? || pc.Finishing? || pc.Reporting? || pc.Failing? || pc.Idle?
    ensures RunOut(config, world, pc, input).records == world.records
    decreases StepsLeft(pc)
  {
    if !pc.Idle? {
      StepsShrink(config, world, pc, input);
      RecordsSettled(config, NextWorld(config, world, pc, input), NextPc(config, world, pc, input), input);
    }
  }

  lemma LockedExportLinks(config: Config, world: World, claim: Claim, golden: Golden, input: Input)
    requires claim.key.turn in world.records && world.records[claim.key.turn].eligible
    requires golden.utterance == Some(claim.key.turn)
    ensures var after := RunOut(config, world, Locking(claim, golden), input);
            claim.key.turn in after.records && after.records[claim.key.turn].shard.Some?
  {
    var inspecting := Inspecting(claim, golden);
    var next := NextPc(config, world, inspecting, input);
    assert RunOut(config, world, Locking(claim, golden), input) == RunOut(config, world, inspecting, input);
    assert RunOut(config, world, inspecting, input) == RunOut(config, world, next, input);
    if next.Searching? {
      ExportLinks(config, world, claim, golden, input);
    } else {
      RecordsSettled(config, world, next, input);
    }
  }

  /** After one read of an existing record: linked at the end exactly when it was, or both gates agree. */
  lemma AfterReadLinks(config: Config, world: World, claim: Claim, eligible: bool, input: Input)
    requires claim.key.turn in world.records
    requires world.records[claim.key.turn].golden.utterance == Some(claim.key.turn)
    requires world.records[claim.key.turn].shard.Some? ==> world.records[claim.key.turn].eligible
    ensures var record := world.records[claim.key.turn];
            var after := RunOut(config, world, AfterRead(claim, eligible, record), input);
            && claim.key.turn in after.records
            && (after.records[claim.key.turn].shard.Some? <==> record.shard.Some? || (record.eligible && eligible))
  {
    var record := world.records[claim.key.turn];
    var pc := AfterRead(claim, eligible, record);
    if pc.Locking? {
      LockedExportLinks(config, world, claim, record.golden, input);
    } else {
      RecordsSettled(config, world, pc, input);
    }
  }

  /** A fresh record is inserted, counted once and then read back. */
  lemma FreshRecordLinks(config: Config, world: World, claim: Claim, golden: Golden, eligible: bool, input: Input)
    requires claim.key.turn !in world.records && golden.utterance == Some(claim.key.turn)
    ensures var after := RunOut(config, world, Creating(claim, golden, eligible), input);
            && claim.key.turn in after.records
            && (after.records[claim.key.turn].shard.Some? <==> eligible)
  {
    var creating := Creating(claim, golden, eligible);
    var created := NextWorld(config, world, creating, input);
    var counting := CountingRecord(claim, golden, eligible);
    var counted := NextWorld(config, created, counting, input);
    var reloading := Reloading(claim, golden, eligible);
    assert RunOut(config, world, creating, input) == RunOut(config, created, counting, input);
    assert RunOut(config, created, counting, input) == RunOut(config, counted, reloading, input);
    AfterReadLinks(config, counted, claim, eligible, input);
  }

  /**
   Crash convergence: whatever an earlier crash left behind, one uninterrupted package run ends
   with the record linked exactly when it was linked before or both gates allow it.
   */
  lemma PackageRunLinks(config: Config, s: State, claim: Claim, input: Input)
    requires Reachable(config, s)
    requires claim.key.kind == Package && ReadyToPackage(s.world.turns, claim.key.turn)
    ensures var t := claim.key.turn;
            var after := RunOut(config, s.world, Dispatched(claim), input);
            && t in after.records
            && (after.records[t].shard.Some? <==>
                  (t in s.world.records && s.world.records[t].shard.Some?) || Exportable(s.world, t))
  {
    hide Reachable;
    var t := claim.key.turn;
    var world := s.world;
    var golden := GoldenRecord(t, world.turns[t], input.now);
    var eligible := Eligible(golden.gates, golden.correct);
    var probing := Probing(claim, golden, eligible);
    assert RunOut(config, world, Dispatched(claim), input) == RunOut(config, world, probing, input);
    if t in world.records {
      ExistingRecordFacts(config, s, t);
      AfterReadLinks(config, world, claim, eligible, input);
      assert RunOut(config, world, probing, input) == RunOut(config, world, AfterRead(claim, eligible, world.records[t]), input);
    } else {
      FreshRecordLinks(config, world, claim, golden, eligible, input);
      assert RunOut(config, world, probing, input) == RunOut(config, world, Creating(claim, golden, eligible), input);
    }
  }

  /**
   The gate itself: a package run that finds no record yet stores the turn as eligible, exports and
   links it if and only if all five machine findings are in order and the guess validated the label.
   */
  lemma FreshRunExportsExactlyWhen(config: Config, world: World, claim: Claim, input: Input)
    requires claim.key.kind == Package && ReadyToPackage(world.turns, claim.key.turn) && claim.key.turn !in world.records
    ensures var t := claim.key.turn;
            var turn := world.turns[t];
            var gates := turn.quality.value.gates;
            var after := RunOut(config, world, Dispatched(claim), input);
            && t in after.records
            && (after.records[t].shard.Some? <==>
                  && gates.isSpeech && gates.singleSpeaker && gates.audioQualityOk && !gates.contaminated && !gates.duplicate
                  && turn.outcome == Validated)
  {
    var t := claim.key.turn;
    var golden := GoldenRecord(t, world.turns[t], input.now);
    var eligible := Eligible(golden.gates, golden.correct);
    var probing := Probing(claim, golden, eligible);
    assert RunOut(config, world, Dispatched(claim), input) == RunOut(config, world, probing, input);
    assert RunOut(config, world, probing, input) == RunOut(config, world, Creating(claim, golden, eligible), input);
    FreshRecordLinks(config, world, claim, golden, eligible, input);
  }

  lemma ExistingRecordFacts(config: Config, s: State, t: TurnId)
    requires Reachable(config, s) && t in s.world.records
    ensures s.world.records[t].golden.utterance == Some(t)
    ensures s.world.records[t].shard.Some? ==> s.world.records[t].eligible
  {
    ReachableInv(config, s);
    assert RecordOk(s.world.turns, s.clean, s.world.shards, t, s.world.records[t]);
  }

  /** Extending a reachable state by a run gives a reachable state. */
  lemma ReachableAfter(config: Config, s: State, run: seq<Action>)
    requires Reachable(config, s) && CanRun(config, s, run)
    ensures Reachable(config, After(config, s, run))
  {
    hide Enabled, Do;
    var prefix :| CanRun(config, Initial(), prefix) && After(config, Initial(), prefix) == s;
    RunJoin(config, Initial(), prefix, run);
  }

  lemma {:induction false} RunJoin(config: Config, s: State, first: seq<Action>, second: seq<Action>)
    requires CanRun(config, s, first) && CanRun(config, After(config, s, first), second)
    ensures CanRun(config, s, first + second)
    ensures After(config, s, first + second) == After(config, After(config, s, first), second)
    decreases |first|
  {
    hide Enabled, Do;
    if first == [] {
      assert first + second == second;
    } else {
      var next := Do(config, s, first[0]);
      RunJoin(config, next, first[1..], second);
      RunOne(config, s, first[0], first[1..] + second);
      assert first + second == [first[0]] + (first[1..] + second);
    }
  }

  /** Steps of one worker alone, after which its turn has one line and the link to it. */
  ghost predicate FinishesAlone(config: Config, s: State, w: WorkerId, input: Input, t: TurnId, run: seq<Action>) {
    && (forall i :: 0 <= i < |run| ==> run[i] == Work(w, input))
    && CanRun(config, s, run)
    && var after := After(config, s, run);
       && w in s.workers && Reachable(config, after) && after.workers == s.workers[w := Idle]
       && t in after.world.records && after.world.records[t].shard.Some?
       && InShard(after.world.shards, after.world.records[t].shard.value, after.world.records[t].golden)
       && Carries(Flatten(after.world.shards), t) && Distinct(Flatten(after.world.shards))
  }

  /**
   The same as a statement about the whole system: a worker that has just claimed the package
   job of an exportable turn can finish alone, and then the turn has its one line and its link.
   */
  lemma RerunConverges(config: Config, s: State, w: WorkerId, input: Input)
    requires Reachable(config, s) && s.lock.None? && w in s.workers
    requires s.workers[w].Dispatched? && s.workers[w].claim.key.kind == Package
    requires ReadyToPackage(s.world.turns, s.workers[w].claim.key.turn)
    requires Exportable(s.world, s.workers[w].claim.key.turn)
    ensures exists run :: FinishesAlone(config, s, w, input, s.workers[w].claim.key.turn, run)
  {
    hide Enabled, Do, Reachable;
    var claim := s.workers[w].claim;
    LockIsFree(config, s);
    var run := RunOutIsRun(config, s, w, input);
    PackageRunLinks(config, s, claim, input);
    ReachableAfter(config, s, run);
    var after := After(config, s, run);
    LinkSoundness(config, after, claim.key.turn);
    LinkedIsCarried(config, after, claim.key.turn);
    LogIsDistinct(config, after);
    assert FinishesAlone(config, s, w, input, claim.key.turn, run);
  }

  lemma LockIsFree(config: Config, s: State)
    requires Reachable(config, s)
    ensures LockOk(s.lock, s.workers)
  {
    ReachableInv(config, s);
  }

  lemma LogIsDistinct(config: Config, s: State)
    requires Reachable(config, s)
    ensures Distinct(Flatten(s.world.shards))
  {
    ReachableInv(config, s);
  }

  /** A further package run changes nothing but its own job row: no record, line, link or counter. */
  lemma RerunIsIdle(config: Config, world: World, claim: Claim, input: Input)
    requires claim.key.kind == Package && ReadyToPackage(world.turns, claim.key.turn)
    requires claim.key.turn in world.records
    requires world.records[claim.key.turn].shard.Some? || !Exportable(world, claim.key.turn)
    ensures RunOut(config, world, Dispatched(claim), input) == world.(jobs := CompleteJob(world.jobs, claim.key))
  {
    var t := claim.key.turn;
    var golden := GoldenRecord(t, world.turns[t], input.now);
    var eligible := Eligible(golden.gates, golden.correct);
    var probing := Probing(claim, golden, eligible);
    var finishing := Finishing(claim);
    assert RunOut(config, world, Dispatched(claim), input) == RunOut(config, world, probing, input);
    assert NextPc(config, world, probing, input) == finishing;
    assert RunOut(config, world, probing, input) == RunOut(config, world, finishing, input);
    EndsReporting(config, world, claim, input);
  }
}
