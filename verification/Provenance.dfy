/**
 Where record bodies come from (worker/service.py): each body was assembled from one read of a
 scored turn, with the verdict stored at that moment and the clock of that moment.
 */
module Provenance {
  import opened Wrappers
  import opened Records
  import opened Corpus
  import opened World
  import opened Protocol
  import opened History

  /** The body says what the turn's row said, and when it was read. */
  predicate Describes(golden: Golden, t: TurnId, turn: Turn, now: nat) {
    && turn.status == Scored && turn.quality.Some?
    && golden.utterance == Some(t) && golden.speaker == turn.speaker && golden.packagedAt == now
    && (golden.correct <==> turn.outcome == Validated)
    && golden.dedupHash == turn.quality.value.dedupHash
    && golden.gates.isSpeech == turn.quality.value.gates.isSpeech
    && golden.gates.singleSpeaker == turn.quality.value.gates.singleSpeaker
    && golden.gates.audioQualityOk == turn.quality.value.gates.audioQualityOk
    && golden.gates.contaminated == turn.quality.value.gates.contaminated
    && golden.gates.duplicate == turn.quality.value.gates.duplicate
  }

  /** In this step a package worker reads the turn and assembles the body. */
  ghost predicate Assembles(s: State, action: Action, t: TurnId, golden: Golden) {
    && action.Work? && action.worker in s.workers && s.workers[action.worker].Dispatched?
    && s.workers[action.worker].claim.key == JobKey(Package, t)
    && t in s.world.turns && Describes(golden, t, s.world.turns[t], action.input.now)
  }

  /** Some step of the run assembled the body. */
  ghost predicate Assembled(config: Config, s: State, run: seq<Action>, t: TurnId, golden: Golden)
    requires CanRun(config, s, run)
    decreases |run|
  {
    run != [] && (Assembles(s, run[0], t, golden) || Assembled(config, Do(config, s, run[0]), run[1..], t, golden))
  }

  predicate Carrying(pc: Pc, t: TurnId, golden: Golden) {
    && (pc.Probing? || pc.Creating? || pc.CountingRecord? || pc.Reloading? || pc.Locking? || pc.Inspecting? || pc.Searching? || pc.Appending?)
    && pc.claim.key.turn == t && pc.golden == golden
  }

  /** The body is about: a worker carries it, or it is stored. */
  ghost predicate About(s: State, t: TurnId, golden: Golden) {
    || (t in s.world.records && s.world.records[t].golden == golden)
    || exists w :: w in s.workers && Carrying(s.workers[w], t, golden)
  }

  lemma StepCarries(config: Config, world: World, pc: Pc, input: Input, t: TurnId, golden: Golden)
    requires Carrying(NextPc(config, world, pc, input), t, golden)
    ensures || Carrying(pc, t, golden) || (t in world.records && world.records[t].golden == golden)
            || (pc.Dispatched? && pc.claim.key == JobKey(Package, t) && t in world.turns
                && Describes(golden, t, world.turns[t], input.now))
  {
    hide AppendLine, Find;
  }

  lemma StepRecords(config: Config, world: World, pc: Pc, input: Input, t: TurnId)
    requires t in NextWorld(config, world, pc, input).records
    ensures var golden := NextWorld(config, world, pc, input).records[t].golden;
            (t in world.records && world.records[t].golden == golden) || Carrying(pc, t, golden)
  {
    hide AppendLine, Register, StoredQuality;
  }

  lemma OtherSteps(config: Config, s: State, action: Action, t: TurnId, golden: Golden)
    requires Enabled(config, s, action) && !action.Work? && About(Do(config, s, action), t, golden)
    ensures About(s, t, golden)
  {
    var after := Do(config, s, action);
    assert after.world.records == s.world.records;
    if w :| w in after.workers && Carrying(after.workers[w], t, golden) {
      assert w in s.workers && Carrying(s.workers[w], t, golden);
    }
  }

  lemma WorkAbout(config: Config, s: State, w: WorkerId, input: Input, t: TurnId, golden: Golden)
    requires Enabled(config, s, Work(w, input)) && About(Do(config, s, Work(w, input)), t, golden)
    ensures About(s, t, golden) || Assembles(s, Work(w, input), t, golden)
  {
    hide Do, NextPc, NextWorld, Describes, Carrying;
    var after := Do(config, s, Work(w, input));
    WorkShape(config, s, w, input);
    if t in after.world.records && after.world.records[t].golden == golden {
      StepRecords(config, s.world, s.workers[w], input, t);
    } else {
      var v :| v in after.workers && Carrying(after.workers[v], t, golden);
      if v == w {
        StepCarries(config, s.world, s.workers[w], input, t, golden);
      }
    }
  }

  lemma {:induction false} AboutIsAssembled(config: Config, s: State, run: seq<Action>, t: TurnId, golden: Golden)
    requires CanRun(config, s, run) && About(After(config, s, run), t, golden)
    ensures About(s, t, golden) || Assembled(config, s, run, t, golden)
    decreases |run|
  {
    hide About, Assembles, Do, Enabled;
    if run != [] {
      AboutIsAssembled(config, Do(config, s, run[0]), run[1..], t, golden);
      if About(Do(config, s, run[0]), t, golden) {
        if run[0].Work? {
          WorkAbout(config, s, run[0].worker, run[0].input, t, golden);
        } else {
          OtherSteps(config, s, run[0], t, golden);
        }
      }
    }
  }

  /**
   In every run, the body of every record was assembled by a package worker that read the scored
   turn: its findings are those stored for the turn at that step, and its time is that step's clock.
   */
  lemma BodiesAreReads(config: Config, run: seq<Action>, t: TurnId)
    requires CanRun(config, Initial(), run) && t in After(config, Initial(), run).world.records
    ensures Assembled(config, Initial(), run, t, After(config, Initial(), run).world.records[t].golden)
  {
    var golden := After(config, Initial(), run).world.records[t].golden;
    assert About(After(config, Initial(), run), t, golden);
    AboutIsAssembled(config, Initial(), run, t, golden);
  }
}
