/**
 The game core refines the game side of the protocol: each request, run to its end without
 interference, is a sequence of the protocol's game actions, spelled out by its script.
 `Composition` runs such requests beside the workers.
 */
module GameRefinement {
  import opened Wrappers
  import opened Fingerprints
  import opened Records
  import opened Game
  import opened GameInvariant
  import opened GameProofs
  import G = Guarantees
  import C = Convergence
  import P = Protocol
  import Tables = World

  /** One turn as the game and as the protocol see it. */
  predicate SameTurn(t: Turn, row: Tables.Turn) {
    && row.speaker == t.speaker && row.status == t.status && row.outcome == t.outcome && row.attempts == t.attempts
    && row.audio.Some? == t.audio && row.quality.Some? == t.quality
  }

  ghost predicate Agrees(g: Game, s: P.State) {
    && (forall t: TurnId :: t in s.world.turns <==> t < |g.turns|)
    && (forall t: TurnId :: t < |g.turns| ==> SameTurn(g.turns[t], s.world.turns[t]))
    && (forall key :: key in s.world.jobs <==> key in g.jobs)
    && s.guesses == map[]
  }

  predicate ByGame(action: P.Action) {
    action.CreateTurn? || action.AcceptAudio? || action.EnqueueTriage? || action.ConfirmLabel? || action.ApplyGuess? || action.ContinueGuess?
  }

  /** A run of game actions from a state the game agrees with to one it agrees with afterwards. */
  ghost predicate Mirrors(config: Tables.Config, s: P.State, run: seq<P.Action>, after: Game) {
    (forall i :: 0 <= i < |run| ==> ByGame(run[i]))
    && P.CanRun(config, s, run) && Agrees(after, P.After(config, s, run))
  }

  lemma MirrorStep(config: Tables.Config, s: P.State, action: P.Action, rest: seq<P.Action>, after: Game)
    requires ByGame(action) && P.Enabled(config, s, action)
    requires Mirrors(config, P.Do(config, s, action), rest, after)
    ensures Mirrors(config, s, [action] + rest, after)
  {
    hide P.Do, P.Enabled, Agrees, ByGame;
    G.RunOne(config, s, action, rest);
  }

  lemma MirrorNothing(config: Tables.Config, s: P.State, g: Game)
    requires Agrees(g, s)
    ensures Mirrors(config, s, [], g)
  {
  }

  // ------------------------------------------------------------ what a request does

  /** The row writes of each request, in order, as protocol actions. */
  function DealScript(g: Game, speaker: PlayerId, card: Option<nat>): seq<P.Action> {
    if card.None? then [] else [P.CreateTurn(|g.turns|, speaker)]
  }

  function PairingScript(config: Config, g: Game, me: PlayerId, now: int, card: Option<nat>): seq<P.Action> {
    if Rounds(g.turns, me) >= config.roundsCap || ActivePair(g.pairs, me).Some? then []
    else
      var cutoff := now - config.queueTtl;
      var queue := EvictStale(Refresh(Refresh(g.queue, me, now), me, now), cutoff, me);
      match Partner(g.players, g.pairs, queue, cutoff, me)
      case None => []
      case Some(other) => DealScript(g, if now <= other.since then me else other.player, card)
  }

  function UploadScript(g: Game, me: PlayerId, fits: bool, accepted: bool, audio: AcousticFingerprint): seq<P.Action> {
    var found := SpeakerTurn(g, me, AwaitingAudio);
    if fits && found.Ok? && accepted then [P.AcceptAudio(found.value.id, audio), P.EnqueueTriage(found.value.id)] else []
  }

  function ConfirmScript(g: Game, me: PlayerId): seq<P.Action> {
    var found := SpeakerTurn(g, me, AwaitingLabelConfirm);
    if found.Ok? then [P.ConfirmLabel(found.value.id)] else []
  }

  function QueuedIfReady(g: Game, t: Turn): Game {
    if t.quality then g.(jobs := Enqueue(g.jobs, Tables.JobKey(Tables.Package, t.id))) else g
  }

  /** Re-read the quality, enqueue packaging if it is there, deal on if the pair goes on. */
  function AfterScoredScript(config: Config, g: Game, t: Turn, card: Option<nat>): seq<P.Action> {
    var queued := QueuedIfReady(g, t);
    [P.ContinueGuess(t.id)] + (if t.quality then [P.ContinueGuess(t.id)] else [])
    + (if Capped(config, queued, t.pair) then [] else DealScript(queued, t.guesser, card))
  }

  function GuessedScript(config: Config, g: Game, t: Turn, correct: bool, card: Option<nat>): seq<P.Action> {
    var u := ApplyGuess(config, t, correct);
    [P.ApplyGuess(t.id, correct)] + if u.status.Scored? then AfterScoredScript(config, Applied(g, u), u, card) else []
  }

  function GuessScript(config: Config, g: Game, me: PlayerId, option: nat, card: Option<nat>): seq<P.Action> {
    match ActivePair(g.pairs, me)
    case None => []
    case Some(pair) =>
      match LatestTurn(g.turns, pair.id)
      case None => []
      case Some(t) =>
        if t.guesser != me || t.status != AwaitingGuess then [] else GuessedScript(config, g, t, option == t.card, card)
  }

  predicate IsRequest(action: Action) {
    !action.StoreQuality? && !action.CommitTriage?
  }

  /** `audio` is the fingerprint of the recording, used if the request is an accepted upload. */
  function Script(config: Config, g: Game, action: Action, audio: AcousticFingerprint): seq<P.Action> {
    match action
    case AskForPair(me, now, card, _) => if me < |g.players| then PairingScript(config, g, me, now, card) else []
    case Upload(me, fits, accepted) => if me < |g.players| then UploadScript(g, me, fits, accepted, audio) else []
    case Confirm(me) => if me < |g.players| then ConfirmScript(g, me) else []
    case Answer(me, option, _, card, _) => if me < |g.players| then GuessScript(config, g, me, option, card) else []
    case _ => []
  }

  lemma DealMirrors(rules: Tables.Config, s: P.State, g: Game, pair: nat, speaker: PlayerId, guesser: PlayerId,
                    card: Option<nat>, now: int, tie: nat)
    requires Agrees(g, s)
    ensures Mirrors(rules, s, DealScript(g, speaker, card), Deal(g, pair, speaker, guesser, card, now, tie))
  {
    var after := Deal(g, pair, speaker, guesser, card, now, tie);
    if card.None? {
      MirrorNothing(rules, s, after);
    } else {
      var next := P.Do(rules, s, P.CreateTurn(|g.turns|, speaker));
      assert Agrees(after, next);
      hide P.Do, P.Enabled, Mirrors;
      MirrorOne(rules, s, P.CreateTurn(|g.turns|, speaker), after);
    }
  }

  lemma MirrorOne(rules: Tables.Config, s: P.State, action: P.Action, after: Game)
    requires ByGame(action) && P.Enabled(rules, s, action) && Agrees(after, P.Do(rules, s, action))
    ensures Mirrors(rules, s, [action], after)
  {
    hide P.Do, P.Enabled, Agrees, Mirrors;
    MirrorNothing(rules, P.Do(rules, s, action), after);
    MirrorStep(rules, s, action, [], after);
    assert [action] + [] == [action];
  }

  lemma UploadMirrors(rules: Tables.Config, s: P.State, g: Game, t: Turn, audio: AcousticFingerprint)
    requires Agrees(g, s) && t.id < |g.turns| && g.turns[t.id] == t && t.status.AwaitingAudio? && ValidEnvelope(audio.envelope)
    ensures Mirrors(rules, s, [P.AcceptAudio(t.id, audio), P.EnqueueTriage(t.id)],
                    g.(turns := SetTurn(g.turns, t.(audio := true, status := AwaitingLabelConfirm)),
                       jobs := Enqueue(g.jobs, Tables.JobKey(Tables.Triage, t.id))))
  {
    var after := g.(turns := SetTurn(g.turns, t.(audio := true, status := AwaitingLabelConfirm)),
                    jobs := Enqueue(g.jobs, Tables.JobKey(Tables.Triage, t.id)));
    var accepted := P.Do(rules, s, P.AcceptAudio(t.id, audio));
    var queued := P.Do(rules, accepted, P.EnqueueTriage(t.id));
    assert Agrees(after, queued);
    MirrorOne(rules, accepted, P.EnqueueTriage(t.id), after);
    MirrorStep(rules, s, P.AcceptAudio(t.id, audio), [P.EnqueueTriage(t.id)], after);
    assert [P.AcceptAudio(t.id, audio)] + [P.EnqueueTriage(t.id)] == [P.AcceptAudio(t.id, audio), P.EnqueueTriage(t.id)];
  }

  lemma ConfirmMirrors(rules: Tables.Config, s: P.State, g: Game, t: Turn)
    requires Agrees(g, s) && t.id < |g.turns| && g.turns[t.id] == t && t.status.AwaitingLabelConfirm?
    ensures Mirrors(rules, s, [P.ConfirmLabel(t.id)], g.(turns := SetTurn(g.turns, t.(status := AwaitingGuess))))
  {
    var after := g.(turns := SetTurn(g.turns, t.(status := AwaitingGuess)));
    assert Agrees(after, P.Do(rules, s, P.ConfirmLabel(t.id)));
    MirrorOne(rules, s, P.ConfirmLabel(t.id), after);
  }

  /** The continuation up to its enqueue. */
  lemma ContinuationAgrees(rules: Tables.Config, s: P.State, g: Game, t: Turn)
    requires Agrees(g, s.(guesses := map[])) && s.guesses == map[t.id := P.RereadQuality]
    requires t.id < |g.turns| && g.turns[t.id] == t
    ensures P.Enabled(rules, s, P.ContinueGuess(t.id))
    ensures var reread := P.Do(rules, s, P.ContinueGuess(t.id));
            if t.quality then P.Enabled(rules, reread, P.ContinueGuess(t.id))
                              && Agrees(QueuedIfReady(g, t), P.Do(rules, reread, P.ContinueGuess(t.id)))
            else Agrees(g, reread)
  {
    assert SameTurn(t, s.world.turns[t.id]);
  }

  /** Closing the pair writes no row the protocol sees; otherwise the next turn is dealt. */
  lemma SettlingMirrors(config: Config, rules: Tables.Config, s: P.State, queued: Game, t: Turn, now: int, card: Option<nat>, tie: nat)
    requires Agrees(queued, s)
    ensures Mirrors(rules, s, if Capped(config, queued, t.pair) then [] else DealScript(queued, t.guesser, card),
                    if Capped(config, queued, t.pair) then queued.(pairs := Close(queued.pairs, t.pair))
                    else Deal(queued, t.pair, t.guesser, t.speaker, card, now, tie))
  {
    hide Agrees, Mirrors, Capped, Deal, DealScript, Close;
    if Capped(config, queued, t.pair) {
      AgreesWithout(queued, queued.queue, Close(queued.pairs, t.pair), s);
      MirrorNothing(rules, s, queued.(pairs := Close(queued.pairs, t.pair)));
    } else {
      DealMirrors(rules, s, queued, t.pair, t.guesser, t.speaker, card, now, tie);
    }
  }

  lemma ScriptJoins(step: P.Action, rest: seq<P.Action>)
    ensures [step] + ([step] + rest) == [step] + [step] + rest
    ensures [step] + rest == [step] + [] + rest
  {
  }

  lemma AfterScoredMirrors(config: Config, rules: Tables.Config, s: P.State, g: Game, t: Turn, now: int, card: Option<nat>, tie: nat)
    requires Agrees(g, s.(guesses := map[])) && s.guesses == map[t.id := P.RereadQuality]
    requires t.id < |g.turns| && g.turns[t.id] == t
    ensures Mirrors(rules, s, AfterScoredScript(config, g, t, card), AfterScored(config, g, t, now, card, tie))
  {
    ContinuationAgrees(rules, s, g, t);
    hide P.Do, P.Enabled, Agrees, Mirrors, Capped, Deal, DealScript;
    var queued, step := QueuedIfReady(g, t), P.ContinueGuess(t.id);
    var reread := P.Do(rules, s, step);
    var settled := if t.quality then P.Do(rules, reread, step) else reread;
    var after := AfterScored(config, g, t, now, card, tie);
    var rest := if Capped(config, queued, t.pair) then [] else DealScript(queued, t.guesser, card);
    SettlingMirrors(config, rules, settled, queued, t, now, card, tie);
    ScriptJoins(step, rest);
    if t.quality {
      MirrorStep(rules, reread, step, rest, after);
      MirrorStep(rules, s, step, [step] + rest, after);
    } else {
      MirrorStep(rules, s, step, rest, after);
    }
  }

  /** The protocol's guess rule is the game's. */
  lemma SameGuess(config: Config, rules: Tables.Config, t: Turn, row: Tables.Turn, correct: bool)
    requires SameTurn(t, row) && rules.maxGuesses == config.maxGuesses
    ensures SameTurn(ApplyGuess(config, t, correct), P.Guessed(rules, row, correct))
    ensures ApplyGuess(config, t, correct).id == t.id
  {
  }

  lemma GuessEffect(rules: Tables.Config, s: P.State, t: TurnId, correct: bool)
    requires P.Enabled(rules, s, P.ApplyGuess(t, correct)) && s.guesses == map[]
    ensures var guessed := P.Do(rules, s, P.ApplyGuess(t, correct));
            var row := P.Guessed(rules, s.world.turns[t], correct);
            && guessed.world == s.world.(turns := s.world.turns[t := row])
            && guessed.guesses == if row.status.Scored? then map[t := P.RereadQuality] else map[]
  {
  }

  lemma GuessAgrees(config: Config, rules: Tables.Config, s: P.State, g: Game, t: Turn, correct: bool)
    requires Agrees(g, s) && t.id < |g.turns| && g.turns[t.id] == t && t.status.AwaitingGuess?
    requires rules.maxGuesses == config.maxGuesses
    ensures P.Enabled(rules, s, P.ApplyGuess(t.id, correct))
    ensures var u := ApplyGuess(config, t, correct);
            var guessed := P.Do(rules, s, P.ApplyGuess(t.id, correct));
            && u.id < |Applied(g, u).turns| && Applied(g, u).turns[u.id] == u
            && Agrees(Applied(g, u), guessed.(guesses := map[]))
            && guessed.guesses == if u.status.Scored? then map[t.id := P.RereadQuality] else map[]
  {
    assert SameTurn(t, s.world.turns[t.id]);
    SameGuess(config, rules, t, s.world.turns[t.id], correct);
    GuessEffect(rules, s, t.id, correct);
    hide P.Do, P.Guessed, ApplyGuess;
  }

  lemma GuessMirrors(config: Config, rules: Tables.Config, s: P.State, g: Game, t: Turn, correct: bool, now: int, card: Option<nat>, tie: nat)
    requires Agrees(g, s) && t.id < |g.turns| && g.turns[t.id] == t && t.status.AwaitingGuess?
    requires rules.maxGuesses == config.maxGuesses
    ensures var u := ApplyGuess(config, t, correct);
            Mirrors(rules, s, GuessedScript(config, g, t, correct, card),
                    if u.status.Scored? then AfterScored(config, Applied(g, u), u, now, card, tie) else Applied(g, u))
  {
    hide Agrees, AfterScored, AfterScoredScript, Applied, Mirrors, P.Do, P.Enabled;
    var u := ApplyGuess(config, t, correct);
    var applied := Applied(g, u);
    var guess := P.ApplyGuess(t.id, correct);
    GuessAgrees(config, rules, s, g, t, correct);
    var guessed := P.Do(rules, s, guess);
    if u.status.Scored? {
      AfterScoredMirrors(config, rules, guessed, applied, u, now, card, tie);
      MirrorStep(rules, s, guess, AfterScoredScript(config, applied, u, card), AfterScored(config, applied, u, now, card, tie));
    } else {
      assert guessed == guessed.(guesses := map[]);
      MirrorNothing(rules, guessed, applied);
      MirrorStep(rules, s, guess, [], applied);
    }
  }

  lemma UploadRequestMirrors(config: Config, rules: Tables.Config, s: P.State, g: Game, me: PlayerId, fits: bool, accepted: bool,
                             audio: AcousticFingerprint)
    requires Inv(config, g) && Agrees(g, s) && ValidEnvelope(audio.envelope)
    ensures Mirrors(rules, s, UploadScript(g, me, fits, accepted, audio), UploadAudio(g, me, fits, accepted).0)
  {
    hide Inv, Agrees, SpeakerTurn, Mirrors, Enqueue, SetTurn;
    SpeakerTurnFinds(config, g, me, AwaitingAudio);
    var found := SpeakerTurn(g, me, AwaitingAudio);
    if fits && found.Ok? && accepted {
      UploadMirrors(rules, s, g, found.value, audio);
    } else {
      MirrorNothing(rules, s, g);
    }
  }

  lemma ConfirmRequestMirrors(config: Config, rules: Tables.Config, s: P.State, g: Game, me: PlayerId)
    requires Inv(config, g) && Agrees(g, s)
    ensures Mirrors(rules, s, ConfirmScript(g, me), ConfirmLabel(g, me).0)
  {
    hide Inv, Agrees, SpeakerTurn, Mirrors, SetTurn;
    SpeakerTurnFinds(config, g, me, AwaitingLabelConfirm);
    var found := SpeakerTurn(g, me, AwaitingLabelConfirm);
    if found.Ok? {
      ConfirmMirrors(rules, s, g, found.value);
    } else {
      MirrorNothing(rules, s, g);
    }
  }

  lemma GuessRequestMirrors(config: Config, rules: Tables.Config, s: P.State, g: Game, me: PlayerId, option: nat, now: int,
                            card: Option<nat>, tie: nat)
    requires Inv(config, g) && Agrees(g, s) && rules.maxGuesses == config.maxGuesses
    ensures Mirrors(rules, s, GuessScript(config, g, me, option, card), Guess(config, g, me, option, now, card, tie).0)
  {
    hide Inv, Agrees, ActivePair, LatestTurn, Mirrors, SetTurn, AfterScored, ApplyGuess, GuessedScript;
    MirrorNothing(rules, s, g);
    var pair := ActivePair(g.pairs, me);
    if pair.Some? {
      LatestIsStored(config, g, pair.value.id);
      var latest := LatestTurn(g.turns, pair.value.id);
      if latest.Some? && latest.value.guesser == me && latest.value.status.AwaitingGuess? {
        GuessMirrors(config, rules, s, g, latest.value, option == latest.value.card, now, card, tie);
      }
    }
  }

  /** Every request is the protocol run that its script spells out. */
  lemma RequestIsProtocolRun(config: Config, rules: Tables.Config, s: P.State, g: Game, action: Action, audio: AcousticFingerprint)
    requires Inv(config, g) && Agrees(g, s) && rules.maxGuesses == config.maxGuesses && ValidEnvelope(audio.envelope)
    requires IsRequest(action)
    ensures Mirrors(rules, s, Script(config, g, action, audio), Step(config, g, action))
  {
    hide Inv, Mirrors, RequestPair, UploadAudio, ConfirmLabel, Guess, P.CanRun, P.After;
    hide PairingScript, UploadScript, ConfirmScript, GuessScript;
    MirrorNothing(rules, s, g);
    match action
    case Join(newcomer) =>
      assert Agrees(Step(config, g, action), s);
      MirrorNothing(rules, s, Step(config, g, action));
    case AskForPair(me, now, card, tie) =>
      if me < |g.players| {
        PairingMirrors(rules, config, s, g, me, now, card, tie);
      }
    case Upload(me, fits, accepted) =>
      if me < |g.players| {
        UploadRequestMirrors(config, rules, s, g, me, fits, accepted, audio);
      }
    case Confirm(me) =>
      if me < |g.players| {
        ConfirmRequestMirrors(config, rules, s, g, me);
      }
    case Answer(me, option, now, card, tie) =>
      if me < |g.players| {
        GuessRequestMirrors(config, rules, s, g, me, option, now, card, tie);
      }
  }

  /** The protocol sees neither the queue nor the pairs. */
  lemma AgreesWithout(g: Game, queue: seq<Entry>, pairs: seq<Pair>, s: P.State)
    requires Agrees(g, s)
    ensures Agrees(g.(queue := queue, pairs := pairs), s)
  {
  }

  lemma PairUpMirrors(rules: Tables.Config, s: P.State, g: Game, me: Entry, other: Entry, now: int, card: Option<nat>, tie: nat)
    requires Agrees(g, s)
    ensures Mirrors(rules, s, DealScript(g, if me.since <= other.since then me.player else other.player, card),
                    PairUp(g, me, other, now, card, tie))
  {
    hide Agrees, Mirrors, Deal, Leave;
    var (a, b) := if me.since <= other.since then (me.player, other.player) else (other.player, me.player);
    var queue, pairs := Leave(Leave(g.queue, me.player), other.player), g.pairs + [Pair(|g.pairs|, a, b, true, now)];
    AgreesWithout(g, queue, pairs, s);
    DealMirrors(rules, s, g.(queue := queue, pairs := pairs), |g.pairs|, a, b, card, now, tie);
  }

  lemma PairingMirrors(rules: Tables.Config, config: Config, s: P.State, g: Game, me: PlayerId, now: int, card: Option<nat>, tie: nat)
    requires Agrees(g, s)
    ensures Mirrors(rules, s, PairingScript(config, g, me, now, card), RequestPair(config, g, me, now, card, tie).0)
  {
    hide Agrees, Mirrors, PairUp, Partner, EvictStale, Refresh, ActivePair, Rounds;
    MirrorNothing(rules, s, g);
    if Rounds(g.turns, me) < config.roundsCap && ActivePair(g.pairs, me).None? {
      var cutoff := now - config.queueTtl;
      var queue := EvictStale(Refresh(Refresh(g.queue, me, now), me, now), cutoff, me);
      var waiting := g.(queue := queue);
      var other := Partner(g.players, g.pairs, queue, cutoff, me);
      AgreesWithout(g, queue, g.pairs, s);
      if other.Some? {
        PairUpMirrors(rules, s, waiting, Entry(me, now), other.value, now, card, tie);
      } else {
        MirrorNothing(rules, s, waiting);
      }
    }
  }
}
