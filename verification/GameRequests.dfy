/**
 What each request does to a reachable game, field by field and without the lookups that it uses
 (app/game/service.py): when it is accepted, what it changes, and that a refused one changes nothing.
 */
module GameRequests {
  import opened Wrappers
  import opened Records
  import opened Sequences
  import opened Game
  import opened GameInvariant
  import opened GameProofs
  import opened GameGuarantees
  import Tables = World

  /** The unscored turn that the player is to act on. */
  predicate SpeaksIn(g: Game, me: PlayerId, status: TurnStatus, i: nat) {
    i < |g.turns| && g.turns[i].speaker == me && g.turns[i].status == status
  }

  predicate GuessesIn(g: Game, me: PlayerId, i: nat) {
    i < |g.turns| && g.turns[i].guesser == me && g.turns[i].status == AwaitingGuess
  }

  // -------------------------------------------------------------------- lookups

  /** The pair and turn lookups of a player lead to the open turn of that player. */
  lemma OpenTurnIsFound(config: Config, g: Game, me: PlayerId, i: nat)
    requires Inv(config, g) && i < |g.turns| && !g.turns[i].status.Scored? && Plays(g.turns[i], me)
    ensures ActivePair(g.pairs, me).Some? && ActivePair(g.pairs, me).value.id == g.turns[i].pair
    ensures LatestTurn(g.turns, g.turns[i].pair) == Some(g.turns[i])
  {
    ActivePairFinds(g, me);
    LatestTurnFinds(config, g, g.turns[i].pair);
    assert SeatedAt(g, i);
    hide ActivePair, LatestTurn, Rounds, Count, JobsOk, QueueOk, CapOk, PairsBelow, QueueFree, ClosedOk, NamesOk, CounterOk, TurnOk;
    var pair := g.pairs[g.turns[i].pair];
    assert pair.active && Member(pair, me);
    var found := ActivePair(g.pairs, me).value;
    if found.id != pair.id {
      OnlyOneActive(g, found.id, pair.id, me);
    }
    var latest := LatestTurn(g.turns, pair.id).value;
    if latest.id != i {
      OthersScored(g, i, latest.id);
    }
  }

  lemma OnlyOneActive(g: Game, i: nat, j: nat, player: PlayerId)
    requires OneActive(g) && i < |g.pairs| && j < |g.pairs| && g.pairs[i].active && g.pairs[j].active
    requires Member(g.pairs[i], player) && Member(g.pairs[j], player)
    ensures i == j
  {
    assert i < j ==> Apart(g.pairs[i], g.pairs[j]);
    assert j < i ==> Apart(g.pairs[j], g.pairs[i]);
  }

  lemma SpeakerFound(config: Config, g: Game, me: PlayerId, status: TurnStatus)
    requires Inv(config, g) && !status.Scored?
    ensures SpeakerTurn(g, me, status).Ok? <==> exists i: nat :: SpeaksIn(g, me, status, i)
    ensures SpeakerTurn(g, me, status).Ok? ==>
              var t := SpeakerTurn(g, me, status).value;
              SpeaksIn(g, me, status, t.id) && g.turns[t.id] == t
  {
    SpeakerTurnFinds(config, g, me, status);
    hide Inv, ActivePair, LatestTurn;
    if i: nat :| SpeaksIn(g, me, status, i) {
      OpenTurnIsFound(config, g, me, i);
    }
    assert SpeakerTurn(g, me, status).Ok? ==> SpeaksIn(g, me, status, SpeakerTurn(g, me, status).value.id);
  }

  // --------------------------------------------------------------------- upload

  /**
   A recording is accepted if and only if it fits, passes the check, and the player is the speaker
   of a turn that awaits one; the turn then awaits its label and triage is queued, and nothing else.
   */
  lemma UploadMeans(config: Config, actions: seq<Action>, me: PlayerId, fits: bool, accepted: bool)
    ensures var g := After(config, actions);
            var (after, reply) := UploadAudio(g, me, fits, accepted);
            if fits && accepted && exists i: nat :: SpeaksIn(g, me, AwaitingAudio, i) then
              && reply == Ok(Accepted)
              && exists i: nat :: SpeaksIn(g, me, AwaitingAudio, i)
                             && after == g.(turns := g.turns[i := g.turns[i].(audio := true, status := AwaitingLabelConfirm)],
                                            jobs := g.jobs + [Tables.JobKey(Tables.Triage, i)])
            else
              && after == g && reply != Ok(Accepted)
              && (reply == Ok(ReRecord) <==> !fits || exists i: nat :: SpeaksIn(g, me, AwaitingAudio, i))
  {
    RunKeepsInv(config, actions);
    var g := After(config, actions);
    hide After;
    SpeakerFound(config, g, me, AwaitingAudio);
    hide SpeakerTurn;
    if fits && accepted && SpeakerTurn(g, me, AwaitingAudio).Ok? {
      var t := SpeakerTurn(g, me, AwaitingAudio).value;
      assert TurnOk(config, g.turns[t.id]);
      assert Tables.JobKey(Tables.Triage, t.id) !in g.jobs;
      assert SpeaksIn(g, me, AwaitingAudio, t.id);
    }
    hide Inv;
  }

  // ---------------------------------------------------------------------- label

  /** A label is confirmed if and only if the player speaks in a turn that awaits it; only that turn moves on. */
  lemma ConfirmMeans(config: Config, actions: seq<Action>, me: PlayerId)
    ensures var g := After(config, actions);
            var (after, reply) := ConfirmLabel(g, me);
            if exists i: nat :: SpeaksIn(g, me, AwaitingLabelConfirm, i) then
              && reply == Ok(Done)
              && exists i: nat :: SpeaksIn(g, me, AwaitingLabelConfirm, i)
                             && after == g.(turns := g.turns[i := g.turns[i].(status := AwaitingGuess)])
            else after == g && reply.Err?
  {
    RunKeepsInv(config, actions);
    var g := After(config, actions);
    hide After;
    SpeakerFound(config, g, me, AwaitingLabelConfirm);
    hide SpeakerTurn, Inv, SpeaksIn;
    if SpeakerTurn(g, me, AwaitingLabelConfirm).Ok? {
      var t := SpeakerTurn(g, me, AwaitingLabelConfirm).value;
      assert SpeaksIn(g, me, AwaitingLabelConfirm, t.id);
    }
  }

  // ---------------------------------------------------------------------- guess

  /** The turn after one more guess: right, wrong for the last time, or wrong with guesses left. */
  ghost predicate Answered(config: Config, t: Turn, right: bool, u: Turn) {
    && u.attempts == t.attempts + 1
    && u == t.(attempts := u.attempts, status := u.status, outcome := u.outcome)
    && (right ==> u.status == Scored && u.outcome == Validated)
    && (!right && u.attempts >= config.maxGuesses ==> u.status == Scored && u.outcome == Unclear)
    && (!right && u.attempts < config.maxGuesses ==> u.status == t.status && u.outcome == t.outcome)
  }

  /** A member of the pair has played as many scored turns as the cap allows. */
  ghost predicate SessionOver(config: Config, turns: seq<Turn>, pair: Pair) {
    |TurnsPlayed(turns, pair.playerA)| >= config.roundsCap || |TurnsPlayed(turns, pair.playerB)| >= config.roundsCap
  }

  /** The session goes on with the roles swapped, if a card is left. */
  ghost predicate DealtOn(before: seq<Turn>, after: seq<Turn>, t: Turn, now: int, card: Option<nat>) {
    if card.None? then after == before
    else
      && |after| == |before| + 1 && before <= after
      && var n := after[|before|];
         n.pair == t.pair && n.speaker == t.guesser && n.guesser == t.speaker && n.card == card.value && n.created == now
         && n.status == AwaitingAudio && n.outcome == Undecided && n.attempts == 0 && !n.audio && !n.quality
  }

  /** The whole effect of turn `i` becoming `u`. */
  ghost predicate Effect(config: Config, g: Game, after: Game, i: nat, u: Turn, now: int, card: Option<nat>)
    requires i < |g.turns| && u.pair < |g.pairs|
  {
    && after.players == g.players && after.queue == g.queue
    && after.validated == g.validated + (if u.outcome == Validated then 1 else 0)
    && var turns := g.turns[i := u];
       if u.status != Scored then after.turns == turns && after.pairs == g.pairs && after.jobs == g.jobs
       else
         && after.jobs == g.jobs + (if u.quality then [Tables.JobKey(Tables.Package, i)] else [])
         && if SessionOver(config, turns, g.pairs[u.pair])
            then after.turns == turns && after.pairs == g.pairs[u.pair := g.pairs[u.pair].(active := false)]
            else after.pairs == g.pairs && DealtOn(turns, after.turns, u, now, card)
  }

  /** The whole effect of a guess on turn `i`. */
  ghost predicate Guessed(config: Config, g: Game, after: Game, i: nat, right: bool, now: int, card: Option<nat>)
    requires i < |g.turns| && g.turns[i].pair < |g.pairs|
  {
    exists u: Turn :: Answered(config, g.turns[i], right, u) && Effect(config, g, after, i, u, now, card)
  }

  lemma CappedMeans(config: Config, g: Game, pair: nat)
    requires pair < |g.pairs|
    ensures Capped(config, g, pair) <==> SessionOver(config, g.turns, g.pairs[pair])
  {
    TalliesMean(config, g.turns, g.pairs[pair].playerA);
    TalliesMean(config, g.turns, g.pairs[pair].playerB);
    hide Rounds, TurnsPlayed;
  }

  lemma AfterScoredMeans(config: Config, g: Game, i: nat, u: Turn, now: int, card: Option<nat>, tie: nat)
    requires u.id == i < |g.turns| && g.turns[i] == u && u.pair < |g.pairs| && Tables.JobKey(Tables.Package, i) !in g.jobs
    ensures var after := AfterScored(config, g, u, now, card, tie);
            && after.players == g.players && after.queue == g.queue && after.validated == g.validated
            && after.jobs == g.jobs + (if u.quality then [Tables.JobKey(Tables.Package, i)] else [])
            && if SessionOver(config, g.turns, g.pairs[u.pair])
               then after.turns == g.turns && after.pairs == g.pairs[u.pair := g.pairs[u.pair].(active := false)]
               else after.pairs == g.pairs && DealtOn(g.turns, after.turns, u, now, card)
  {
    var queued := if u.quality then g.(jobs := Enqueue(g.jobs, Tables.JobKey(Tables.Package, u.id))) else g;
    CappedMeans(config, queued, u.pair);
    hide Capped, SessionOver;
  }

  lemma GuessIs(config: Config, g: Game, me: PlayerId, i: nat, option: nat, now: int, card: Option<nat>, tie: nat)
    requires Inv(config, g) && GuessesIn(g, me, i)
    ensures var u := ApplyGuess(config, g.turns[i], option == g.turns[i].card);
            Guess(config, g, me, option, now, card, tie) ==
            (if u.status.Scored? then AfterScored(config, Applied(g, u), u, now, card, tie) else Applied(g, u), Ok(Done))
  {
    OpenTurnIsFound(config, g, me, i);
    hide Inv, ActivePair, LatestTurn, AfterScored, ApplyGuess;
  }

  lemma GuessAnswers(config: Config, t: Turn, right: bool)
    requires t.status == AwaitingGuess && t.outcome == Undecided
    ensures var u := ApplyGuess(config, t, right);
            Answered(config, t, right, u) && u.id == t.id && u.pair == t.pair && (u.status.Scored? <==> !u.outcome.Undecided?)
  {
  }

  lemma EffectOfGuess(config: Config, g: Game, i: nat, u: Turn, now: int, card: Option<nat>, tie: nat)
    requires u.id == i < |g.turns| && u.pair < |g.pairs| && Tables.JobKey(Tables.Package, i) !in g.jobs
    ensures Effect(config, g, if u.status.Scored? then AfterScored(config, Applied(g, u), u, now, card, tie) else Applied(g, u), i, u, now, card)
  {
    hide AfterScored, SessionOver, DealtOn;
    if u.status.Scored? {
      AfterScoredMeans(config, Applied(g, u), i, u, now, card, tie);
    }
  }

  /** What a guess does to an open turn. */
  lemma GuessOnTurn(config: Config, g: Game, me: PlayerId, i: nat, option: nat, now: int, card: Option<nat>, tie: nat)
    requires Inv(config, g) && GuessesIn(g, me, i) && g.turns[i].pair < |g.pairs|
    ensures var (after, reply) := Guess(config, g, me, option, now, card, tie);
            reply == Ok(Done) && Guessed(config, g, after, i, option == g.turns[i].card, now, card)
  {
    GuessIs(config, g, me, i, option, now, card, tie);
    var t, right := g.turns[i], option == g.turns[i].card;
    assert t.id == i && TurnOk(config, t);
    assert Tables.JobKey(Tables.Package, i) !in g.jobs;
    hide Inv, Guess, AfterScored, Effect, Applied, Answered, ApplyGuess;
    GuessAnswers(config, t, right);
    EffectOfGuess(config, g, i, ApplyGuess(config, t, right), now, card, tie);
  }

  /**
   A guess counts if and only if the player is the guesser of a turn that awaits one; then the turn,
   the counter, the jobs, the pair and the next turn are as stated, and everything else stays.
   */
  lemma GuessMeans(config: Config, actions: seq<Action>, me: PlayerId, option: nat, now: int, card: Option<nat>, tie: nat)
    ensures var g := After(config, actions);
            var (after, reply) := Guess(config, g, me, option, now, card, tie);
            if exists i: nat :: GuessesIn(g, me, i) then
              && reply == Ok(Done)
              && exists i: nat :: GuessesIn(g, me, i) && g.turns[i].pair < |g.pairs|
                             && Guessed(config, g, after, i, option == g.turns[i].card, now, card)
            else after == g && reply.Err?
  {
    RunKeepsInv(config, actions);
    var g := After(config, actions);
    hide After, Guessed;
    if i: nat :| GuessesIn(g, me, i) {
      assert g.turns[i].pair < |g.pairs|;
      hide Inv;
      GuessOnTurn(config, g, me, i, option, now, card, tie);
    } else {
      var pair := ActivePair(g.pairs, me);
      if pair.Some? {
        LatestIsStored(config, g, pair.value.id);
        var latest := LatestTurn(g.turns, pair.value.id);
        assert latest.Some? ==> !GuessesIn(g, me, latest.value.id);
      }
      hide Inv, ActivePair, LatestTurn;
    }
  }

  // ------------------------------------------------------------------- refusals

  predicate InActivePair(g: Game, me: PlayerId) {
    exists i :: 0 <= i < |g.pairs| && g.pairs[i].active && (g.pairs[i].playerA == me || g.pairs[i].playerB == me)
  }

  /** Who is refused a pair: whoever has played the cap; whoever has an active pair keeps it. */
  lemma AskRefusals(config: Config, actions: seq<Action>, me: PlayerId, now: int, card: Option<nat>, tie: nat)
    ensures var g := After(config, actions);
            var (after, reply) := RequestPair(config, g, me, now, card, tie);
            && (reply == Err(RoundCapReached) <==> |TurnsPlayed(g.turns, me)| >= config.roundsCap)
            && (|TurnsPlayed(g.turns, me)| >= config.roundsCap ==> after == g)
            && (|TurnsPlayed(g.turns, me)| < config.roundsCap && InActivePair(g, me) ==> after == g && reply == Ok(Matched))
  {
    RunKeepsInv(config, actions);
    var g := After(config, actions);
    hide After;
    TalliesMean(config, g.turns, me);
    ActivePairFinds(g, me);
    hide Inv, Rounds, TurnsPlayed, TryMatch, ActivePair;
  }

  /** Why a speaker's request is refused while a turn of the player's pair is open. */
  lemma SpeakerRefusals(config: Config, actions: seq<Action>, me: PlayerId, expected: TurnStatus, i: nat)
    requires var turns := After(config, actions).turns;
             i < |turns| && turns[i].status != Scored && (turns[i].speaker == me || turns[i].guesser == me)
    ensures var g := After(config, actions);
            SpeakerTurn(g, me, expected) ==
            if g.turns[i].speaker != me then Err(NotSpeaker)
            else if g.turns[i].status != expected then Err(WrongStatus) else Ok(g.turns[i])
  {
    RunKeepsInv(config, actions);
    var g := After(config, actions);
    hide After;
    OpenTurnIsFound(config, g, me, i);
    hide Inv, ActivePair, LatestTurn;
  }

  /** Why a guess is refused, and that a refused one changes nothing. */
  lemma GuessRefusals(config: Config, actions: seq<Action>, me: PlayerId, option: nat, now: int, card: Option<nat>, tie: nat, i: nat)
    requires var turns := After(config, actions).turns;
             i < |turns| && turns[i].status != Scored && (turns[i].speaker == me || turns[i].guesser == me)
    ensures var g := After(config, actions);
            var (after, reply) := Guess(config, g, me, option, now, card, tie);
            && (g.turns[i].guesser != me ==> after == g && reply == Err(NotGuesser))
            && (g.turns[i].guesser == me && g.turns[i].status != AwaitingGuess ==> after == g && reply == Err(WrongStatus))
  {
    RunKeepsInv(config, actions);
    var g := After(config, actions);
    hide After;
    OpenTurnIsFound(config, g, me, i);
    hide Inv, ActivePair, LatestTurn, AfterScored, ApplyGuess;
  }

  lemma HasPair(config: Config, g: Game, me: PlayerId)
    requires Inv(config, g)
    ensures ActivePair(g.pairs, me).Some? <==> InActivePair(g, me)
  {
    ActivePairFinds(g, me);
    hide Inv, ActivePair;
  }

  /** Players without an active pair are told so in every request that needs one. */
  lemma UnpairedRefusals(config: Config, actions: seq<Action>, me: PlayerId, option: nat, expected: TurnStatus, now: int,
                         card: Option<nat>, tie: nat)
    ensures var g := After(config, actions);
            && (SpeakerTurn(g, me, expected) == Err(NotPaired) <==> !InActivePair(g, me))
            && (Guess(config, g, me, option, now, card, tie).1 == Err(NotPaired) <==> !InActivePair(g, me))
  {
    RunKeepsInv(config, actions);
    HasPair(config, After(config, actions), me);
    hide After, Inv, ActivePair, InActivePair, LatestTurn, AfterScored, ApplyGuess;
  }

  /** A speaker is told of having no turn exactly when the active pair has none. */
  lemma NoTurnRefusal(config: Config, actions: seq<Action>, me: PlayerId, expected: TurnStatus, i: nat)
    requires var g := After(config, actions);
             i < |g.pairs| && g.pairs[i].active && (g.pairs[i].playerA == me || g.pairs[i].playerB == me)
    ensures var g := After(config, actions);
            SpeakerTurn(g, me, expected) == Err(NoActiveTurn) <==> forall j :: 0 <= j < |g.turns| ==> g.turns[j].pair != i
  {
    RunKeepsInv(config, actions);
    var g := After(config, actions);
    hide After;
    HasPair(config, g, me);
    ActivePairFinds(g, me);
    LatestTurnFinds(config, g, i);
    OnlyOneActive(g, ActivePair(g.pairs, me).value.id, i, me);
    hide Inv, ActivePair, LatestTurn, InActivePair;
  }
}
