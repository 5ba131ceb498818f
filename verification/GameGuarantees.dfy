/** What a visitor may rely on after any sequence of requests. */
module GameGuarantees {
  import opened Wrappers
  import opened Records
  import opened Sequences
  import opened Sorting
  import opened Game
  import opened GameInvariant
  import opened GameProofs
  import Tables = World

  // ------------------------------------------------------------------- tallies

  /** The validated turns in which the player spoke or guessed. */
  ghost function TurnsWon(turns: seq<Turn>, p: PlayerId): set<nat> {
    set i: nat | i < |turns| && turns[i].outcome == Validated && (turns[i].speaker == p || turns[i].guesser == p)
  }

  /** The scored turns in which the player spoke or guessed. */
  ghost function TurnsPlayed(turns: seq<Turn>, p: PlayerId): set<nat> {
    set i: nat | i < |turns| && turns[i].status == Scored && (turns[i].speaker == p || turns[i].guesser == p)
  }

  lemma TalliesMean(config: Config, turns: seq<Turn>, p: PlayerId)
    ensures Score(config, turns, p) == |TurnsWon(turns, p)| * config.points
    ensures Rounds(turns, p) == |TurnsPlayed(turns, p)|
  {
    CountIsSize(turns, WonBy(p));
    CountIsSize(turns, PlayedBy(p));
    assert Hits(turns, WonBy(p)) == TurnsWon(turns, p);
    assert Hits(turns, PlayedBy(p)) == TurnsPlayed(turns, p);
  }

  // --------------------------------------------------------------- session cap

  /**
   Nobody plays more than the cap; a player has one active pair at most, is not queued beside it,
   and whoever is queued or in an active pair is still below the cap.
   */
  ghost predicate SessionsCapped(config: Config, g: Game) {
    && (forall p: PlayerId :: |TurnsPlayed(g.turns, p)| <= Cap(config))
    && (forall p: PlayerId, i, j ::
          0 <= i < j < |g.pairs| ==> !(ActiveWith(p)(g.pairs[i]) && ActiveWith(p)(g.pairs[j])))
    && (forall p: PlayerId, i :: 0 <= i < |g.pairs| && ActiveWith(p)(g.pairs[i]) ==> |TurnsPlayed(g.turns, p)| < config.roundsCap)
    && (forall e, i :: e in g.queue && 0 <= i < |g.pairs| ==> !ActiveWith(e.player)(g.pairs[i]))
    && (forall e :: e in g.queue ==> |TurnsPlayed(g.turns, e.player)| < config.roundsCap)
  }

  lemma SessionCap(config: Config, actions: seq<Action>)
    ensures SessionsCapped(config, After(config, actions))
  {
    RunKeepsInv(config, actions);
    var g := After(config, actions);
    hide After, Rounds, Count, Seated, JobsOk, TurnsOk, OneOpen, TurnsPlayed, TurnsWon;
    forall p: PlayerId ensures Rounds(g.turns, p) == |TurnsPlayed(g.turns, p)| {
      TalliesMean(config, g.turns, p);
    }
    forall p: PlayerId, i, j | 0 <= i < j < |g.pairs| ensures !(ActiveWith(p)(g.pairs[i]) && ActiveWith(p)(g.pairs[j])) {
      assert g.pairs[i].active && g.pairs[j].active ==> Apart(g.pairs[i], g.pairs[j]);
    }
    forall p: PlayerId, i | 0 <= i < |g.pairs| && ActiveWith(p)(g.pairs[i]) ensures Rounds(g.turns, p) < config.roundsCap {
      assert Below(config, g, g.pairs[i]);
    }
    forall e | e in g.queue
      ensures Rounds(g.turns, e.player) < config.roundsCap
      ensures forall i :: 0 <= i < |g.pairs| ==> !ActiveWith(e.player)(g.pairs[i])
    {
      assert Free(config, g, e.player);
    }
  }

  // ------------------------------------------------------------------ turn chain

  /** The `i`-th turn made is the `TurnNumber`-th of its pair, counted from zero. */
  function TurnNumber(g: Game, i: nat): nat
    requires i < |g.turns|
  {
    Count(g.turns[..i], OfPair(g.turns[i].pair))
  }

  /**
   The turns of a pair form a chain: the speaker of the k-th is `player_a` exactly when k is even
   and the other member guesses; only the last may be unscored, and only while the pair is active.
   */
  ghost predicate Chained(g: Game) {
    forall i: TurnId :: i < |g.turns| ==>
      var t := g.turns[i];
      && t.pair < |g.pairs|
      && t.speaker == (if TurnNumber(g, i) % 2 == 0 then g.pairs[t.pair].playerA else g.pairs[t.pair].playerB)
      && t.guesser == (if TurnNumber(g, i) % 2 == 0 then g.pairs[t.pair].playerB else g.pairs[t.pair].playerA)
      && t.speaker != t.guesser
      && (!t.status.Scored? ==> g.pairs[t.pair].active && forall j :: i < j < |g.turns| ==> g.turns[j].pair != t.pair)
  }

  lemma TurnChain(config: Config, actions: seq<Action>)
    ensures Chained(After(config, actions))
  {
    RunKeepsInv(config, actions);
    var g := After(config, actions);
    hide After, Rounds, Count, JobsOk, TurnsOk, QueueOk, CapOk, PairsBelow, OneActive, QueueFree, ClosedOk;
    forall i: TurnId | i < |g.turns|
      ensures g.turns[i].pair < |g.pairs|
      ensures var pair := g.pairs[g.turns[i].pair];
              (g.turns[i].speaker, g.turns[i].guesser) == Roles(pair, TurnNumber(g, i)) && pair.playerA != pair.playerB
    {
      assert SeatedAt(g, i);
    }
  }

  /** Status, outcome, attempts, audio and the triage job of every turn stay coupled. */
  lemma TurnRecords(config: Config, actions: seq<Action>)
    ensures var g := After(config, actions);
            forall i: TurnId :: i < |g.turns| ==>
              var t := g.turns[i];
              && (t.status.Scored? <==> !t.outcome.Undecided?)
              && (t.audio <==> !t.status.AwaitingAudio?)
              && (t.audio <==> Tables.JobKey(Tables.Triage, i) in g.jobs)
              && (Tables.JobKey(Tables.Package, i) in g.jobs ==> t.status.Scored? && t.quality)
              && (t.outcome.Validated? ==> 1 <= t.attempts <= LastGuess(config))
              && (t.outcome.Unclear? ==> t.attempts == LastGuess(config))
              && (t.outcome.Undecided? ==> t.attempts < LastGuess(config))
    ensures var jobs := After(config, actions).jobs; forall i, j :: 0 <= i < j < |jobs| ==> jobs[i] != jobs[j]
  {
    RunKeepsInv(config, actions);
    var g := After(config, actions);
    hide After, Rounds, Count, Seated, QueueOk, CapOk, PairsBelow, OneActive, QueueFree, ClosedOk, OneOpen;
    forall i: TurnId | i < |g.turns|
      ensures TurnOk(config, g.turns[i])
      ensures g.turns[i].audio <==> Tables.JobKey(Tables.Triage, i) in g.jobs
      ensures Tables.JobKey(Tables.Package, i) in g.jobs ==> g.turns[i].status.Scored? && g.turns[i].quality
    {
    }
  }

  /** The newest-turn lookup returns the open turn of a pair whatever the clock and the identifiers did. */
  lemma LatestIsOpen(config: Config, actions: seq<Action>, i: TurnId)
    requires i < |After(config, actions).turns| && !After(config, actions).turns[i].status.Scored?
    ensures var turns := After(config, actions).turns; LatestTurn(turns, turns[i].pair) == Some(turns[i])
  {
    RunKeepsInv(config, actions);
    var g := After(config, actions);
    LatestTurnFinds(config, g, g.turns[i].pair);
    var latest := LatestTurn(g.turns, g.turns[i].pair).value;
    hide After, Rounds, Count, Seated, QueueOk, CapOk, PairsBelow, OneActive, QueueFree, ClosedOk, JobsOk;
    if latest.id != i {
      OthersScored(g, i, latest.id);
    }
  }

  // -------------------------------------------------------------------- lookups

  /** The newest-turn lookup on any store: an unscored turn before any scored one, then the latest time, then the highest identifier. */
  lemma LatestTurnMeans(turns: seq<Turn>, pair: nat)
    ensures LatestTurn(turns, pair).None? <==> forall i :: 0 <= i < |turns| ==> turns[i].pair != pair
    ensures LatestTurn(turns, pair).Some? ==>
              var t := LatestTurn(turns, pair).value;
              && t in turns && t.pair == pair
              && forall u :: u in turns && u.pair == pair ==>
                   && (t.status == Scored ==> u.status == Scored)
                   && ((t.status == Scored <==> u.status == Scored) ==>
                         t.created > u.created || (t.created == u.created && t.tie >= u.tie))
  {
    LaterIsTotal();
    var mine := Filter(turns, OfPair(pair));
    SortSorts(mine, Later);
    var sorted := Sort(mine, Later);
    hide Sort, Filter;
    forall u ensures u in sorted <==> u in turns && u.pair == pair {
      SameElements(mine, sorted, u);
      InFilter(turns, OfPair(pair), u);
    }
    forall i | 0 <= i < |turns| && turns[i].pair == pair ensures sorted != [] {
      assert turns[i] in sorted;
    }
    if sorted != [] {
      assert sorted[0] in sorted;
      forall u | u in sorted ensures Later(sorted[0], u) {
        var k :| 0 <= k < |sorted| && sorted[k] == u;
        assert k > 0 ==> Later(sorted[0], sorted[k]);
      }
    }
  }

  /** The pair lookup on any store: the newest active pair that the player belongs to. */
  lemma ActivePairMeans(pairs: seq<Pair>, player: PlayerId)
    ensures ActivePair(pairs, player).None? <==>
            forall i :: 0 <= i < |pairs| && pairs[i].active ==> pairs[i].playerA != player && pairs[i].playerB != player
    ensures ActivePair(pairs, player).Some? ==>
              var p := ActivePair(pairs, player).value;
              && p in pairs && p.active && (p.playerA == player || p.playerB == player)
              && forall q :: q in pairs && q.active && (q.playerA == player || q.playerB == player) ==> p.created >= q.created
  {
    var mine := Filter(pairs, ActiveWith(player));
    SortSorts(mine, NewerPair);
    var sorted := Sort(mine, NewerPair);
    hide Sort, Filter;
    forall q ensures q in sorted <==> q in pairs && q.active && (q.playerA == player || q.playerB == player) {
      SameElements(mine, sorted, q);
      InFilter(pairs, ActiveWith(player), q);
    }
    forall i | 0 <= i < |pairs| && pairs[i].active && (pairs[i].playerA == player || pairs[i].playerB == player) ensures sorted != [] {
      assert pairs[i] in sorted;
    }
    if sorted != [] {
      assert sorted[0] in sorted;
      forall q | q in sorted ensures NewerPair(sorted[0], q) {
        var k :| 0 <= k < |sorted| && sorted[k] == q;
        assert k > 0 ==> NewerPair(sorted[0], sorted[k]);
      }
    }
  }

  // -------------------------------------------------------- nothing is taken back

  /** A scored turn is final but for its quality; seats, card and accepted audio stay. */
  predicate Continues(before: Turn, after: Turn) {
    && SameSeat(before, after) && before.card == after.card && (before.audio ==> after.audio) && (before.quality ==> after.quality)
    && (before.status.Scored? ==> after.status.Scored? && after.outcome == before.outcome && after.attempts == before.attempts)
  }

  /** Turns only accumulate and only advance. */
  ghost predicate Extends(before: seq<Turn>, after: seq<Turn>) {
    |before| <= |after| && forall i :: 0 <= i < |before| ==> Continues(before[i], after[i])
  }

  lemma RequestPairExtends(config: Config, g: Game, me: PlayerId, now: int, card: Option<nat>, tie: nat)
    ensures Extends(g.turns, RequestPair(config, g, me, now, card, tie).0.turns)
  {
    hide Partner, ActivePair, Refresh, EvictStale, Rounds, Leave;
  }

  lemma UploadExtends(config: Config, g: Game, me: PlayerId, fits: bool, accepted: bool)
    requires Inv(config, g)
    ensures Extends(g.turns, UploadAudio(g, me, fits, accepted).0.turns)
  {
    SpeakerTurnFinds(config, g, me, AwaitingAudio);
    hide SpeakerTurn, Inv, Enqueue;
  }

  lemma ConfirmExtends(config: Config, g: Game, me: PlayerId)
    requires Inv(config, g)
    ensures Extends(g.turns, ConfirmLabel(g, me).0.turns)
  {
    SpeakerTurnFinds(config, g, me, AwaitingLabelConfirm);
    hide SpeakerTurn, Inv;
  }

  lemma AfterScoredExtends(config: Config, g: Game, t: Turn, now: int, card: Option<nat>, tie: nat)
    ensures Extends(g.turns, AfterScored(config, g, t, now, card, tie).turns)
  {
    hide Capped, Enqueue, Close;
  }

  lemma GuessContinues(config: Config, g: Game, t: Turn, correct: bool)
    requires t.id < |g.turns| && g.turns[t.id] == t
    ensures t.status.AwaitingGuess? ==> Extends(g.turns, Applied(g, ApplyGuess(config, t, correct)).turns)
  {
  }

  lemma ExtendsSelf(turns: seq<Turn>)
    ensures Extends(turns, turns)
  {
  }

  lemma GuessExtends(config: Config, g: Game, me: PlayerId, option: nat, now: int, card: Option<nat>, tie: nat)
    requires Inv(config, g)
    ensures Extends(g.turns, Guess(config, g, me, option, now, card, tie).0.turns)
  {
    hide AfterScored, ActivePair, LatestTurn, Inv, Extends, ApplyGuess;
    ExtendsSelf(g.turns);
    var pair := ActivePair(g.pairs, me);
    if pair.Some? {
      LatestIsStored(config, g, pair.value.id);
      var latest := LatestTurn(g.turns, pair.value.id);
      if latest.Some? && latest.value.status.AwaitingGuess? {
        var u := ApplyGuess(config, latest.value, option == latest.value.card);
        var applied := Applied(g, u);
        GuessContinues(config, g, latest.value, option == latest.value.card);
        AfterScoredExtends(config, applied, u, now, card, tie);
        ExtendsChain(g.turns, applied.turns, AfterScored(config, applied, u, now, card, tie).turns);
      }
    }
  }

  lemma StepExtends(config: Config, g: Game, action: Action)
    requires Inv(config, g)
    ensures Extends(g.turns, Step(config, g, action).turns)
  {
    hide Inv, RequestPair, UploadAudio, ConfirmLabel, Guess;
    match action
    case AskForPair(me, now, card, tie) => RequestPairExtends(config, g, me, now, card, tie);
    case Upload(me, fits, accepted) => UploadExtends(config, g, me, fits, accepted);
    case Confirm(me) => ConfirmExtends(config, g, me);
    case Answer(me, option, now, card, tie) => GuessExtends(config, g, me, option, now, card, tie);
    case Join(_) =>
    case StoreQuality(_) =>
    case CommitTriage(_) =>
  }

  lemma {:induction false} RoundsGrow(before: seq<Turn>, after: seq<Turn>, p: PlayerId)
    requires Extends(before, after)
    ensures Rounds(before, p) <= Rounds(after, p)
    decreases |after|
  {
    if after != [] {
      var n := |after| - 1;
      if |before| == |after| {
        RoundsGrow(before[..n], after[..n], p);
        assert Continues(before[n], after[n]);
      } else {
        RoundsGrow(before, after[..n], p);
      }
    }
  }

  lemma AfterMore(config: Config, actions: seq<Action>, more: seq<Action>)
    requires more != []
    ensures After(config, actions + more) ==
            Step(config, After(config, actions + more[..|more| - 1]), more[|more| - 1])
  {
    var front := more[..|more| - 1];
    assert (actions + more)[..|actions + more| - 1] == actions + front;
  }

  lemma {:induction false} RunExtends(config: Config, actions: seq<Action>, more: seq<Action>)
    ensures Extends(After(config, actions).turns, After(config, actions + more).turns)
    decreases |more|
  {
    if more == [] {
      assert actions + more == actions;
    } else {
      hide After, Step, Continues, Inv;
      var front, last := more[..|more| - 1], more[|more| - 1];
      RunExtends(config, actions, front);
      RunKeepsInv(config, actions + front);
      StepExtends(config, After(config, actions + front), last);
      AfterMore(config, actions, more);
      ExtendsChain(After(config, actions).turns, After(config, actions + front).turns, After(config, actions + more).turns);
    }
  }

  lemma ExtendsChain(a: seq<Turn>, b: seq<Turn>, c: seq<Turn>)
    requires Extends(a, b) && Extends(b, c)
    ensures Extends(a, c)
  {
    forall i | 0 <= i < |a| ensures Continues(a[i], c[i]) {
      assert Continues(a[i], b[i]) && Continues(b[i], c[i]);
    }
  }

  /** In a reachable state a turn that is not there yet can only seat players below the cap. */
  lemma OpenTurnsBelow(config: Config, g: Game, i: nat, p: PlayerId)
    requires Inv(config, g) && i < |g.turns| && !g.turns[i].status.Scored? && Plays(g.turns[i], p)
    ensures Rounds(g.turns, p) < config.roundsCap
  {
    SeatsAreMembers(g, i);
    assert OneOpen(g);
    assert Below(config, g, g.pairs[g.turns[i].pair]);
  }

  /** Turns that were not there before are still open. */
  ghost predicate DealsOpen(before: seq<Turn>, after: seq<Turn>) {
    forall i :: |before| <= i < |after| ==> !after[i].status.Scored?
  }

  lemma GuessDealsOpen(config: Config, g: Game, me: PlayerId, option: nat, now: int, card: Option<nat>, tie: nat)
    ensures DealsOpen(g.turns, Guess(config, g, me, option, now, card, tie).0.turns)
  {
    hide ActivePair, LatestTurn, Capped, Enqueue, Close, ApplyGuess;
  }

  lemma RequestPairDealsOpen(config: Config, g: Game, me: PlayerId, now: int, card: Option<nat>, tie: nat)
    ensures DealsOpen(g.turns, RequestPair(config, g, me, now, card, tie).0.turns)
  {
    hide Partner, ActivePair, Refresh, EvictStale, Rounds, Leave;
  }

  lemma StepDealsOpen(config: Config, g: Game, action: Action)
    ensures DealsOpen(g.turns, Step(config, g, action).turns)
  {
    hide RequestPair, Guess, SpeakerTurn;
    match action
    case AskForPair(me, now, card, tie) => RequestPairDealsOpen(config, g, me, now, card, tie);
    case Answer(me, option, now, card, tie) => GuessDealsOpen(config, g, me, option, now, card, tie);
    case Upload(_, _, _) =>
    case Confirm(_) =>
    case Join(_) =>
    case StoreQuality(_) =>
    case CommitTriage(_) =>
  }

  lemma {:induction false} NewTurnsInRun(config: Config, actions: seq<Action>, more: seq<Action>, p: PlayerId)
    requires Rounds(After(config, actions).turns, p) >= config.roundsCap
    ensures var before, after := After(config, actions).turns, After(config, actions + more).turns;
            |before| <= |after| && forall i :: |before| <= i < |after| ==> !Plays(after[i], p)
    decreases |more|
  {
    hide After, Step, Rounds, Plays;
    if more == [] {
      assert actions + more == actions;
    } else {
      var front, last := more[..|more| - 1], more[|more| - 1];
      NewTurnsInRun(config, actions, front, p);
      OneMoreStep(config, actions, front, last, p);
      AfterMore(config, actions, more);
    }
  }

  /** One step deals no turn to a player who has reached the cap. */
  lemma StepSpares(config: Config, g: Game, action: Action, p: PlayerId)
    requires Inv(config, g) && Rounds(g.turns, p) >= config.roundsCap
    ensures var turns := Step(config, g, action).turns; forall i :: |g.turns| <= i < |turns| ==> !Plays(turns[i], p)
  {
    var after := Step(config, g, action);
    StepKeepsInv(config, g, action);
    StepExtends(config, g, action);
    StepDealsOpen(config, g, action);
    RoundsGrow(g.turns, after.turns, p);
    hide Step, Inv, Rounds, Extends;
    forall i | |g.turns| <= i < |after.turns| ensures !Plays(after.turns[i], p) {
      if Plays(after.turns[i], p) {
        OpenTurnsBelow(config, after, i, p);
      }
    }
  }

  lemma OneMoreStep(config: Config, actions: seq<Action>, front: seq<Action>, last: Action, p: PlayerId)
    requires Rounds(After(config, actions).turns, p) >= config.roundsCap
    requires var before, after := After(config, actions).turns, After(config, actions + front).turns;
             |before| <= |after| && forall i :: |before| <= i < |after| ==> !Plays(after[i], p)
    ensures var before, after := After(config, actions).turns, Step(config, After(config, actions + front), last).turns;
            |before| <= |after| && forall i :: |before| <= i < |after| ==> !Plays(after[i], p)
  {
    var middle := After(config, actions + front);
    RunExtends(config, actions, front);
    RunKeepsInv(config, actions + front);
    RoundsGrow(After(config, actions).turns, middle.turns, p);
    StepSpares(config, middle, last, p);
    StepExtends(config, middle, last);
    var after := Step(config, middle, last);
    hide After, Step, Inv, Rounds;
    forall i | |After(config, actions).turns| <= i < |after.turns| ensures !Plays(after.turns[i], p) {
      if i < |middle.turns| {
        assert Continues(middle.turns[i], after.turns[i]);
      }
    }
  }

  /** Whoever reaches the cap keeps exactly the rounds played so far. */
  lemma CappedForever(config: Config, actions: seq<Action>, more: seq<Action>, p: PlayerId)
    requires |TurnsPlayed(After(config, actions).turns, p)| >= config.roundsCap
    ensures var before, after := After(config, actions).turns, After(config, actions + more).turns;
            |before| <= |after| && forall i :: |before| <= i < |after| ==> after[i].speaker != p && after[i].guesser != p
    ensures config.roundsCap >= 0 ==> |TurnsPlayed(After(config, actions + more).turns, p)| == config.roundsCap
  {
    TalliesMean(config, After(config, actions).turns, p);
    TalliesMean(config, After(config, actions + more).turns, p);
    NewTurnsInRun(config, actions, more, p);
    RunExtends(config, actions, more);
    RoundsGrow(After(config, actions).turns, After(config, actions + more).turns, p);
    RunKeepsInv(config, actions + more);
    assert CapOk(config, After(config, actions + more));
  }
}
