/**
 The partner that the single-pass loop picks, compared with what matchmaking is meant to do and
 with the two-key ordering of the SQL store (app/game/memory_store.py, app/game/pg_store.py).
 */
module Matchmaking {
  import opened Wrappers
  import opened Records
  import opened Sequences
  import opened Sorting
  import opened Game
  import opened GameInvariant
  import opened GameProofs

  /** Waiting, not expired, not the requester, and compatible: the rows of the SQL candidate query. */
  predicate Fits(players: seq<Player>, queue: seq<Entry>, cutoff: int, me: PlayerId, e: Entry) {
    e in queue && e.player != me && e.since >= cutoff && Compatible(players, me, e.player)
  }

  /** ORDER BY previously_paired ASC, enqueued_at ASC. */
  predicate SqlBefore(pairs: seq<Pair>, me: PlayerId, a: Entry, b: Entry) {
    var oldA, oldB := PreviouslyPaired(pairs, me, a.player), PreviouslyPaired(pairs, me, b.player);
    if oldA != oldB then !oldA else a.since <= b.since
  }

  /** A row that `LIMIT 1` may return. */
  ghost predicate SqlPartner(players: seq<Player>, pairs: seq<Pair>, queue: seq<Entry>, cutoff: int, me: PlayerId, e: Entry) {
    Fits(players, queue, cutoff, me, e)
    && forall other :: Fits(players, queue, cutoff, me, other) ==> SqlBefore(pairs, me, e, other)
  }

  lemma CandidateIsActive(queue: seq<Entry>, cutoff: int, me: PlayerId, e: Entry)
    ensures e in Candidates(queue, cutoff, me) <==> e in queue && e.player != me && e.since >= cutoff
  {
    var active := Filter(queue, ActiveOther(cutoff, me));
    SortSorts(active, Earlier);
    SameElements(active, Candidates(queue, cutoff, me), e);
    InFilter(queue, ActiveOther(cutoff, me), e);
  }

  lemma SamePlayerSameEntry(queue: seq<Entry>, a: Entry, b: Entry)
    requires Distinct(queue) && a in queue && b in queue && a.player == b.player
    ensures a == b
  {
  }

  lemma AlternateIsAnotherFit(players: seq<Player>, queue: seq<Entry>, cutoff: int, me: PlayerId, e: Entry)
    requires Distinct(queue) && e in queue
    ensures HasAlternate(players, queue, cutoff, me, e.player) <==> exists other :: Fits(players, queue, cutoff, me, other) && other != e
  {
    if HasAlternate(players, queue, cutoff, me, e.player) {
      var i :| 0 <= i < |queue| && queue[i].player != e.player && ActiveOther(cutoff, me)(queue[i])
               && Compatible(players, me, queue[i].player);
      assert Fits(players, queue, cutoff, me, queue[i]) && queue[i] != e;
    }
    if other :| Fits(players, queue, cutoff, me, other) && other != e {
      if other.player == e.player {
        SamePlayerSameEntry(queue, other, e);
      }
      var i :| 0 <= i < |queue| && queue[i] == other;
      assert HasAlternate(players, queue, cutoff, me, e.player);
    }
  }

  /** Everything before the pick was refused, and it is ordered before everything after it. */
  lemma PartnerIsFirst(players: seq<Player>, pairs: seq<Pair>, queue: seq<Entry>, cutoff: int, me: PlayerId)
    requires Distinct(queue)
    ensures var pick := Partner(players, pairs, queue, cutoff, me);
            && (pick.Some? ==>
                 && Fits(players, queue, cutoff, me, pick.value) && Acceptable(players, pairs, queue, cutoff, me)(pick.value)
                 && forall e :: Fits(players, queue, cutoff, me, e) && Acceptable(players, pairs, queue, cutoff, me)(e) ==>
                      pick.value.since <= e.since)
            && (pick.None? ==> forall e :: Fits(players, queue, cutoff, me, e) ==> !Acceptable(players, pairs, queue, cutoff, me)(e))
  {
    var accept := Acceptable(players, pairs, queue, cutoff, me);
    var candidates := Candidates(queue, cutoff, me);
    var pick := Partner(players, pairs, queue, cutoff, me);
    FirstFinds(candidates, accept);
    SortSorts(Filter(queue, ActiveOther(cutoff, me)), Earlier);
    assert Ordered(candidates, Earlier);
    hide Sort, Filter, First, Candidates, PreviouslyPaired, HasAlternate;
    if pick.Some? {
      CandidateIsActive(queue, cutoff, me, pick.value);
    }
    forall e | Fits(players, queue, cutoff, me, e) && accept(e)
      ensures pick.Some? && pick.value.since <= e.since
    {
      CandidateIsActive(queue, cutoff, me, e);
      var k :| 0 <= k < |candidates| && candidates[k] == e;
      assert accept(candidates[k]);
      var i :| 0 <= i < |candidates| && candidates[i] == pick.value && forall j :: 0 <= j < i ==> !accept(candidates[j]);
      assert i <= k;
      assert i < k ==> Earlier(candidates[i], candidates[k]);
    }
  }

  ghost predicate SomeFreshFit(players: seq<Player>, pairs: seq<Pair>, queue: seq<Entry>, cutoff: int, me: PlayerId) {
    exists e :: Fits(players, queue, cutoff, me, e) && !PreviouslyPaired(pairs, me, e.player)
  }

  ghost predicate TwoFits(players: seq<Player>, queue: seq<Entry>, cutoff: int, me: PlayerId) {
    exists a, b :: Fits(players, queue, cutoff, me, a) && Fits(players, queue, cutoff, me, b) && a != b
  }

  lemma AcceptableMeans(players: seq<Player>, pairs: seq<Pair>, queue: seq<Entry>, cutoff: int, me: PlayerId, e: Entry)
    requires Distinct(queue) && Fits(players, queue, cutoff, me, e)
    ensures Acceptable(players, pairs, queue, cutoff, me)(e) <==>
            !PreviouslyPaired(pairs, me, e.player) || !TwoFits(players, queue, cutoff, me)
  {
    AlternateIsAnotherFit(players, queue, cutoff, me, e);
    if a, b :| Fits(players, queue, cutoff, me, a) && Fits(players, queue, cutoff, me, b) && a != b {
      assert a != e || b != e;
    }
  }

  /**
   The earliest partner never met before whenever there is one; failing that, a former partner
   only if nobody else is compatible.
   */
  lemma PicksEarliestFresh(players: seq<Player>, pairs: seq<Pair>, queue: seq<Entry>, cutoff: int, me: PlayerId)
    requires Distinct(queue)
    ensures var pick := Partner(players, pairs, queue, cutoff, me);
            && (SomeFreshFit(players, pairs, queue, cutoff, me) ==>
                  && pick.Some? && Fits(players, queue, cutoff, me, pick.value)
                  && !PreviouslyPaired(pairs, me, pick.value.player)
                  && forall e :: Fits(players, queue, cutoff, me, e) && !PreviouslyPaired(pairs, me, e.player) ==>
                       pick.value.since <= e.since)
            && (!SomeFreshFit(players, pairs, queue, cutoff, me) && pick.Some? ==>
                  forall e :: Fits(players, queue, cutoff, me, e) <==> e == pick.value)
  {
    var pick := Partner(players, pairs, queue, cutoff, me);
    PartnerIsFirst(players, pairs, queue, cutoff, me);
    forall e | Fits(players, queue, cutoff, me, e)
      ensures Acceptable(players, pairs, queue, cutoff, me)(e) <==>
              !PreviouslyPaired(pairs, me, e.player) || !TwoFits(players, queue, cutoff, me)
    {
      AcceptableMeans(players, pairs, queue, cutoff, me, e);
    }
    hide Partner, Acceptable, Fits;
    if SomeFreshFit(players, pairs, queue, cutoff, me) {
      var fresher :| Fits(players, queue, cutoff, me, fresher) && !PreviouslyPaired(pairs, me, fresher.player);
      assert Acceptable(players, pairs, queue, cutoff, me)(fresher);
      assert pick.value != fresher ==> TwoFits(players, queue, cutoff, me);
    }
  }

  /** The loop gives up exactly when nobody fits, or several do and all are former partners. */
  lemma NoPartnerMeans(players: seq<Player>, pairs: seq<Pair>, queue: seq<Entry>, cutoff: int, me: PlayerId)
    requires Distinct(queue)
    ensures Partner(players, pairs, queue, cutoff, me).None? <==>
            || (forall e :: !Fits(players, queue, cutoff, me, e))
            || (TwoFits(players, queue, cutoff, me) && !SomeFreshFit(players, pairs, queue, cutoff, me))
  {
    PartnerIsFirst(players, pairs, queue, cutoff, me);
    forall e | Fits(players, queue, cutoff, me, e)
      ensures Acceptable(players, pairs, queue, cutoff, me)(e) <==>
              !PreviouslyPaired(pairs, me, e.player) || !TwoFits(players, queue, cutoff, me)
    {
      AcceptableMeans(players, pairs, queue, cutoff, me, e);
    }
    hide Partner, Acceptable, Fits;
  }

  /**
   The two stores agree whenever the loop picks anyone, and they part exactly when several
   players fit and all are former partners: the query then returns one, the loop none.
   */
  lemma AgreesWithSql(players: seq<Player>, pairs: seq<Pair>, queue: seq<Entry>, cutoff: int, me: PlayerId)
    requires Distinct(queue)
    ensures var pick := Partner(players, pairs, queue, cutoff, me);
            && (pick.Some? ==> SqlPartner(players, pairs, queue, cutoff, me, pick.value))
            && (pick.None? && (exists e :: SqlPartner(players, pairs, queue, cutoff, me, e)) <==>
                TwoFits(players, queue, cutoff, me) && !SomeFreshFit(players, pairs, queue, cutoff, me))
  {
    PicksEarliestFresh(players, pairs, queue, cutoff, me);
    NoPartnerMeans(players, pairs, queue, cutoff, me);
    var pick := Partner(players, pairs, queue, cutoff, me);
    PartnerIsFirst(players, pairs, queue, cutoff, me);
    if TwoFits(players, queue, cutoff, me) && !SomeFreshFit(players, pairs, queue, cutoff, me) {
      var e := EarliestFit(players, queue, cutoff, me, queue);
      forall other | Fits(players, queue, cutoff, me, other) ensures SqlBefore(pairs, me, e, other) {
      }
      assert SqlPartner(players, pairs, queue, cutoff, me, e);
    }
  }

  lemma {:induction false} EarliestFit(players: seq<Player>, queue: seq<Entry>, cutoff: int, me: PlayerId, part: seq<Entry>) returns (e: Entry)
    requires exists x :: x in part && Fits(players, queue, cutoff, me, x)
    ensures Fits(players, queue, cutoff, me, e)
    ensures forall x :: x in part && Fits(players, queue, cutoff, me, x) ==> e.since <= x.since
  {
    var front, last := part[..|part| - 1], part[|part| - 1];
    assert part == front + [last];
    if exists x :: x in front && Fits(players, queue, cutoff, me, x) {
      e := EarliestFit(players, queue, cutoff, me, front);
      if Fits(players, queue, cutoff, me, last) && last.since < e.since {
        e := last;
      }
    } else {
      e := last;
    }
  }

  // ------------------------------------------------------------------ whole runs

  /** Two different players who may both be matched have never been paired: a pair closes only at the cap. */
  lemma NeverMetBefore(config: Config, g: Game, a: PlayerId, b: PlayerId)
    requires Inv(config, g) && Free(config, g, a) && Free(config, g, b) && a != b
    ensures !PreviouslyPaired(g.pairs, a, b)
  {
    hide Rounds, Seated, JobsOk, TurnsOk, Compatible;
    forall i | 0 <= i < |g.pairs| ensures !(Member(g.pairs[i], a) && Member(g.pairs[i], b)) {
      assert g.pairs[i].active || AtCap(config, g, g.pairs[i]);
    }
  }

  lemma MayAsk(config: Config, g: Game, me: PlayerId)
    requires Inv(config, g) && Rounds(g.turns, me) < config.roundsCap && ActivePair(g.pairs, me).None?
    ensures Free(config, g, me)
  {
    hide Rounds, Seated, JobsOk, TurnsOk, ActivePair;
    ActivePairFinds(g, me);
  }

  /** The queue in which a request looks for a partner. */
  function AskedQueue(config: Config, g: Game, me: PlayerId, now: int): seq<Entry> {
    EvictStale(Refresh(Refresh(g.queue, me, now), me, now), now - config.queueTtl, me)
  }

  /** In a reachable state nobody in that queue has met the requester. */
  lemma AskedQueueIsFresh(config: Config, g: Game, me: PlayerId, now: int)
    requires Inv(config, g) && me < |g.players| && Free(config, g, me)
    ensures Distinct(AskedQueue(config, g, me, now))
    ensures forall e :: e in AskedQueue(config, g, me, now) && e.player != me ==>
              e in g.queue && !PreviouslyPaired(g.pairs, me, e.player)
  {
    hide PreviouslyPaired, Free, EvictStale, Refresh, Rounds, Seated, JobsOk, TurnsOk, Compatible;
    var once := Refresh(g.queue, me, now);
    RefreshDistinct(g.queue, me, now);
    WaitersOk(once, me, now, now - config.queueTtl);
    forall e | e in AskedQueue(config, g, me, now) && e.player != me ensures e in g.queue && !PreviouslyPaired(g.pairs, me, e.player) {
      assert Free(config, g, e.player);
      NeverMetBefore(config, g, me, e.player);
    }
  }

  /** Somebody is picked exactly when anybody fits: the longest-waiting fit, which the query may return too. */
  ghost predicate PicksOldestFit(players: seq<Player>, pairs: seq<Pair>, queue: seq<Entry>, cutoff: int, me: PlayerId) {
    var pick := Partner(players, pairs, queue, cutoff, me);
    && (pick.None? <==> forall e :: !Fits(players, queue, cutoff, me, e))
    && (pick.Some? ==>
          && SqlPartner(players, pairs, queue, cutoff, me, pick.value)
          && !PreviouslyPaired(pairs, me, pick.value.player)
          && forall e :: Fits(players, queue, cutoff, me, e) ==> pick.value.since <= e.since)
  }

  lemma FreshQueueChoice(players: seq<Player>, pairs: seq<Pair>, queue: seq<Entry>, cutoff: int, me: PlayerId)
    requires Distinct(queue) && forall e :: e in queue && e.player != me ==> !PreviouslyPaired(pairs, me, e.player)
    ensures PicksOldestFit(players, pairs, queue, cutoff, me)
  {
    PicksEarliestFresh(players, pairs, queue, cutoff, me);
    NoPartnerMeans(players, pairs, queue, cutoff, me);
    AgreesWithSql(players, pairs, queue, cutoff, me);
    assert forall e :: Fits(players, queue, cutoff, me, e) ==> !PreviouslyPaired(pairs, me, e.player);
    hide Partner, PreviouslyPaired, Fits, SqlPartner;
  }

  /**
   After any sequence of requests, whoever may ask for a partner is given one whenever anybody
   fits: the longest-waiting fit, which is what the SQL query returns.  Otherwise they wait.
   */
  lemma MatchesWheneverSomeoneFits(config: Config, actions: seq<Action>, me: PlayerId, now: int, card: Option<nat>, tie: nat)
    requires me < |After(config, actions).players|
    requires Rounds(After(config, actions).turns, me) < config.roundsCap
    requires ActivePair(After(config, actions).pairs, me).None?
    ensures var g := After(config, actions);
            var queue, cutoff := AskedQueue(config, g, me, now), now - config.queueTtl;
            var pick := Partner(g.players, g.pairs, queue, cutoff, me);
            var (after, reply) := RequestPair(config, g, me, now, card, tie);
            && PicksOldestFit(g.players, g.pairs, queue, cutoff, me)
            && reply == Ok(if pick.Some? then Matched else Queued)
            && (pick.Some? ==> |after.pairs| == |g.pairs| + 1 && g.pairs <= after.pairs && after.pairs[|g.pairs|].active
                               && Member(after.pairs[|g.pairs|], me) && Member(after.pairs[|g.pairs|], pick.value.player))
            && (pick.None? ==> after.pairs == g.pairs)
  {
    hide *;
    RunKeepsInv(config, actions);
    var g := After(config, actions);
    var queue, cutoff := AskedQueue(config, g, me, now), now - config.queueTtl;
    MayAsk(config, g, me);
    AskedQueueIsFresh(config, g, me, now);
    FreshQueueChoice(g.players, g.pairs, queue, cutoff, me);
    RequestPairEffect(config, g, me, now, card, tie);
  }

  lemma RequestPairEffect(config: Config, g: Game, me: PlayerId, now: int, card: Option<nat>, tie: nat)
    requires Rounds(g.turns, me) < config.roundsCap && ActivePair(g.pairs, me).None?
    ensures var pick := Partner(g.players, g.pairs, AskedQueue(config, g, me, now), now - config.queueTtl, me);
            var (after, reply) := RequestPair(config, g, me, now, card, tie);
            && reply == Ok(if pick.Some? then Matched else Queued)
            && (pick.Some? ==> |after.pairs| == |g.pairs| + 1 && g.pairs <= after.pairs && after.pairs[|g.pairs|].active
                               && Member(after.pairs[|g.pairs|], me) && Member(after.pairs[|g.pairs|], pick.value.player))
            && (pick.None? ==> after.pairs == g.pairs)
  {
    hide Partner, ActivePair, Refresh, EvictStale, Rounds, Leave;
  }

  // ------------------------------------------------------------ in plain terms

  /** Different mother tongues, and a language that each has as mother tongue or knows besides. */
  ghost predicate CanTalk(a: Player, b: Player) {
    && a.native != b.native
    && exists lang :: (lang == a.native || lang in a.common) && (lang == b.native || lang in b.common)
  }

  lemma CompatibleMeans(players: seq<Player>, a: PlayerId, b: PlayerId)
    ensures Compatible(players, a, b) <==> a < |players| && b < |players| && CanTalk(players[a], players[b])
  {
    if a < |players| && b < |players| {
      var mine, theirs := Speakable(players[a]), Speakable(players[b]);
      if lang :| lang in mine * theirs {
        assert (lang == players[a].native || lang in players[a].common) && (lang == players[b].native || lang in players[b].common);
      }
      if lang :| (lang == players[a].native || lang in players[a].common) && (lang == players[b].native || lang in players[b].common) {
        assert lang in mine * theirs;
      }
    }
  }

  /** Somebody else who is waiting, not expired, and can talk to the requester. */
  ghost predicate Awaits(config: Config, g: Game, me: PlayerId, now: int, e: Entry) {
    && e in g.queue && e.player != me && e.since >= now - config.queueTtl
    && me < |g.players| && e.player < |g.players| && CanTalk(g.players[me], g.players[e.player])
  }

  lemma AwaitsIsFit(config: Config, g: Game, me: PlayerId, now: int, e: Entry)
    requires Inv(config, g)
    ensures Fits(g.players, AskedQueue(config, g, me, now), now - config.queueTtl, me, e) <==> Awaits(config, g, me, now, e)
  {
    hide Inv, CanTalk, Compatible, Refresh, EvictStale, Filter;
    AskedQueueHolds(config, g, me, now, e);
    CompatibleMeans(g.players, me, e.player);
  }

  lemma AskedQueueHolds(config: Config, g: Game, me: PlayerId, now: int, e: Entry)
    requires Inv(config, g)
    ensures e in AskedQueue(config, g, me, now) <==>
            e == Entry(me, now) || (e in g.queue && e.player != me && e.since >= now - config.queueTtl)
    ensures Distinct(AskedQueue(config, g, me, now))
  {
    assert Distinct(g.queue);
    hide Inv, EvictStale, Refresh;
    var once := Refresh(g.queue, me, now);
    RefreshDistinct(g.queue, me, now);
    if e.player != me {
      RefreshHolds(g.queue, me, now, e);
    }
    WaitersOk(once, me, now, now - config.queueTtl);
  }

  lemma {:induction false} RefreshHolds(queue: seq<Entry>, me: PlayerId, now: int, e: Entry)
    requires Distinct(queue) && e.player != me
    ensures e in Refresh(queue, me, now) <==> e in queue
  {
    if queue != [] && queue[0].player != me {
      RefreshHolds(queue[1..], me, now, e);
    }
  }

  /** The pair is new and active, whoever waited longer is `player_a` and speaks first, and both left the queue. */
  ghost predicate PairedWith(config: Config, g: Game, after: Game, me: PlayerId, e: Entry, now: int, card: Option<nat>) {
    var first, second := if now <= e.since then me else e.player, if now <= e.since then e.player else me;
    && after.pairs == g.pairs + [Pair(|g.pairs|, first, second, true, now)]
    && (forall x :: x in after.queue <==> x in g.queue && x.player != me && x.player != e.player && x.since >= now - config.queueTtl)
    && (card.None? ==> after.turns == g.turns)
    && (card.Some? ==>
          && |after.turns| == |g.turns| + 1 && g.turns <= after.turns
          && var t := after.turns[|g.turns|];
             t.pair == |g.pairs| && t.speaker == first && t.guesser == second && t.card == card.value && t.created == now
             && t.status == AwaitingAudio && t.attempts == 0 && !t.audio && !t.quality)
  }

  ghost predicate LeftWaiting(config: Config, g: Game, after: Game, me: PlayerId, now: int) {
    && after.pairs == g.pairs && after.turns == g.turns
    && forall x :: x in after.queue <==> x == Entry(me, now) || (x in g.queue && x.player != me && x.since >= now - config.queueTtl)
  }

  lemma PairUpMeans(config: Config, g: Game, queue: seq<Entry>, me: PlayerId, e: Entry, now: int, card: Option<nat>, tie: nat)
    requires Distinct(queue) && e.player != me
    requires forall x :: x in queue <==> x == Entry(me, now) || (x in g.queue && x.player != me && x.since >= now - config.queueTtl)
    ensures PairedWith(config, g, PairUp(g.(queue := queue), Entry(me, now), e, now, card, tie), me, e, now, card)
  {
    hide Leave;
    LeaveBoth(queue, me, e.player);
  }

  lemma RequestPairIs(config: Config, g: Game, me: PlayerId, now: int, card: Option<nat>, tie: nat)
    requires Rounds(g.turns, me) < config.roundsCap && ActivePair(g.pairs, me).None?
    ensures var queue := AskedQueue(config, g, me, now);
            var pick := Partner(g.players, g.pairs, queue, now - config.queueTtl, me);
            RequestPair(config, g, me, now, card, tie) ==
            match pick
            case None => (g.(queue := queue), Ok(Queued))
            case Some(e) => (PairUp(g.(queue := queue), Entry(me, now), e, now, card, tie), Ok(Matched))
  {
    hide Partner, ActivePair, Refresh, EvictStale, Rounds, Leave;
  }

  /**
   After any sequence of requests, a player who may ask is matched if and only if somebody waits, not
   expired, with a different mother tongue and a language both can use; then with the one who waited
   longest.  Otherwise the player waits.
   */
  lemma MatchedExactlyWhen(config: Config, actions: seq<Action>, me: PlayerId, now: int, card: Option<nat>, tie: nat)
    requires me < |After(config, actions).players|
    requires Rounds(After(config, actions).turns, me) < config.roundsCap
    requires ActivePair(After(config, actions).pairs, me).None?
    ensures var g := After(config, actions);
            var (after, reply) := RequestPair(config, g, me, now, card, tie);
            if exists e :: Awaits(config, g, me, now, e) then
              && reply == Ok(Matched)
              && exists e :: Awaits(config, g, me, now, e) && PairedWith(config, g, after, me, e, now, card)
                             && forall other :: Awaits(config, g, me, now, other) ==> e.since <= other.since
            else reply == Ok(Queued) && LeftWaiting(config, g, after, me, now)
  {
    hide *;
    RunKeepsInv(config, actions);
    var g := After(config, actions);
    var queue, cutoff := AskedQueue(config, g, me, now), now - config.queueTtl;
    MayAsk(config, g, me);
    AskedQueueIsFresh(config, g, me, now);
    FreshQueueChoice(g.players, g.pairs, queue, cutoff, me);
    RequestPairIs(config, g, me, now, card, tie);
    forall e ensures Fits(g.players, queue, cutoff, me, e) <==> Awaits(config, g, me, now, e) {
      AwaitsIsFit(config, g, me, now, e);
    }
    ChoiceMeans(config, g, me, now, card, tie);
  }

  lemma ChoiceMeans(config: Config, g: Game, me: PlayerId, now: int, card: Option<nat>, tie: nat)
    requires Inv(config, g)
    requires var queue, cutoff := AskedQueue(config, g, me, now), now - config.queueTtl;
             && PicksOldestFit(g.players, g.pairs, queue, cutoff, me)
             && forall e :: Fits(g.players, queue, cutoff, me, e) <==> Awaits(config, g, me, now, e)
    ensures var queue := AskedQueue(config, g, me, now);
            var pick := Partner(g.players, g.pairs, queue, now - config.queueTtl, me);
            match pick
            case None => (forall e :: !Awaits(config, g, me, now, e)) && LeftWaiting(config, g, g.(queue := queue), me, now)
            case Some(e) =>
              && Awaits(config, g, me, now, e) && (forall other :: Awaits(config, g, me, now, other) ==> e.since <= other.since)
              && PairedWith(config, g, PairUp(g.(queue := queue), Entry(me, now), e, now, card, tie), me, e, now, card)
  {
    hide Inv, Partner, PairUp, PairedWith, CanTalk, AskedQueue, Fits, PreviouslyPaired;
    var queue := AskedQueue(config, g, me, now);
    var pick := Partner(g.players, g.pairs, queue, now - config.queueTtl, me);
    forall x ensures x in queue <==> x == Entry(me, now) || (x in g.queue && x.player != me && x.since >= now - config.queueTtl) {
      AskedQueueHolds(config, g, me, now, x);
    }
    AskedQueueHolds(config, g, me, now, Entry(me, now));
    if pick.Some? {
      PairUpMeans(config, g, queue, me, pick.value, now, card, tie);
    }
  }

  /** The members of every pair ever made can talk to each other. */
  lemma PairsCanTalk(config: Config, actions: seq<Action>, i: nat)
    requires i < |After(config, actions).pairs|
    ensures var g := After(config, actions);
            var pair := g.pairs[i];
            pair.playerA < |g.players| && pair.playerB < |g.players| && CanTalk(g.players[pair.playerA], g.players[pair.playerB])
  {
    RunKeepsInv(config, actions);
    var g := After(config, actions);
    hide After, CanTalk, Rounds, Seated, JobsOk, TurnsOk;
    CompatibleMeans(g.players, g.pairs[i].playerA, g.pairs[i].playerB);
  }

  /** No two pairs ever made have the same two members. */
  ghost predicate MetOnce(pairs: seq<Pair>) {
    forall i, j :: 0 <= i < j < |pairs| ==> !(Member(pairs[i], pairs[j].playerA) && Member(pairs[i], pairs[j].playerB))
  }

  lemma RequestKeepsMetOnce(config: Config, g: Game, me: PlayerId, now: int, card: Option<nat>, tie: nat)
    requires Inv(config, g) && MetOnce(g.pairs) && me < |g.players|
    ensures MetOnce(RequestPair(config, g, me, now, card, tie).0.pairs)
  {
    hide Inv, Partner, AskedQueue, ActivePair, Rounds, Free, TryMatch;
    if Rounds(g.turns, me) < config.roundsCap && ActivePair(g.pairs, me).None? {
      var pick := Partner(g.players, g.pairs, AskedQueue(config, g, me, now), now - config.queueTtl, me);
      MayAsk(config, g, me);
      AskedQueueIsFresh(config, g, me, now);
      PartnerIsCandidate(g.players, g.pairs, AskedQueue(config, g, me, now), now - config.queueTtl, me);
      RequestPairEffect(config, g, me, now, card, tie);
      hide RequestPair;
      if pick.Some? {
        assert !PreviouslyPaired(g.pairs, me, pick.value.player);
      }
    }
  }

  lemma GuessKeepsMetOnce(config: Config, g: Game, me: PlayerId, option: nat, now: int, card: Option<nat>, tie: nat)
    requires MetOnce(g.pairs)
    ensures MetOnce(Guess(config, g, me, option, now, card, tie).0.pairs)
  {
    hide ActivePair, LatestTurn, Capped, Enqueue, ApplyGuess;
  }

  /** Two players are paired at most once in any run. */
  lemma {:induction false} NobodyMeetsTwice(config: Config, actions: seq<Action>)
    ensures MetOnce(After(config, actions).pairs)
  {
    if actions != [] {
      var before, last := After(config, actions[..|actions| - 1]), actions[|actions| - 1];
      NobodyMeetsTwice(config, actions[..|actions| - 1]);
      RunKeepsInv(config, actions[..|actions| - 1]);
      hide Inv, MetOnce, RequestPair, Guess, SpeakerTurn;
      match last
      case AskForPair(me, now, card, tie) =>
        if me < |before.players| {
          RequestKeepsMetOnce(config, before, me, now, card, tie);
        }
      case Answer(me, option, now, card, tie) => GuessKeepsMetOnce(config, before, me, option, now, card, tie);
      case _ =>
    }
  }
}
