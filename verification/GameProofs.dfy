/** Every request keeps the game's invariant, so every run does. */
module GameProofs {
  import opened Wrappers
  import opened Records
  import opened Sequences
  import opened Sorting
  import opened Game
  import opened GameInvariant
  import Tables = World

  // ------------------------------------------------------------------- joining

  lemma JoinKeeps(config: Config, g: Game, newcomer: Player)
    requires Inv(config, g) && NicknameFree(g.players, newcomer.nickname)
    ensures Inv(config, g.(players := g.players + [newcomer]))
  {
    var after := g.(players := g.players + [newcomer]);
    hide Rounds, Count, TurnOk, Roles;
    assert PairsOk(after) by {
      forall i | 0 <= i < |after.pairs| ensures Compatible(after.players, after.pairs[i].playerA, after.pairs[i].playerB) {
        assert Compatible(g.players, g.pairs[i].playerA, g.pairs[i].playerB);
      }
    }
    assert Seated(after) by {
      SeatedPairs(g, after);
    }
    assert QueueFree(config, after) by {
      forall e | e in after.queue ensures Free(config, after, e.player) {
        assert Free(config, g, e.player);
      }
    }
    assert ClosedOk(config, after) by {
      forall i | 0 <= i < |after.pairs| && !after.pairs[i].active ensures AtCap(config, after, after.pairs[i]) {
        assert AtCap(config, g, g.pairs[i]);
      }
    }
    assert PairsBelow(config, after, None) by {
      forall i | 0 <= i < |after.pairs| && after.pairs[i].active ensures Below(config, after, after.pairs[i]) {
        assert Below(config, g, g.pairs[i]);
      }
    }
  }

  // ------------------------------------------------------------------ the queue

  /** The queue may hold anyone who was in it, and a known free player. */
  lemma QueueKeeps(config: Config, g: Game, queue: seq<Entry>, me: PlayerId)
    requires Inv(config, g) && Distinct(queue) && me < |g.players| && Free(config, g, me)
    requires forall e :: e in queue ==> e.player == me || e in g.queue
    ensures Inv(config, g.(queue := queue))
  {
    var after := g.(queue := queue);
    hide Rounds, Count, TurnOk, Roles, Compatible;
    assert QueueFree(config, after) by {
      forall e | e in after.queue ensures Free(config, after, e.player) {
        assert Free(config, g, e.player);
      }
    }
    assert ClosedOk(config, after) by {
      forall i | 0 <= i < |after.pairs| && !after.pairs[i].active ensures AtCap(config, after, after.pairs[i]) {
        assert AtCap(config, g, g.pairs[i]);
      }
    }
    assert PairsBelow(config, after, None) by {
      forall i | 0 <= i < |after.pairs| && after.pairs[i].active ensures Below(config, after, after.pairs[i]) {
        assert Below(config, g, g.pairs[i]);
      }
    }
    assert Seated(after) by {
      SeatedPairs(g, after);
    }
  }

  /** Refreshing and evicting: what `try_match` leaves waiting. */
  function Waiters(queue: seq<Entry>, me: PlayerId, now: int, cutoff: int): seq<Entry> {
    EvictStale(Refresh(queue, me, now), cutoff, me)
  }

  lemma WaitersOk(queue: seq<Entry>, me: PlayerId, now: int, cutoff: int)
    requires Distinct(queue)
    ensures Distinct(Waiters(queue, me, now, cutoff))
    ensures forall e :: e in Waiters(queue, me, now, cutoff) <==>
              e == Entry(me, now) || (e in queue && e.player != me && e.since >= cutoff)
  {
    var renewed := Refresh(queue, me, now);
    RefreshDistinct(queue, me, now);
    FilterDistinct(renewed, Unexpired(cutoff, me));
    forall e ensures e in Waiters(queue, me, now, cutoff) <==>
                     e == Entry(me, now) || (e in queue && e.player != me && e.since >= cutoff)
    {
      InFilter(renewed, Unexpired(cutoff, me), e);
      if e in queue && e.player != me {
        RefreshKeeps(queue, me, now, e);
      }
    }
  }

  lemma {:induction false} RefreshKeeps(queue: seq<Entry>, me: PlayerId, now: int, e: Entry)
    requires e in queue && e.player != me
    ensures e in Refresh(queue, me, now)
  {
    if queue[0].player == me || queue[0] == e {
      assert e in queue[1..] || e == queue[0];
    } else {
      RefreshKeeps(queue[1..], me, now, e);
    }
  }

  // --------------------------------------------------------------- making a pair

  function Paired(g: Game, a: PlayerId, b: PlayerId, queue: seq<Entry>, now: int): Game {
    g.(pairs := g.pairs + [Pair(|g.pairs|, a, b, true, now)], queue := queue)
  }

  lemma PairKeeps(config: Config, g: Game, a: PlayerId, b: PlayerId, queue: seq<Entry>, now: int)
    requires Inv(config, g) && Compatible(g.players, a, b) && Free(config, g, a) && Free(config, g, b)
    requires Distinct(queue) && forall e :: e in queue ==> e in g.queue && e.player != a && e.player != b
    ensures Inv(config, Paired(g, a, b, queue, now))
    ensures Count(g.turns, OfPair(|g.pairs|)) == 0
  {
    var after := Paired(g, a, b, queue, now);
    assert a != b;
    CountNone(g.turns, OfPair(|g.pairs|));
    hide Rounds, Count, TurnOk, Roles, Compatible;
    assert ClosedOk(config, after) by {
      forall i | 0 <= i < |after.pairs| && !after.pairs[i].active ensures AtCap(config, after, after.pairs[i]) {
        assert AtCap(config, g, g.pairs[i]);
      }
    }
    assert PairsBelow(config, after, None) by {
      forall i | 0 <= i < |after.pairs| && after.pairs[i].active ensures Below(config, after, after.pairs[i]) {
        assert i < |g.pairs| ==> Below(config, g, g.pairs[i]);
      }
    }
    assert QueueFree(config, after) by {
      forall e | e in after.queue ensures Free(config, after, e.player) {
        assert Free(config, g, e.player);
      }
    }
    assert Seated(after) by {
      SeatedPairs(g, after);
    }
    assert OneActive(after) by {
      forall i, j | 0 <= i < j < |after.pairs| && after.pairs[i].active && after.pairs[j].active
        ensures Apart(after.pairs[i], after.pairs[j])
      {
        assert j < |g.pairs| ==> Apart(g.pairs[i], g.pairs[j]);
      }
    }
  }

  /** Jobs read the audio of a turn, and whether it is scored with its quality stored. */
  lemma JobsCarry(g: Game, after: Game)
    requires JobsOk(g) && after.jobs == g.jobs && |g.turns| <= |after.turns|
    requires forall i :: 0 <= i < |g.turns| ==>
               && after.turns[i].audio == g.turns[i].audio
               && (g.turns[i].status.Scored? && g.turns[i].quality ==> after.turns[i].status.Scored? && after.turns[i].quality)
    requires forall i :: |g.turns| <= i < |after.turns| ==> !after.turns[i].audio
    ensures JobsOk(after)
  {
  }

  lemma OneOpenAppended(g: Game, after: Game, t: Turn)
    requires OneOpen(g) && after.turns == g.turns + [t] && after.pairs == g.pairs
    requires t.pair < |g.pairs| && g.pairs[t.pair].active
    requires forall i :: 0 <= i < |g.turns| && g.turns[i].pair == t.pair ==> g.turns[i].status.Scored?
    ensures OneOpen(after)
  {
  }

  /** The turns of a pair beside its open one are scored. */
  lemma OthersScored(g: Game, t: TurnId, i: TurnId)
    requires OneOpen(g) && t < |g.turns| && !g.turns[t].status.Scored?
    requires i < |g.turns| && i != t && g.turns[i].pair == g.turns[t].pair
    ensures g.turns[i].status.Scored?
  {
  }

  lemma OpenIsLast(g: Game, u: Turn)
    requires OneOpen(g) && Replaces(g, u) && !g.turns[u.id].status.Scored?
    ensures u.pair < |g.pairs| && g.pairs[u.pair].active
    ensures forall j :: u.id < j < |g.turns| ==> g.turns[j].pair != u.pair
  {
  }

  lemma OneOpenScored(g: Game, after: Game, u: Turn)
    requires OneOpen(g) && Replaces(g, u) && !g.turns[u.id].status.Scored? && u.status.Scored?
    requires after.turns == g.turns[u.id := u] && after.pairs == g.pairs
    ensures OneOpen(after)
    ensures forall i :: 0 <= i < |after.turns| && after.turns[i].pair == u.pair ==> after.turns[i].status.Scored?
  {
    forall i | 0 <= i < |after.turns| && after.turns[i].pair == u.pair ensures after.turns[i].status.Scored? {
      if i != u.id {
        OthersScored(g, u.id, i);
      }
    }
  }

  /** The next turn may be dealt once every turn of an active pair is scored. */
  lemma DealKeeps(config: Config, g: Game, pair: nat, speaker: PlayerId, guesser: PlayerId, card: Option<nat>, now: int, tie: nat)
    requires Inv(config, g) && pair < |g.pairs| && g.pairs[pair].active
    requires forall i :: 0 <= i < |g.turns| && g.turns[i].pair == pair ==> g.turns[i].status.Scored?
    requires (speaker, guesser) == Roles(g.pairs[pair], Count(g.turns, OfPair(pair)))
    ensures Inv(config, Deal(g, pair, speaker, guesser, card, now, tie))
  {
    hide Rounds, Count, Roles, Compatible, Seated, CapOk, PairsBelow, OneActive, QueueFree, ClosedOk, JobsOk, OneOpen;
    if card.Some? {
      var after := Deal(g, pair, speaker, guesser, card, now, tie);
      var t := after.turns[|g.turns|];
      assert after.turns == g.turns + [t];
      SeatedAppended(g, after, t);
      RoundsAppended(g.turns, t);
      SessionsCarry(config, g, after);
      CountAppend(g.turns, t, Won());
      JobsCarry(g, after);
      OneOpenAppended(g, after, t);
    }
  }

  // ------------------------------------------------------------- changing a turn

  function Replaced(g: Game, u: Turn, jobs: seq<Tables.JobKey>): Game
    requires u.id < |g.turns|
  {
    g.(turns := g.turns[u.id := u], jobs := jobs)
  }

  /** A turn may advance without being scored. */
  lemma ProgressKeeps(config: Config, g: Game, u: Turn, jobs: seq<Tables.JobKey>)
    requires Inv(config, g) && Replaces(g, u) && TurnOk(config, u)
    requires g.turns[u.id].status.Scored? == u.status.Scored? && g.turns[u.id].outcome == u.outcome
    requires JobsOk(Replaced(g, u, jobs))
    ensures Inv(config, Replaced(g, u, jobs))
  {
    hide Rounds, Count, TurnOk, Roles, Compatible, JobsOk, Seated, CapOk, PairsBelow, OneActive, QueueFree, ClosedOk;
    var after := Replaced(g, u, jobs);
    SeatedReplaced(g, after, u);
    RoundsUnchanged(g, u);
    SessionsCarry(config, g, after);
    CountUpdate(g.turns, u.id, u, Won());
  }

  /** What holds between scoring a turn and deciding whether its pair goes on. */
  ghost predicate Settling(config: Config, g: Game, pair: nat) {
    && NamesOk(g) && PairsOk(g) && TurnsOk(config, g) && Seated(g) && OneOpen(g) && QueueOk(g)
    && CapOk(config, g) && PairsBelow(config, g, Some(pair)) && OneActive(g) && QueueFree(config, g)
    && ClosedOk(config, g) && JobsOk(g) && CounterOk(g)
    && pair < |g.pairs| && g.pairs[pair].active
    && forall i :: 0 <= i < |g.turns| && g.turns[i].pair == pair ==> g.turns[i].status.Scored?
  }

  /** Scoring raises the count of the two members only, and they were below the cap. */
  lemma ScoringSessions(config: Config, g: Game, after: Game, u: Turn)
    requires PairsOk(g) && Seated(g) && CapOk(config, g) && PairsBelow(config, g, None) && OneActive(g) && QueueFree(config, g)
    requires ClosedOk(config, g)
    requires Replaces(g, u) && u.pair < |g.pairs| && g.pairs[u.pair].active
    requires !g.turns[u.id].status.Scored? && u.status.Scored?
    requires after.turns == g.turns[u.id := u] && after.pairs == g.pairs && after.queue == g.queue
    ensures CapOk(config, after) && PairsBelow(config, after, Some(u.pair)) && OneActive(after) && QueueFree(config, after)
    ensures ClosedOk(config, after)
  {
    var pair := g.pairs[u.pair];
    SeatsAreMembers(g, u.id);
    forall p: PlayerId ensures Rounds(after.turns, p) == Rounds(g.turns, p) + if Member(pair, p) then 1 else 0 {
      RoundsReplaced(g, u, p);
      assert Plays(g.turns[u.id], p) <==> Member(pair, p);
    }
    hide Rounds, Seated, Compatible;
    assert Below(config, g, pair);
    forall i | 0 <= i < |after.pairs| && !after.pairs[i].active ensures AtCap(config, after, after.pairs[i]) {
      assert AtCap(config, g, g.pairs[i]);
    }
    forall p: PlayerId ensures Rounds(after.turns, p) <= Cap(config) {
      assert Rounds(g.turns, p) <= Cap(config);
    }
    forall i | 0 <= i < |after.pairs| && after.pairs[i].active && i != u.pair ensures Below(config, after, after.pairs[i]) {
      assert Below(config, g, g.pairs[i]);
      assert i < u.pair ==> Apart(g.pairs[i], pair);
      assert u.pair < i ==> Apart(pair, g.pairs[i]);
    }
    forall e | e in after.queue ensures Free(config, after, e.player) {
      assert Free(config, g, e.player);
      assert !Member(pair, e.player);
    }
  }

  /** The guess written back and counted. */
  function Applied(g: Game, u: Turn): Game {
    g.(turns := SetTurn(g.turns, u), validated := g.validated + if u.outcome.Validated? then 1 else 0)
  }

  lemma ScoringRecords(config: Config, g: Game, u: Turn)
    requires TurnsOk(config, g) && CounterOk(g) && Replaces(g, u) && TurnOk(config, u)
    requires !g.turns[u.id].status.Scored? && u.status.Scored?
    ensures TurnsOk(config, Applied(g, u)) && CounterOk(Applied(g, u))
  {
    CountUpdate(g.turns, u.id, u, Won());
    assert TurnOk(config, g.turns[u.id]);
  }

  lemma ScoringSettles(config: Config, g: Game, u: Turn)
    requires Inv(config, g) && Replaces(g, u) && TurnOk(config, u)
    requires !g.turns[u.id].status.Scored? && u.status.Scored? && u.audio == g.turns[u.id].audio
    ensures Settling(config, Applied(g, u), u.pair)
    ensures Applied(g, u).turns == g.turns[u.id := u]
    ensures forall j :: u.id < j < |g.turns| ==> g.turns[j].pair != u.pair
  {
    var after := Applied(g, u);
    OpenIsLast(g, u);
    hide OneOpen, Seated, JobsOk, Rounds, Count, Compatible, CapOk, PairsBelow, OneActive, QueueFree, ClosedOk, TurnsOk, TurnOk, CounterOk;
    SeatedReplaced(g, after, u);
    ScoringSessions(config, g, after, u);
    ScoringRecords(config, g, u);
    JobsCarry(g, after);
    OneOpenScored(g, after, u);
  }

  lemma EnqueueKeeps(config: Config, g: Game, pair: nat, t: TurnId)
    requires Settling(config, g, pair) && t < |g.turns| && g.turns[t].status.Scored? && g.turns[t].quality
    ensures Settling(config, g.(jobs := Enqueue(g.jobs, Tables.JobKey(Tables.Package, t))), pair)
  {
    var after := g.(jobs := Enqueue(g.jobs, Tables.JobKey(Tables.Package, t)));
    SeatedPairs(g, after);
    SettlingSessions(config, g, after, pair);
    hide Rounds, Count, TurnOk, Roles, Compatible, Seated, CapOk, PairsBelow, OneActive, QueueFree, ClosedOk;
    assert JobsOk(after);
  }

  lemma SettlingSessions(config: Config, g: Game, after: Game, pair: nat)
    requires CapOk(config, g) && PairsBelow(config, g, Some(pair)) && OneActive(g) && QueueFree(config, g) && ClosedOk(config, g)
    requires after.turns == g.turns && after.pairs == g.pairs && after.queue == g.queue
    ensures CapOk(config, after) && PairsBelow(config, after, Some(pair)) && OneActive(after) && QueueFree(config, after)
    ensures ClosedOk(config, after)
  {
    hide Rounds;
    forall i | 0 <= i < |after.pairs| && !after.pairs[i].active ensures AtCap(config, after, after.pairs[i]) {
      assert AtCap(config, g, g.pairs[i]);
    }
    forall i | 0 <= i < |after.pairs| && after.pairs[i].active && i != pair ensures Below(config, after, after.pairs[i]) {
      assert Below(config, g, g.pairs[i]);
    }
    forall e | e in after.queue ensures Free(config, after, e.player) {
      assert Free(config, g, e.player);
    }
  }

  lemma CloseSessions(config: Config, g: Game, after: Game, pair: nat)
    requires PairsBelow(config, g, Some(pair)) && OneActive(g) && QueueFree(config, g) && ClosedOk(config, g)
    requires Capped(config, g, pair) && after == g.(pairs := Close(g.pairs, pair))
    ensures PairsBelow(config, after, None) && OneActive(after) && QueueFree(config, after) && ClosedOk(config, after)
  {
    hide Rounds;
    forall i | 0 <= i < |after.pairs| && !after.pairs[i].active ensures AtCap(config, after, after.pairs[i]) {
      assert i != pair ==> AtCap(config, g, g.pairs[i]);
    }
    forall i | 0 <= i < |after.pairs| && after.pairs[i].active ensures Below(config, after, after.pairs[i]) {
      assert Below(config, g, g.pairs[i]);
    }
    forall e | e in after.queue ensures Free(config, after, e.player) {
      assert Free(config, g, e.player);
    }
    forall i, j | 0 <= i < j < |after.pairs| && after.pairs[i].active && after.pairs[j].active
      ensures Apart(after.pairs[i], after.pairs[j])
    {
      assert Apart(g.pairs[i], g.pairs[j]);
    }
  }

  /** Closing the spared pair restores the invariant. */
  lemma CloseKeeps(config: Config, g: Game, pair: nat)
    requires Settling(config, g, pair) && Capped(config, g, pair)
    ensures Inv(config, g.(pairs := Close(g.pairs, pair)))
  {
    var after := g.(pairs := Close(g.pairs, pair));
    hide Rounds, Count, TurnOk, Roles, Compatible, Seated, JobsOk, PairsBelow, OneActive, QueueFree, ClosedOk;
    SeatedPairs(g, after);
    JobsCarry(g, after);
    CloseSessions(config, g, after, pair);
  }

  /** A pair that is not capped needs no closing. */
  lemma OpenKeeps(config: Config, g: Game, pair: nat)
    requires Settling(config, g, pair) && !Capped(config, g, pair)
    ensures Inv(config, g)
  {
    hide Rounds, Seated, JobsOk, TurnOk, Compatible;
    assert Below(config, g, g.pairs[pair]);
  }

  lemma AfterScoredKeeps(config: Config, g: Game, t: Turn, now: int, card: Option<nat>, tie: nat)
    requires t.id < |g.turns| && g.turns[t.id] == t && Settling(config, g, t.pair)
    requires forall j :: t.id < j < |g.turns| ==> g.turns[j].pair != t.pair
    ensures Inv(config, AfterScored(config, g, t, now, card, tie))
  {
    var queued := if t.quality then g.(jobs := Enqueue(g.jobs, Tables.JobKey(Tables.Package, t.id))) else g;
    hide Rounds, TurnOk, Compatible, JobsOk, CapOk, PairsBelow, OneActive, QueueFree, ClosedOk, NamesOk, PairsOk, OneOpen, QueueOk, CounterOk;
    if t.quality {
      EnqueueKeeps(config, g, t.pair, t.id);
    }
    if Capped(config, queued, t.pair) {
      CloseKeeps(config, queued, t.pair);
    } else {
      OpenKeeps(config, queued, t.pair);
      assert SeatedAt(queued, t.id);
      CountLast(queued.turns, t.id, OfPair(t.pair));
      DealKeeps(config, queued, t.pair, t.guesser, t.speaker, card, now, tie);
    }
  }

  // ------------------------------------------------------------------- requests

  /** The chosen partner is waiting, active, acceptable, and not the requester. */
  lemma PartnerIsCandidate(players: seq<Player>, pairs: seq<Pair>, queue: seq<Entry>, cutoff: int, me: PlayerId)
    ensures var other := Partner(players, pairs, queue, cutoff, me);
            other.Some? ==> other.value in queue && other.value.player != me && other.value.since >= cutoff
                            && Acceptable(players, pairs, queue, cutoff, me)(other.value)
  {
    var active := Filter(queue, ActiveOther(cutoff, me));
    var candidates := Candidates(queue, cutoff, me);
    FirstFinds(candidates, Acceptable(players, pairs, queue, cutoff, me));
    SortSorts(active, Earlier);
    var other := Partner(players, pairs, queue, cutoff, me);
    if other.Some? {
      assert other.value in candidates;
      SameElements(active, candidates, other.value);
      InFilter(queue, ActiveOther(cutoff, me), other.value);
    }
  }

  lemma CompatibleSwaps(players: seq<Player>, a: PlayerId, b: PlayerId)
    ensures Compatible(players, a, b) <==> Compatible(players, b, a)
  {
    if a < |players| && b < |players| {
      assert Speakable(players[a]) * Speakable(players[b]) == Speakable(players[b]) * Speakable(players[a]);
    }
  }

  lemma LeaveBoth(queue: seq<Entry>, a: PlayerId, b: PlayerId)
    requires Distinct(queue)
    ensures var left := Leave(Leave(queue, a), b);
            Distinct(left) && forall e :: e in left <==> e in queue && e.player != a && e.player != b
  {
    var once := Leave(queue, a);
    FilterDistinct(queue, NotPlayer(a));
    FilterDistinct(once, NotPlayer(b));
    forall e ensures e in Leave(once, b) <==> e in queue && e.player != a && e.player != b {
      InFilter(queue, NotPlayer(a), e);
      InFilter(once, NotPlayer(b), e);
    }
  }

  lemma PairUpKeeps(config: Config, g: Game, me: Entry, other: Entry, now: int, card: Option<nat>, tie: nat)
    requires Inv(config, g) && Free(config, g, me.player) && Free(config, g, other.player)
    requires Compatible(g.players, me.player, other.player)
    ensures Inv(config, PairUp(g, me, other, now, card, tie))
  {
    hide Rounds, TurnOk, Seated, CapOk, PairsBelow, OneActive, QueueFree, ClosedOk, JobsOk, OneOpen, PairsOk, Free, Compatible, NamesOk, CounterOk, Count;
    var (a, b) := if me.since <= other.since then (me.player, other.player) else (other.player, me.player);
    var queue := Leave(Leave(g.queue, me.player), other.player);
    LeaveBoth(g.queue, me.player, other.player);
    CompatibleSwaps(g.players, me.player, other.player);
    PairKeeps(config, g, a, b, queue, now);
    var paired := Paired(g, a, b, queue, now);
    assert TurnsOk(config, g);
    DealKeeps(config, paired, |g.pairs|, a, b, card, now, tie);
  }

  lemma TryMatchKeeps(config: Config, g: Game, me: PlayerId, now: int, card: Option<nat>, tie: nat)
    requires Inv(config, g) && Free(config, g, me) && me < |g.players|
    ensures Inv(config, TryMatch(config, g, me, now, card, tie).0)
  {
    hide Rounds, TurnOk, Seated, CapOk, PairsBelow, OneActive, JobsOk, OneOpen, PairsOk, Compatible, NamesOk, CounterOk, TurnsOk, Partner, ActivePair;
    var cutoff := now - config.queueTtl;
    var queue := EvictStale(Refresh(g.queue, me, now), cutoff, me);
    WaitersOk(g.queue, me, now, cutoff);
    QueueKeeps(config, g, queue, me);
    var waiting := g.(queue := queue);
    PartnerIsCandidate(g.players, g.pairs, queue, cutoff, me);
    var other := Partner(g.players, g.pairs, queue, cutoff, me);
    if other.Some? {
      assert Free(config, waiting, other.value.player);
      PairUpKeeps(config, waiting, Entry(me, now), other.value, now, card, tie);
    }
  }

  lemma RequestPairKeeps(config: Config, g: Game, me: PlayerId, now: int, card: Option<nat>, tie: nat)
    requires Inv(config, g) && me < |g.players|
    ensures Inv(config, RequestPair(config, g, me, now, card, tie).0)
  {
    hide Rounds, TurnOk, Seated, CapOk, PairsBelow, OneActive, QueueFree, ClosedOk, JobsOk, OneOpen, PairsOk, NamesOk, CounterOk, TurnsOk;
    hide Count, TryMatch, ActivePair, Refresh;
    ActivePairFinds(g, me);
    if Rounds(g.turns, me) < config.roundsCap && ActivePair(g.pairs, me).None? {
      var queue := Refresh(g.queue, me, now);
      RefreshDistinct(g.queue, me, now);
      QueueKeeps(config, g, queue, me);
      var asked := g.(queue := queue);
      assert Free(config, asked, me);
      TryMatchKeeps(config, asked, me, now, card, tie);
    }
  }

  /** The turn a speaker request acts on is the stored turn, in the expected status. */
  lemma SpeakerTurnFinds(config: Config, g: Game, me: PlayerId, expected: TurnStatus)
    requires Inv(config, g)
    ensures var t := SpeakerTurn(g, me, expected);
            t.Ok? ==> t.value.id < |g.turns| && g.turns[t.value.id] == t.value && t.value.status == expected
                      && t.value.speaker == me
  {
    var pair := ActivePair(g.pairs, me);
    if pair.Some? {
      LatestTurnFinds(config, g, pair.value.id);
    }
  }

  lemma LatestIsStored(config: Config, g: Game, pair: nat)
    requires Inv(config, g)
    ensures var t := LatestTurn(g.turns, pair);
            t.Some? ==> t.value.id < |g.turns| && g.turns[t.value.id] == t.value
  {
    LatestTurnFinds(config, g, pair);
  }

  lemma UploadJobs(g: Game, u: Turn)
    requires JobsOk(g) && u.id < |g.turns| && !g.turns[u.id].audio && u.audio && !g.turns[u.id].status.Scored?
    ensures JobsOk(Replaced(g, u, Enqueue(g.jobs, Tables.JobKey(Tables.Triage, u.id))))
  {
    assert Tables.JobKey(Tables.Triage, u.id) !in g.jobs;
  }

  lemma UploadKeeps(config: Config, g: Game, me: PlayerId, fits: bool, accepted: bool)
    requires Inv(config, g)
    ensures Inv(config, UploadAudio(g, me, fits, accepted).0)
  {
    SpeakerTurnFinds(config, g, me, AwaitingAudio);
    var found := SpeakerTurn(g, me, AwaitingAudio);
    hide Rounds, Seated, CapOk, PairsBelow, OneActive, QueueFree, ClosedOk, JobsOk, OneOpen, PairsOk, NamesOk, CounterOk, SpeakerTurn;
    if fits && found.Ok? && accepted {
      var t := found.value;
      assert TurnOk(config, t);
      var u := t.(audio := true, status := AwaitingLabelConfirm);
      UploadJobs(g, u);
      ProgressKeeps(config, g, u, Enqueue(g.jobs, Tables.JobKey(Tables.Triage, t.id)));
    }
  }

  lemma ConfirmKeeps(config: Config, g: Game, me: PlayerId)
    requires Inv(config, g)
    ensures Inv(config, ConfirmLabel(g, me).0)
  {
    SpeakerTurnFinds(config, g, me, AwaitingLabelConfirm);
    var found := SpeakerTurn(g, me, AwaitingLabelConfirm);
    hide Rounds, Seated, CapOk, PairsBelow, OneActive, QueueFree, ClosedOk, JobsOk, OneOpen, PairsOk, NamesOk, CounterOk, SpeakerTurn;
    if found.Ok? {
      var t := found.value;
      assert TurnOk(config, t);
      var u := t.(status := AwaitingGuess);
      JobsCarry(g, Replaced(g, u, g.jobs));
      ProgressKeeps(config, g, u, g.jobs);
    }
  }

  /** A guess keeps the record coherent, and a scoring one spends the last attempt or is right. */
  lemma GuessOk(config: Config, t: Turn, correct: bool)
    requires TurnOk(config, t) && t.status.AwaitingGuess?
    ensures var u := ApplyGuess(config, t, correct);
            && TurnOk(config, u) && SameSeat(t, u) && u.audio == t.audio && u.quality == t.quality
            && t.outcome.Undecided? && (u.status.Scored? <==> !u.outcome.Undecided?)
            && (u.outcome.Validated? <==> correct)
            && (u.outcome.Unclear? <==> !correct && u.attempts == LastGuess(config))
  {
  }

  lemma GuessKeeps(config: Config, g: Game, me: PlayerId, option: nat, now: int, card: Option<nat>, tie: nat)
    requires Inv(config, g)
    ensures Inv(config, Guess(config, g, me, option, now, card, tie).0)
  {
    hide Rounds, Seated, CapOk, PairsBelow, OneActive, QueueFree, ClosedOk, JobsOk, PairsOk, NamesOk, CounterOk, AfterScored, LatestTurn, ActivePair, ApplyGuess, Settling, TurnOk;
    var pair := ActivePair(g.pairs, me);
    if pair.Some? {
      LatestTurnFinds(config, g, pair.value.id);
      var latest := LatestTurn(g.turns, pair.value.id);
      if latest.Some? && latest.value.guesser == me && latest.value.status.AwaitingGuess? {
        GuessSteps(config, g, latest.value, option == latest.value.card, now, card, tie);
      }
    }
  }

  lemma ScoringKeeps(config: Config, g: Game, u: Turn, now: int, card: Option<nat>, tie: nat)
    requires Inv(config, g) && Replaces(g, u) && TurnOk(config, u) && g.turns[u.id].status.AwaitingGuess?
    requires u.status.Scored? && u.audio == g.turns[u.id].audio
    ensures Inv(config, AfterScored(config, Applied(g, u), u, now, card, tie))
  {
    hide Inv, Settling, TurnOk, AfterScored, Applied;
    ScoringSettles(config, g, u);
    AfterScoredKeeps(config, Applied(g, u), u, now, card, tie);
  }

  lemma GuessSteps(config: Config, g: Game, t: Turn, correct: bool, now: int, card: Option<nat>, tie: nat)
    requires Inv(config, g) && t.id < |g.turns| && g.turns[t.id] == t && t.status.AwaitingGuess?
    ensures var u := ApplyGuess(config, t, correct);
            && (u.status.Scored? ==> Inv(config, AfterScored(config, Applied(g, u), u, now, card, tie)))
            && (!u.status.Scored? ==> Inv(config, Applied(g, u)))
  {
    var u := ApplyGuess(config, t, correct);
    assert TurnOk(config, t);
    GuessOk(config, t, correct);
    assert JobsOk(g);
    hide Inv, JobsOk, AfterScored, ApplyGuess, TurnOk;
    if u.status.Scored? {
      ScoringKeeps(config, g, u, now, card, tie);
    } else {
      JobsCarry(g, Replaced(g, u, g.jobs));
      ProgressKeeps(config, g, u, g.jobs);
    }
  }

  lemma QualityKeeps(config: Config, g: Game, t: TurnId)
    requires Inv(config, g) && t < |g.turns|
    ensures Inv(config, g.(turns := g.turns[t := g.turns[t].(quality := true)]))
  {
    var u := g.turns[t].(quality := true);
    assert TurnOk(config, g.turns[t]);
    hide Rounds, Seated, CapOk, PairsBelow, OneActive, QueueFree, ClosedOk, JobsOk, PairsOk, NamesOk, CounterOk, OneOpen;
    JobsCarry(g, Replaced(g, u, g.jobs));
    ProgressKeeps(config, g, u, g.jobs);
  }

  lemma TriagedKeeps(config: Config, g: Game, t: TurnId)
    requires Inv(config, g) && t < |g.turns|
    ensures Inv(config, Triaged(g, t))
  {
    var u, jobs := g.turns[t].(quality := true), Triaged(g, t).jobs;
    assert TurnOk(config, g.turns[t]);
    TriagedJobs(g, t);
    hide Rounds, Seated, CapOk, PairsBelow, OneActive, QueueFree, ClosedOk, JobsOk, PairsOk, NamesOk, CounterOk, OneOpen;
    ProgressKeeps(config, g, u, jobs);
  }

  lemma TriagedJobs(g: Game, t: TurnId)
    requires JobsOk(g) && t < |g.turns| && g.turns[t].id == t
    ensures JobsOk(Triaged(g, t))
  {
  }

  // ----------------------------------------------------------------------- runs

  lemma StepKeepsInv(config: Config, g: Game, action: Action)
    requires Inv(config, g)
    ensures Inv(config, Step(config, g, action))
  {
    hide Inv, RequestPair, UploadAudio, ConfirmLabel, Guess;
    match action
    case Join(newcomer) =>
      if NicknameFree(g.players, newcomer.nickname) {
        JoinKeeps(config, g, newcomer);
      }
    case AskForPair(me, now, card, tie) =>
      if me < |g.players| {
        RequestPairKeeps(config, g, me, now, card, tie);
      }
    case Upload(me, fits, accepted) => UploadKeeps(config, g, me, fits, accepted);
    case Confirm(me) => ConfirmKeeps(config, g, me);
    case Answer(me, option, now, card, tie) => GuessKeeps(config, g, me, option, now, card, tie);
    case StoreQuality(t) =>
      if t < |g.turns| {
        QualityKeeps(config, g, t);
      }
    case CommitTriage(t) =>
      if t < |g.turns| {
        TriagedKeeps(config, g, t);
      }
  }

  lemma {:induction false} RunKeepsInv(config: Config, actions: seq<Action>)
    ensures Inv(config, After(config, actions))
  {
    if actions == [] {
      assert Inv(config, EMPTY);
    } else {
      hide Inv, Step;
      RunKeepsInv(config, actions[..|actions| - 1]);
      StepKeepsInv(config, After(config, actions[..|actions| - 1]), actions[|actions| - 1]);
    }
  }
}
