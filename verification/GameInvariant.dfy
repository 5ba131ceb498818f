/** What every reachable state of the game keeps, and how the queue, a pair and a turn may change. */
module GameInvariant {
  import opened Wrappers
  import opened Records
  import opened Sequences
  import opened Sorting
  import opened Game
  import Tables = World

  function Cap(config: Config): nat {
    if config.roundsCap < 0 then 0 else config.roundsCap
  }

  /** The guess that closes a turn even when it is wrong. */
  function LastGuess(config: Config): nat {
    if config.maxGuesses < 1 then 1 else config.maxGuesses
  }

  // ------------------------------------------------------------------- the parts

  ghost predicate NamesOk(g: Game) {
    forall i, j :: 0 <= i < j < |g.players| ==> g.players[i].nickname != g.players[j].nickname
  }

  /** Every pair ever made has two different, compatible members. */
  ghost predicate PairsOk(g: Game) {
    forall i :: 0 <= i < |g.pairs| ==>
      && g.pairs[i].id == i && g.pairs[i].playerA != g.pairs[i].playerB
      && Compatible(g.players, g.pairs[i].playerA, g.pairs[i].playerB)
  }

  /** Status, outcome, attempts and audio of one turn agree. */
  predicate TurnOk(config: Config, t: Turn) {
    && (t.status.Scored? <==> !t.outcome.Undecided?)
    && (t.audio <==> !t.status.AwaitingAudio?)
    && (t.status.AwaitingAudio? || t.status.AwaitingLabelConfirm? ==> t.attempts == 0)
    && (t.status.AwaitingGuess? ==> t.attempts < LastGuess(config))
    && (t.outcome.Validated? ==> 1 <= t.attempts <= LastGuess(config))
    && (t.outcome.Unclear? ==> t.attempts == LastGuess(config))
  }

  ghost predicate TurnsOk(config: Config, g: Game) {
    forall i :: 0 <= i < |g.turns| ==> g.turns[i].id == i && g.turns[i].pair < |g.pairs| && TurnOk(config, g.turns[i])
  }

  /** The speaker and the guesser of a pair's k-th turn. */
  function Roles(pair: Pair, k: nat): (PlayerId, PlayerId) {
    if k % 2 == 0 then (pair.playerA, pair.playerB) else (pair.playerB, pair.playerA)
  }

  predicate SeatedAt(g: Game, i: nat) {
    && i < |g.turns| && g.turns[i].pair < |g.pairs|
    && (g.turns[i].speaker, g.turns[i].guesser)
       == Roles(g.pairs[g.turns[i].pair], Count(g.turns[..i], OfPair(g.turns[i].pair)))
  }

  ghost predicate Seated(g: Game) {
    forall i: nat :: i < |g.turns| ==> SeatedAt(g, i)
  }

  /** An unscored turn is the last of its pair, and the pair is active. */
  ghost predicate OneOpen(g: Game) {
    forall i :: 0 <= i < |g.turns| && !g.turns[i].status.Scored? ==>
      && g.turns[i].pair < |g.pairs| && g.pairs[g.turns[i].pair].active
      && forall j :: i < j < |g.turns| ==> g.turns[j].pair != g.turns[i].pair
  }

  ghost predicate Distinct(queue: seq<Entry>) {
    forall i, j :: 0 <= i < j < |queue| ==> queue[i].player != queue[j].player
  }

  ghost predicate QueueOk(g: Game) {
    Distinct(g.queue) && forall e :: e in g.queue ==> e.player < |g.players|
  }

  predicate Below(config: Config, g: Game, pair: Pair) {
    Rounds(g.turns, pair.playerA) < config.roundsCap && Rounds(g.turns, pair.playerB) < config.roundsCap
  }

  /** Nobody is over the cap. */
  ghost predicate CapOk(config: Config, g: Game) {
    forall p: PlayerId :: Rounds(g.turns, p) <= Cap(config)
  }

  /** Active pairs other than the spared one can still play. */
  ghost predicate PairsBelow(config: Config, g: Game, spared: Option<nat>) {
    forall i :: 0 <= i < |g.pairs| && g.pairs[i].active && Some(i) != spared ==> Below(config, g, g.pairs[i])
  }

  predicate AtCap(config: Config, g: Game, pair: Pair) {
    Rounds(g.turns, pair.playerA) >= config.roundsCap || Rounds(g.turns, pair.playerB) >= config.roundsCap
  }

  /** A pair is only ever closed because a member has reached the cap. */
  ghost predicate ClosedOk(config: Config, g: Game) {
    forall i :: 0 <= i < |g.pairs| && !g.pairs[i].active ==> AtCap(config, g, g.pairs[i])
  }

  predicate Apart(a: Pair, b: Pair) {
    !Member(a, b.playerA) && !Member(a, b.playerB)
  }

  /** A player has at most one active pair. */
  ghost predicate OneActive(g: Game) {
    forall i, j :: 0 <= i < j < |g.pairs| && g.pairs[i].active && g.pairs[j].active ==> Apart(g.pairs[i], g.pairs[j])
  }

  /** A player who may be matched: under the cap and in no active pair. */
  ghost predicate Free(config: Config, g: Game, player: PlayerId) {
    && Rounds(g.turns, player) < config.roundsCap
    && forall i :: 0 <= i < |g.pairs| && g.pairs[i].active ==> !Member(g.pairs[i], player)
  }

  ghost predicate QueueFree(config: Config, g: Game) {
    forall e :: e in g.queue ==> Free(config, g, e.player)
  }

  ghost predicate JobsOk(g: Game) {
    && (forall i, j :: 0 <= i < j < |g.jobs| ==> g.jobs[i] != g.jobs[j])
    && (forall t: TurnId :: Tables.JobKey(Tables.Triage, t) in g.jobs <==> t < |g.turns| && g.turns[t].audio)
    && (forall t: TurnId :: Tables.JobKey(Tables.Package, t) in g.jobs ==>
          t < |g.turns| && g.turns[t].status.Scored? && g.turns[t].quality)
  }

  ghost predicate CounterOk(g: Game) {
    g.validated == Count(g.turns, Won())
  }

  ghost predicate Inv(config: Config, g: Game) {
    && NamesOk(g) && PairsOk(g) && TurnsOk(config, g) && Seated(g) && OneOpen(g) && QueueOk(g)
    && CapOk(config, g) && PairsBelow(config, g, None) && OneActive(g) && QueueFree(config, g)
    && ClosedOk(config, g) && JobsOk(g) && CounterOk(g)
  }

  // -------------------------------------------------------- what lookups return

  lemma {:induction false} SortedHead<T(!new)>(s: seq<T>, le: (T, T) -> bool)
    requires Total(le)
    ensures Sort(s, le) == [] <==> s == []
    ensures s != [] ==> Sort(s, le)[0] in s && forall x :: x in s ==> le(Sort(s, le)[0], x)
  {
    SortSorts(s, le);
    if s != [] {
      var sorted := Sort(s, le);
      SameElements(s, sorted, sorted[0]);
      forall x | x in s ensures le(sorted[0], x) {
        SameElements(s, sorted, x);
        var k :| 0 <= k < |sorted| && sorted[k] == x;
        assert k == 0 ==> le(x, x);
      }
    }
  }

  /** The lookup finds an active pair of the player exactly when there is one. */
  lemma ActivePairFinds(g: Game, player: PlayerId)
    requires PairsOk(g)
    ensures ActivePair(g.pairs, player).None? <==>
            forall i :: 0 <= i < |g.pairs| && g.pairs[i].active ==> !Member(g.pairs[i], player)
    ensures var pair := ActivePair(g.pairs, player);
            pair.Some? ==> pair.value.id < |g.pairs| && g.pairs[pair.value.id] == pair.value
                           && pair.value.active && Member(pair.value, player)
  {
    var found := Filter(g.pairs, ActiveWith(player));
    SortedHead(found, NewerPair);
    forall p: Pair ensures p in found <==> p in g.pairs && p.active && Member(p, player) {
      InFilter(g.pairs, ActiveWith(player), p);
    }
    if found != [] {
      assert found[0] in found;
    }
  }

  lemma LaterIsTotal()
    ensures Total(Later)
  {
  }

  /** The newest turn of a pair, and whichever turn is still open comes before all scored ones. */
  lemma LatestTurnFinds(config: Config, g: Game, pair: nat)
    requires TurnsOk(config, g)
    ensures LatestTurn(g.turns, pair).None? <==> forall i :: 0 <= i < |g.turns| ==> g.turns[i].pair != pair
    ensures var t := LatestTurn(g.turns, pair);
            t.Some? ==>
              && t.value.id < |g.turns| && g.turns[t.value.id] == t.value && t.value.pair == pair
              && forall i :: 0 <= i < |g.turns| && g.turns[i].pair == pair ==> Later(t.value, g.turns[i])
  {
    var found := Filter(g.turns, OfPair(pair));
    LaterIsTotal();
    SortedHead(found, Later);
    forall t: Turn ensures t in found <==> t in g.turns && t.pair == pair {
      InFilter(g.turns, OfPair(pair), t);
    }
    if found != [] {
      assert found[0] in found;
    }
  }

  // ----------------------------------------------------------------- the queue

  lemma {:induction false} FilterDistinct(queue: seq<Entry>, keep: Entry -> bool)
    requires Distinct(queue)
    ensures Distinct(Filter(queue, keep))
  {
    if queue != [] {
      var front, last := queue[..|queue| - 1], queue[|queue| - 1];
      FilterDistinct(front, keep);
      forall i | 0 <= i < |Filter(front, keep)| ensures Filter(front, keep)[i].player != last.player {
        InFilter(front, keep, Filter(front, keep)[i]);
      }
    }
  }

  lemma {:induction false} RefreshDistinct(queue: seq<Entry>, player: PlayerId, now: int)
    requires Distinct(queue)
    ensures Distinct(Refresh(queue, player, now))
    ensures Entry(player, now) in Refresh(queue, player, now)
    ensures forall e :: e in Refresh(queue, player, now) ==> e == Entry(player, now) || (e in queue && e.player != player)
  {
    if queue != [] {
      var rest := queue[1..];
      assert queue == [queue[0]] + rest;
      if queue[0].player != player {
        RefreshDistinct(rest, player, now);
        forall i | 0 <= i < |Refresh(rest, player, now)| ensures Refresh(rest, player, now)[i].player != queue[0].player {
          assert Refresh(rest, player, now)[i] in Refresh(rest, player, now);
        }
      } else {
        forall e | e in rest ensures e.player != player {
        }
      }
    }
  }

  // --------------------------------------------------- replacing one turn record

  predicate SameSeat(a: Turn, b: Turn) {
    a.id == b.id && a.pair == b.pair && a.speaker == b.speaker && a.guesser == b.guesser
  }

  ghost predicate Replaces(g: Game, u: Turn) {
    u.id < |g.turns| && SameSeat(g.turns[u.id], u)
  }

  lemma SeatedReplaced(g: Game, after: Game, u: Turn)
    requires Seated(g) && Replaces(g, u) && after.turns == g.turns[u.id := u] && after.pairs == g.pairs
    ensures Seated(after)
  {
    hide Count, Roles;
    forall i: nat | i < |after.turns| ensures SeatedAt(after, i) {
      assert SeatedAt(g, i);
      CountSame(g.turns[..i], after.turns[..i], OfPair(after.turns[i].pair));
    }
  }

  lemma SeatedAppended(g: Game, after: Game, t: Turn)
    requires Seated(g) && after.turns == g.turns + [t] && after.pairs == g.pairs
    requires t.pair < |g.pairs| && (t.speaker, t.guesser) == Roles(g.pairs[t.pair], Count(g.turns, OfPair(t.pair)))
    ensures Seated(after)
  {
    hide Count, Roles;
    forall i: nat | i < |after.turns| ensures SeatedAt(after, i) {
      if i < |g.turns| {
        assert SeatedAt(g, i);
        assert after.turns[..i] == g.turns[..i];
      } else {
        assert after.turns[..i] == g.turns;
      }
    }
  }

  /** Roles, and so seats, read only the members of a pair. */
  lemma SeatedPairs(g: Game, after: Game)
    requires Seated(g) && after.turns == g.turns && |g.pairs| <= |after.pairs|
    requires forall i :: 0 <= i < |g.pairs| ==>
               after.pairs[i].playerA == g.pairs[i].playerA && after.pairs[i].playerB == g.pairs[i].playerB
    ensures Seated(after)
  {
    hide Count;
    forall i: nat | i < |after.turns| ensures SeatedAt(after, i) {
      assert SeatedAt(g, i);
    }
  }

  /** The two players of a turn are the two members of its pair. */
  lemma SeatsAreMembers(g: Game, i: nat)
    requires Seated(g) && i < |g.turns|
    ensures g.turns[i].pair < |g.pairs|
    ensures forall p :: Plays(g.turns[i], p) <==> Member(g.pairs[g.turns[i].pair], p)
  {
    assert SeatedAt(g, i);
  }

  lemma RoundsReplaced(g: Game, u: Turn, player: PlayerId)
    requires Replaces(g, u)
    ensures var before, after := g.turns[u.id].status.Scored?, u.status.Scored?;
            Rounds(g.turns[u.id := u], player) + (if before && Plays(u, player) then 1 else 0)
            == Rounds(g.turns, player) + if after && Plays(u, player) then 1 else 0
  {
    CountUpdate(g.turns, u.id, u, PlayedBy(player));
  }

  lemma RoundsUnchanged(g: Game, u: Turn)
    requires Replaces(g, u) && (g.turns[u.id].status.Scored? <==> u.status.Scored?)
    ensures forall p: PlayerId :: Rounds(g.turns[u.id := u], p) == Rounds(g.turns, p)
  {
    forall p: PlayerId ensures Rounds(g.turns[u.id := u], p) == Rounds(g.turns, p) {
      RoundsReplaced(g, u, p);
    }
  }

  /** An added open turn counts for nobody yet. */
  lemma RoundsAppended(turns: seq<Turn>, t: Turn)
    requires !t.status.Scored?
    ensures forall p: PlayerId :: Rounds(turns + [t], p) == Rounds(turns, p)
  {
    forall p: PlayerId ensures Rounds(turns + [t], p) == Rounds(turns, p) {
      CountAppend(turns, t, PlayedBy(p));
    }
  }

  /** Session facts read turns only through the round counts. */
  lemma SessionsCarry(config: Config, g: Game, after: Game)
    requires CapOk(config, g) && PairsBelow(config, g, None) && OneActive(g) && QueueFree(config, g) && ClosedOk(config, g)
    requires after.pairs == g.pairs && after.queue == g.queue
    requires forall p: PlayerId :: Rounds(after.turns, p) == Rounds(g.turns, p)
    ensures CapOk(config, after) && PairsBelow(config, after, None) && OneActive(after) && QueueFree(config, after)
    ensures ClosedOk(config, after)
  {
    forall i | 0 <= i < |after.pairs| && !after.pairs[i].active ensures AtCap(config, after, after.pairs[i]) {
      assert AtCap(config, g, g.pairs[i]);
    }
    hide Rounds;
    forall p: PlayerId ensures Rounds(after.turns, p) <= Cap(config) {
      assert Rounds(after.turns, p) == Rounds(g.turns, p);
    }
    forall i | 0 <= i < |after.pairs| && after.pairs[i].active ensures Below(config, after, after.pairs[i]) {
      assert Below(config, g, g.pairs[i]);
    }
    forall e | e in after.queue ensures Free(config, after, e.player) {
      assert Free(config, g, e.player);
    }
  }
}
