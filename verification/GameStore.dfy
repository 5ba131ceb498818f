/**
 The store and the service as they are written: dictionaries and lists updated in place, loops
 over them, and the service calling the store statement by statement.  A dictionary is the
 sequence of its values in insertion order, which is the order its loops see.
 */
module GameStore {
  import opened Wrappers
  import opened Records
  import opened Sequences
  import opened Sorting
  import opened Game
  import opened GameInvariant
  import opened GameProofs
  import opened Scoreboard
  import Rules = Game
  import Board = Scoreboard
  import Tables = World

  function NotAmong(gone: seq<PlayerId>): Entry -> bool {
    (e: Entry) => e.player !in gone
  }

  /** Exactly the expired keys. */
  ghost predicate Stale(stale: seq<PlayerId>, queue: seq<Entry>, cutoff: int, keep: PlayerId) {
    forall p :: p in stale <==> exists e :: e in queue && e.player == p && !Unexpired(cutoff, keep)(e)
  }

  /** Popping the expired keys one by one leaves what one filter would. */
  lemma EvictionIsFilter(queue: seq<Entry>, stale: seq<PlayerId>, cutoff: int, keep: PlayerId)
    requires Distinct(queue) && Stale(stale, queue, cutoff, keep)
    ensures Filter(queue, NotAmong(stale)) == EvictStale(queue, cutoff, keep)
    ensures Distinct(EvictStale(queue, cutoff, keep)) && forall e :: e in EvictStale(queue, cutoff, keep) ==> e in queue
  {
    forall e | e in queue ensures NotAmong(stale)(e) == Unexpired(cutoff, keep)(e) {
      if e.player in stale {
        var other :| other in queue && other.player == e.player && !Unexpired(cutoff, keep)(other);
        assert other == e;
      }
    }
    FilterSame(queue, NotAmong(stale), Unexpired(cutoff, keep));
    FilterDistinct(queue, Unexpired(cutoff, keep));
    forall e | e in EvictStale(queue, cutoff, keep) ensures e in queue {
      InFilter(queue, Unexpired(cutoff, keep), e);
    }
  }

  lemma CandidatesWait(store: MemoryGameStore, cutoff: int, me: PlayerId)
    requires store.Coherent()
    ensures forall e :: e in Candidates(store.queue, cutoff, me) ==> e.player < |store.players|
  {
    var queue := store.queue;
    var active := Filter(queue, ActiveOther(cutoff, me));
    SortSorts(active, Earlier);
    forall e | e in Candidates(queue, cutoff, me) ensures e in queue {
      SameElements(active, Candidates(queue, cutoff, me), e);
      InFilter(queue, ActiveOther(cutoff, me), e);
    }
  }

  lemma PartnerIsCompatible(players: seq<Player>, pairs: seq<Pair>, queue: seq<Entry>, cutoff: int, me: PlayerId)
    ensures var other := Partner(players, pairs, queue, cutoff, me);
            other.Some? ==> Compatible(players, me, other.value.player)
  {
    PartnerIsCandidate(players, pairs, queue, cutoff, me);
  }

  lemma AddPoints(turns: seq<Turn>, i: nat, points: int, p: PlayerId)
    requires i < |turns| && WonBy(p)(turns[i])
    ensures Count(turns[..i + 1], WonBy(p)) * points == Count(turns[..i], WonBy(p)) * points + points
  {
    CountStep(turns, i, WonBy(p));
    Distribute(Count(turns[..i], WonBy(p)), 1, points);
  }

  class MemoryGameStore {
    const config: Config
    var players: seq<Player>
    var queue: seq<Entry>
    var pairs: seq<Pair>
    var turns: seq<Turn>
    var jobs: seq<Tables.JobKey>
    var validatedPairs: nat

    ghost function Value(): Game
      reads this
    {
      Game(players, queue, pairs, turns, jobs, validatedPairs)
    }

    ghost predicate QueueKeys()
      reads this
    {
      Distinct(queue) && forall e :: e in queue ==> e.player < |players|
    }

    ghost predicate RowsLinked()
      reads this`players, this`pairs, this`turns
    {
      && (forall i :: 0 <= i < |pairs| ==> pairs[i].id == i && pairs[i].playerA < |players| && pairs[i].playerB < |players|)
      && (forall i :: 0 <= i < |turns| ==>
            && turns[i].id == i && turns[i].pair < |pairs| && turns[i].speaker != turns[i].guesser
            && turns[i].speaker < |players| && turns[i].guesser < |players|
            && (turns[i].status.Scored? || turns[i].outcome.Undecided?))
    }

    /** Keys are unique, and identifiers lead to stored rows. */
    ghost predicate Coherent()
      reads this
    {
      QueueKeys() && RowsLinked()
    }

    constructor (config: Config)
      ensures Value() == EMPTY && this.config == config && Coherent()
    {
      this.config := config;
      players, queue, pairs, turns, jobs := [], [], [], [], [];
      validatedPairs := 0;
    }

    // ---------------------------------------------------------------- the queue

    method StaleKeys(cutoff: int, keep: PlayerId) returns (stale: seq<PlayerId>)
      ensures Stale(stale, queue, cutoff, keep)
    {
      stale := [];
      for i := 0 to |queue|
        invariant Stale(stale, queue[..i], cutoff, keep)
      {
        assert queue[..i + 1] == queue[..i] + [queue[i]];
        if queue[i].since < cutoff && queue[i].player != keep {
          stale := stale + [queue[i].player];
        }
      }
      assert queue[..|queue|] == queue;
    }

    method EvictStaleQueue(keep: PlayerId, now: int)
      requires Coherent()
      modifies this`queue
      ensures Coherent() && queue == EvictStale(old(queue), now - config.queueTtl, keep)
    {
      hide RowsLinked, Filter, Stale, EvictStale;
      var cutoff := now - config.queueTtl;
      var stale := StaleKeys(cutoff, keep);
      FilterAll(queue, NotAmong([]));
      for i := 0 to |stale|
        invariant queue == Filter(old(queue), NotAmong(stale[..i]))
      {
        FilterTwice(old(queue), NotAmong(stale[..i]), NotPlayer(stale[i]), NotAmong(stale[..i + 1]));
        queue := Leave(queue, stale[i]);
      }
      assert stale[..|stale|] == stale;
      EvictionIsFilter(old(queue), stale, cutoff, keep);
    }

    method IsActivelyQueued(player: PlayerId, now: int) returns (active: bool)
      requires Coherent()
      ensures active <==> exists e :: e in queue && e.player == player && e.since >= now - config.queueTtl
    {
      var entry := Waiting(queue, player);
      FirstFinds(queue, ForPlayer(player));
      if entry.None? {
        return false;
      }
      return entry.value.since >= now - config.queueTtl;
    }

    method EnqueuePlayer(player: PlayerId, now: int)
      requires Coherent() && player < |players|
      modifies this`queue
      ensures Coherent() && queue == Refresh(old(queue), player, now)
    {
      RefreshDistinct(queue, player, now);
      queue := Refresh(queue, player, now);
    }

    // -------------------------------------------------------------------- pairs

    method PreviouslyPaired(a: PlayerId, b: PlayerId) returns (met: bool)
      ensures met <==> Rules.PreviouslyPaired(pairs, a, b)
    {
      for i := 0 to |pairs|
        invariant forall j :: 0 <= j < i ==> !(Member(pairs[j], a) && Member(pairs[j], b))
      {
        if Member(pairs[i], a) && Member(pairs[i], b) {
          return true;
        }
      }
      return false;
    }

    method HasAlternate(me: PlayerId, exclude: PlayerId, now: int) returns (found: bool)
      requires Coherent() && me < |players|
      ensures found <==> Rules.HasAlternate(players, queue, now - config.queueTtl, me, exclude)
    {
      ghost var cutoff := now - config.queueTtl;
      for i := 0 to |queue|
        invariant forall j :: 0 <= j < i ==>
                    !(queue[j].player != exclude && ActiveOther(cutoff, me)(queue[j]) && Compatible(players, me, queue[j].player))
      {
        var other := queue[i].player;
        if other == me || other == exclude {
          continue;
        }
        var active := IsActivelyQueued(other, now);
        assert active <==> queue[i].since >= cutoff;
        if !active || players[other].native == players[me].native {
          continue;
        }
        if Speakable(players[me]) * Speakable(players[other]) != {} {
          return true;
        }
      }
      return false;
    }

    method GetActivePair(player: PlayerId) returns (pair: Option<Pair>)
      ensures pair == ActivePair(pairs, player)
    {
      var matches: seq<Pair> := [];
      for i := 0 to |pairs|
        invariant matches == Filter(pairs[..i], ActiveWith(player))
      {
        FilterStep(pairs, i, ActiveWith(player));
        if pairs[i].active && (player == pairs[i].playerA || player == pairs[i].playerB) {
          matches := matches + [pairs[i]];
        }
      }
      FilterWhole(pairs, ActiveWith(player));
      SortedHead(matches, NewerPair);
      if matches == [] {
        return None;
      }
      return Some(Sort(matches, NewerPair)[0]);
    }

    /** `card` is the draw of `pick_card_for_pair`, if a live card exists. */
    method CreateTurn(pair: nat, speaker: PlayerId, guesser: PlayerId, card: nat, now: int, tie: nat)
      requires Coherent() && pair < |pairs| && speaker != guesser && speaker < |players| && guesser < |players|
      modifies this`turns
      ensures Coherent() && Value() == Deal(old(Value()), pair, speaker, guesser, Some(card), now, tie)
    {
      turns := turns + [Turn(|turns|, pair, speaker, guesser, card, AwaitingAudio, Undecided, 0, false, false, now, tie)];
    }

    method ActiveCandidates(me: PlayerId, now: int) returns (candidates: seq<Entry>)
      requires Coherent()
      ensures candidates == Candidates(queue, now - config.queueTtl, me)
    {
      ghost var cutoff := now - config.queueTtl;
      candidates := [];
      for i := 0 to |queue|
        invariant candidates == Filter(queue[..i], ActiveOther(cutoff, me))
      {
        FilterStep(queue, i, ActiveOther(cutoff, me));
        if queue[i].player != me {
          var active := IsActivelyQueued(queue[i].player, now);
          assert active <==> queue[i].since >= cutoff;
          if active {
            candidates := candidates + [queue[i]];
          }
        }
      }
      FilterWhole(queue, ActiveOther(cutoff, me));
      candidates := Sort(candidates, Earlier);
    }

    /** The loop of `try_match` over the sorted candidates, up to the one it pairs. */
    method ChoosePartner(me: PlayerId, candidates: seq<Entry>, now: int) returns (choice: Option<Entry>)
      requires Coherent() && me < |players| && forall e :: e in candidates ==> e.player < |players|
      ensures choice == First(candidates, Acceptable(players, pairs, queue, now - config.queueTtl, me))
    {
      ghost var accept := Acceptable(players, pairs, queue, now - config.queueTtl, me);
      for i := 0 to |candidates|
        invariant First(candidates, accept) == First(candidates[i..], accept)
      {
        assert candidates[i..][0] == candidates[i] && candidates[i..][1..] == candidates[i + 1..];
        var other := candidates[i].player;
        assert other < |players|;
        if players[other].native == players[me].native {
          continue;
        }
        if Speakable(players[me]) * Speakable(players[other]) == {} {
          continue;
        }
        var met := PreviouslyPaired(me, other);
        if met {
          var alternate := HasAlternate(me, other, now);
          if alternate {
            continue;
          }
        }
        return Some(candidates[i]);
      }
      return None;
    }

    /** Whoever enqueued earlier speaks first; both leave the queue. */
    method MakePair(me: PlayerId, other: Entry, now: int, card: Option<nat>, tie: nat) returns (pair: Pair)
      requires Coherent() && Compatible(players, me, other.player)
      modifies this
      ensures Coherent()
      ensures Value() == PairUp(old(Value()), Entry(me, now), other, now, card, tie)
      ensures pair.id == |old(pairs)| < |pairs| && pair == pairs[pair.id]
    {
      var a, b := me, other.player;
      if other.since < now {
        a, b := other.player, me;
      }
      pair := Pair(|pairs|, a, b, true, now);
      LeaveBoth(queue, me, other.player);
      pairs := pairs + [pair];
      queue := Leave(queue, me);
      queue := Leave(queue, other.player);
      if card.Some? {
        CreateTurn(pair.id, a, b, card.value, now, tie);
      }
    }

    method TryMatch(me: PlayerId, now: int, card: Option<nat>, tie: nat) returns (pair: Option<Pair>)
      requires Coherent() && me < |players|
      modifies this
      ensures Coherent()
      ensures (Value(), pair) == Rules.TryMatch(config, old(Value()), me, now, card, tie)
    {
      hide Candidates, Acceptable, First, ActivePair, Refresh, EvictStale, PairUp, Compatible, Coherent;
      var existing := GetActivePair(me);
      if existing.Some? {
        return existing;
      }
      EnqueuePlayer(me, now);
      EvictStaleQueue(me, now);
      var candidates := ActiveCandidates(me, now);
      CandidatesWait(this, now - config.queueTtl, me);
      var choice := ChoosePartner(me, candidates, now);
      PartnerIsCompatible(players, pairs, queue, now - config.queueTtl, me);
      if choice.None? {
        return None;
      }
      var made := MakePair(me, choice.value, now, card, tie);
      return Some(made);
    }

    // -------------------------------------------------------------------- turns

    method GetLatestTurn(pair: nat) returns (t: Option<Turn>)
      ensures t == LatestTurn(turns, pair)
    {
      var mine: seq<Turn> := [];
      for i := 0 to |turns|
        invariant mine == Filter(turns[..i], OfPair(pair))
      {
        FilterStep(turns, i, OfPair(pair));
        if turns[i].pair == pair {
          mine := mine + [turns[i]];
        }
      }
      FilterWhole(turns, OfPair(pair));
      LaterIsTotal();
      SortedHead(mine, Later);
      if mine == [] {
        return None;
      }
      return Some(Sort(mine, Later)[0]);
    }

    method AcceptAudio(t: TurnId) returns (r: Result<Turn, GameError>)
      requires Coherent() && t < |turns|
      modifies this`turns
      ensures Coherent()
      ensures r.Ok? <==> old(turns[t]).status.AwaitingAudio?
      ensures r.Ok? ==> r.value == old(turns[t]).(audio := true, status := AwaitingLabelConfirm) && turns == SetTurn(old(turns), r.value)
      ensures r.Err? ==> turns == old(turns)
    {
      if turns[t].status != AwaitingAudio {
        return Err(WrongStatus);
      }
      turns := turns[t := turns[t].(audio := true, status := AwaitingLabelConfirm)];
      return Ok(turns[t]);
    }

    method ConfirmLabel(t: TurnId) returns (r: Result<Turn, GameError>)
      requires Coherent() && t < |turns|
      modifies this`turns
      ensures Coherent()
      ensures r.Ok? <==> old(turns[t]).status.AwaitingLabelConfirm?
      ensures r.Ok? ==> r.value == old(turns[t]).(status := AwaitingGuess) && turns == SetTurn(old(turns), r.value)
      ensures r.Err? ==> turns == old(turns)
    {
      if turns[t].status != AwaitingLabelConfirm {
        return Err(WrongStatus);
      }
      turns := turns[t := turns[t].(status := AwaitingGuess)];
      return Ok(turns[t]);
    }

    method EnqueueJob(kind: Tables.JobKind, t: TurnId) returns (created: bool)
      modifies this`jobs
      ensures jobs == Enqueue(old(jobs), Tables.JobKey(kind, t))
      ensures created <==> Tables.JobKey(kind, t) !in old(jobs)
    {
      for i := 0 to |jobs|
        invariant forall j :: 0 <= j < i ==> jobs[j] != Tables.JobKey(kind, t)
      {
        if jobs[i].kind == kind && jobs[i].turn == t {
          return false;
        }
      }
      jobs := jobs + [Tables.JobKey(kind, t)];
      return true;
    }

    method ApplyGuess(t: TurnId, correct: bool) returns (r: Result<Turn, GameError>)
      requires Coherent() && t < |turns|
      modifies this`turns, this`validatedPairs
      ensures Coherent()
      ensures r.Ok? <==> old(turns[t]).status.AwaitingGuess?
      ensures r.Ok? ==> r.value == Rules.ApplyGuess(config, old(turns[t]), correct) && Value() == Applied(old(Value()), r.value)
      ensures r.Err? ==> Value() == old(Value())
    {
      if turns[t].status != AwaitingGuess {
        return Err(WrongStatus);
      }
      turns := turns[t := turns[t].(attempts := turns[t].attempts + 1)];
      if correct {
        turns := turns[t := turns[t].(status := Scored, outcome := Validated)];
        validatedPairs := validatedPairs + 1;
      } else if turns[t].attempts >= config.maxGuesses {
        turns := turns[t := turns[t].(status := Scored, outcome := Unclear)];
      }
      assert turns[t] == Rules.ApplyGuess(config, old(turns[t]), correct) && turns[t].id == t;
      assert turns == old(turns)[t := turns[t]];
      assert turns[t].outcome.Validated? <==> correct;
      return Ok(turns[t]);
    }

    // ------------------------------------------------------------------- scores

    method Leaderboard(top: int) returns (board: seq<Row>)
      requires Coherent()
      ensures board == Board.Leaderboard(config, Value(), top)
      ensures BoardOrder(board) && TopOf(config, Value(), board, Shown(|players|, top))
    {
      LeaderboardMeans(config, Value(), top);
      hide BoardOrder, TopOf;
      var scores := seq(|players|, _ => 0);
      for i := 0 to |turns|
        invariant |scores| == |players|
        invariant forall p: PlayerId :: p < |players| ==> scores[p] == Count(turns[..i], WonBy(p)) * config.points
      {
        forall p: PlayerId ensures Count(turns[..i + 1], WonBy(p)) == Count(turns[..i], WonBy(p)) + if WonBy(p)(turns[i]) then 1 else 0 {
          CountStep(turns, i, WonBy(p));
        }
        if turns[i].outcome != Validated {
          continue;
        }
        AddPoints(turns, i, config.points, turns[i].speaker);
        AddPoints(turns, i, config.points, turns[i].guesser);
        scores := scores[turns[i].speaker := scores[turns[i].speaker] + config.points];
        scores := scores[turns[i].guesser := scores[turns[i].guesser] + config.points];
      }
      assert turns[..|turns|] == turns;
      var rows: seq<Row> := [];
      for p := 0 to |scores|
        invariant |rows| == p && forall q: PlayerId :: q < p ==> rows[q] == RowOf(config, Value(), q)
      {
        rows := rows + [Row(players[p].nickname, scores[p])];
      }
      assert rows == Rows(config, Value());
      return UpTo(Sort(rows, Ahead), top);
    }

    method PlayerStats(me: PlayerId) returns (stats: Stats)
      requires Coherent() && me < |players|
      ensures stats == Board.PlayerStats(config, Value(), me)
    {
      var rounds, validated := 0, 0;
      for i := 0 to |turns|
        invariant rounds == Count(turns[..i], PlayedBy(me)) && validated == Count(turns[..i], WonBy(me))
      {
        CountStep(turns, i, PlayedBy(me));
        CountStep(turns, i, WonBy(me));
        if me != turns[i].speaker && me != turns[i].guesser {
          continue;
        }
        if turns[i].status == Scored {
          rounds := rounds + 1;
        }
        if turns[i].outcome == Validated {
          validated := validated + 1;
        }
      }
      CountWhole(turns, PlayedBy(me));
      CountWhole(turns, WonBy(me));
      var score := validated * config.points;
      var board := Leaderboard(RANKED_ROWS);
      var rank := None;
      ghost var row := Row(players[me].nickname, score);
      for i := 0 to |board|
        invariant rank.None?
        invariant forall j :: 0 <= j < i ==> board[j] != row
      {
        if board[i].nickname == players[me].nickname && board[i].score == score {
          PositionFinds(board, row, i);
          return Stats(score, rounds, Some(i + 1));
        }
      }
      PositionMisses(board, row);
      return Stats(score, rounds, rank);
    }

    method CompletePairIfCapped(pair: nat) returns (capped: bool)
      requires Coherent() && pair < |pairs|
      modifies this`pairs
      ensures Coherent() && capped == Capped(config, old(Value()), pair)
      ensures pairs == if capped then Close(old(pairs), pair) else old(pairs)
    {
      var members := [pairs[pair].playerA, pairs[pair].playerB];
      for i := 0 to |members|
        invariant pairs == old(pairs)
        invariant forall j :: 0 <= j < i ==> Rounds(turns, members[j]) < config.roundsCap
      {
        var stats := PlayerStats(members[i]);
        if stats.rounds >= config.roundsCap {
          pairs := pairs[pair := pairs[pair].(active := false)];
          return true;
        }
      }
      assert Rounds(turns, members[0]) < config.roundsCap && Rounds(turns, members[1]) < config.roundsCap;
      return false;
    }
  }

  class GameService {
    const store: MemoryGameStore
    const config: Config

    ghost predicate Valid()
      reads store
    {
      config == store.config && Inv(config, store.Value())
    }

    constructor (config: Config)
      ensures Valid() && fresh(store) && store.Value() == EMPTY && this.config == config
    {
      this.config := config;
      store := new MemoryGameStore(config);
    }

    method RequestPair(me: PlayerId, now: int, card: Option<nat>, tie: nat) returns (r: Result<Reply, GameError>)
      requires Valid() && me < |store.players|
      modifies store
      ensures Valid() && (store.Value(), r) == Rules.RequestPair(config, old(store.Value()), me, now, card, tie)
    {
      hide Inv, Board.PlayerStats, ActivePair, TryMatch;
      ValidIsCoherent(config, store);
      RequestPairKeeps(config, store.Value(), me, now, card, tie);
      var stats := store.PlayerStats(me);
      StatsRounds(config, store.Value(), me);
      if stats.rounds >= config.roundsCap {
        return Err(RoundCapReached);
      }
      var existing := store.GetActivePair(me);
      if existing.Some? {
        return Ok(Matched);
      }
      store.EnqueuePlayer(me, now);
      var pair := store.TryMatch(me, now, card, tie);
      return Ok(if pair.Some? then Matched else Queued);
    }

    method RequireSpeakerTurn(me: PlayerId, expected: TurnStatus) returns (r: Result<Turn, GameError>)
      ensures r == SpeakerTurn(store.Value(), me, expected)
    {
      var pair := store.GetActivePair(me);
      if pair.None? {
        return Err(NotPaired);
      }
      var t := store.GetLatestTurn(pair.value.id);
      if t.None? {
        return Err(NoActiveTurn);
      }
      if t.value.speaker != me {
        return Err(NotSpeaker);
      }
      if t.value.status != expected {
        return Err(WrongStatus);
      }
      return Ok(t.value);
    }

    /** `accepted` is the verdict of the recording check, run only on the speaker's own open turn. */
    method UploadAudio(me: PlayerId, fits: bool, accepted: bool) returns (r: Result<Reply, GameError>)
      requires Valid()
      modifies store
      ensures Valid() && (store.Value(), r) == Rules.UploadAudio(old(store.Value()), me, fits, accepted)
    {
      hide Inv, SpeakerTurn;
      UploadKeeps(config, store.Value(), me, fits, accepted);
      ValidIsCoherent(config, store);
      if !fits {
        return Ok(ReRecord);
      }
      var found := RequireSpeakerTurn(me, AwaitingAudio);
      SpeakerTurnFinds(config, store.Value(), me, AwaitingAudio);
      if found.Err? {
        return Err(found.error);
      }
      if !accepted {
        return Ok(ReRecord);
      }
      var updated := store.AcceptAudio(found.value.id);
      var _ := store.EnqueueJob(Tables.Triage, found.value.id);
      return Ok(Accepted);
    }

    method ConfirmLabel(me: PlayerId) returns (r: Result<Reply, GameError>)
      requires Valid()
      modifies store
      ensures Valid() && (store.Value(), r) == Rules.ConfirmLabel(old(store.Value()), me)
    {
      hide Inv, SpeakerTurn;
      ConfirmKeeps(config, store.Value(), me);
      ValidIsCoherent(config, store);
      var found := RequireSpeakerTurn(me, AwaitingLabelConfirm);
      SpeakerTurnFinds(config, store.Value(), me, AwaitingLabelConfirm);
      if found.Err? {
        return Err(found.error);
      }
      var updated := store.ConfirmLabel(found.value.id);
      return Ok(Done);
    }

    /** Packages the turn if its quality is in, then closes a capped pair or swaps the roles. */
    method AfterScored(t: Turn, now: int, card: Option<nat>, tie: nat)
      requires store.Coherent() && store.config == config && t.id < |store.turns| && store.turns[t.id] == t
      modifies store
      ensures store.Value() == Rules.AfterScored(config, old(store.Value()), t, now, card, tie)
    {
      hide Capped, Enqueue, Close;
      if store.turns[t.id].quality {
        var _ := store.EnqueueJob(Tables.Package, t.id);
      }
      var capped := store.CompletePairIfCapped(t.pair);
      if capped {
        return;
      }
      if card.Some? {
        store.CreateTurn(t.pair, t.guesser, t.speaker, card.value, now, tie);
      }
    }

    method Guess(me: PlayerId, option: nat, now: int, card: Option<nat>, tie: nat) returns (r: Result<Reply, GameError>)
      requires Valid()
      modifies store
      ensures Valid() && (store.Value(), r) == Rules.Guess(config, old(store.Value()), me, option, now, card, tie)
    {
      hide Inv, ActivePair, LatestTurn, Rules.AfterScored;
      GuessKeeps(config, store.Value(), me, option, now, card, tie);
      ValidIsCoherent(config, store);
      var pair := store.GetActivePair(me);
      if pair.None? {
        return Err(NotPaired);
      }
      var latest := store.GetLatestTurn(pair.value.id);
      LatestIsStored(config, store.Value(), pair.value.id);
      if latest.None? || latest.value.guesser != me {
        return Err(NotGuesser);
      }
      if latest.value.status != AwaitingGuess {
        return Err(WrongStatus);
      }
      var updated := store.ApplyGuess(latest.value.id, option == latest.value.card);
      if updated.value.status == Scored {
        AfterScored(updated.value, now, card, tie);
      }
      return Ok(Done);
    }
  }

  lemma ValidIsCoherent(config: Config, store: MemoryGameStore)
    requires Inv(config, store.Value())
    ensures store.Coherent()
  {
    var g := store.Value();
    hide CapOk, PairsBelow, OneActive, QueueFree, ClosedOk, JobsOk, OneOpen, NamesOk, CounterOk;
    forall i | 0 <= i < |g.pairs|
      ensures g.pairs[i].playerA < |g.players| && g.pairs[i].playerB < |g.players| && g.pairs[i].playerA != g.pairs[i].playerB
    {
      assert Compatible(g.players, g.pairs[i].playerA, g.pairs[i].playerB);
    }
    forall i: nat | i < |g.turns|
      ensures g.turns[i].pair < |g.pairs| && g.turns[i].speaker != g.turns[i].guesser
      ensures g.turns[i].speaker < |g.players| && g.turns[i].guesser < |g.players|
      ensures g.turns[i].status.Scored? || g.turns[i].outcome.Undecided?
    {
      assert SeatedAt(g, i);
      assert TurnOk(config, g.turns[i]);
    }
  }

  lemma StatsRounds(config: Config, g: Game, me: PlayerId)
    requires me < |g.players|
    ensures Board.PlayerStats(config, g, me).rounds == Rounds(g.turns, me)
  {
  }
}
