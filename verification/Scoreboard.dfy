/**
 Points, the leaderboard and ranks (app/game/memory_store.py): scores are recomputed from the
 turns, so they are conserved, and a player's rank counts the players strictly ahead.
 */
module Scoreboard {
  import opened Wrappers
  import opened Records
  import opened Sequences
  import opened Sorting
  import opened Game
  import opened GameInvariant
  import opened GameProofs
  import opened GameGuarantees

  // --------------------------------------------------------------- conservation

  function TotalWins(turns: seq<Turn>, players: nat): nat {
    if players == 0 then 0 else TotalWins(turns, players - 1) + Count(turns, WonBy(players - 1))
  }

  function TotalScore(config: Config, turns: seq<Turn>, players: nat): int {
    if players == 0 then 0 else TotalScore(config, turns, players - 1) + Score(config, turns, players - 1)
  }

  lemma {:induction false} TotalWinsOfNone(players: nat)
    ensures TotalWins([], players) == 0
  {
    if players > 0 {
      TotalWinsOfNone(players - 1);
    }
  }

  lemma {:induction false} TotalWinsStep(front: seq<Turn>, t: Turn, players: nat)
    requires t.speaker != t.guesser
    ensures TotalWins(front + [t], players) == TotalWins(front, players)
              + (if t.outcome.Validated? && t.speaker < players then 1 else 0)
              + (if t.outcome.Validated? && t.guesser < players then 1 else 0)
  {
    if players > 0 {
      TotalWinsStep(front, t, players - 1);
      CountAppend(front, t, WonBy(players - 1));
    }
  }

  /** Every validated turn is won by exactly two players. */
  lemma {:induction false} TwoWinnersEach(turns: seq<Turn>, players: nat)
    requires forall i :: 0 <= i < |turns| ==> turns[i].speaker != turns[i].guesser && turns[i].speaker < players && turns[i].guesser < players
    ensures TotalWins(turns, players) == 2 * Count(turns, Won())
  {
    if turns == [] {
      TotalWinsOfNone(players);
    } else {
      var front, last := turns[..|turns| - 1], turns[|turns| - 1];
      TwoWinnersEach(front, players);
      TotalWinsStep(front, last, players);
      CountAppend(front, last, Won());
      assert turns == front + [last];
    }
  }

  lemma {:induction false} ScoreIsWinsTimesPoints(config: Config, turns: seq<Turn>, players: nat)
    ensures TotalScore(config, turns, players) == TotalWins(turns, players) * config.points
  {
    if players > 0 {
      ScoreIsWinsTimesPoints(config, turns, players - 1);
      Distribute(TotalWins(turns, players - 1), Count(turns, WonBy(players - 1)), config.points);
    }
  }

  lemma Distribute(a: int, b: int, c: int)
    ensures (a + b) * c == a * c + b * c
  {
  }

  /** Points are neither lost nor made up: two shares for each validated turn, as many as the counter says. */
  lemma ScoreConservation(config: Config, actions: seq<Action>)
    ensures var g := After(config, actions);
            && TotalScore(config, g.turns, |g.players|) == (2 * g.validated) * config.points
            && g.validated == Count(g.turns, Won())
  {
    RunKeepsInv(config, actions);
    var g := After(config, actions);
    hide After, Count, JobsOk, CapOk, PairsBelow, OneActive, QueueFree, ClosedOk, QueueOk, TurnOk;
    forall i | 0 <= i < |g.turns|
      ensures g.turns[i].speaker != g.turns[i].guesser && g.turns[i].speaker < |g.players| && g.turns[i].guesser < |g.players|
    {
      assert SeatedAt(g, i);
      assert Compatible(g.players, g.pairs[g.turns[i].pair].playerA, g.pairs[g.turns[i].pair].playerB);
    }
    TwoWinnersEach(g.turns, |g.players|);
    ScoreIsWinsTimesPoints(config, g.turns, |g.players|);
  }

  // ----------------------------------------------------------------------- ranks

  datatype Row = Row(nickname: string, score: int)

  datatype Stats = Stats(score: int, rounds: nat, rank: Option<nat>)

  /** Score descending, then nickname in code-point order. */
  predicate Ahead(a: Row, b: Row) {
    a.score > b.score || (a.score == b.score && StringLe(a.nickname, b.nickname))
  }

  function RowOf(config: Config, g: Game, p: PlayerId): Row
    requires p < |g.players|
  {
    Row(g.players[p].nickname, Score(config, g.turns, p))
  }

  function Rows(config: Config, g: Game): seq<Row> {
    seq(|g.players|, p requires 0 <= p < |g.players| => RowOf(config, g, p))
  }

  /** `rows[:top]`: a negative bound drops that many rows from the end. */
  function UpTo<T>(s: seq<T>, top: int): (r: seq<T>)
    ensures r <= s
  {
    if top >= |s| then s
    else if top >= 0 then s[..top]
    else if |s| + top >= 0 then s[..|s| + top]
    else []
  }

  function Leaderboard(config: Config, g: Game, top: int): seq<Row> {
    UpTo(Sort(Rows(config, g), Ahead), top)
  }

  /** One-based position of the first such row. */
  function Position(board: seq<Row>, row: Row): Option<nat> {
    if board == [] then None
    else if board[0] == row then Some(1)
    else
      var rest := Position(board[1..], row);
      if rest.None? then None else Some(rest.value + 1)
  }

  const RANKED_ROWS := 10000

  function PlayerStats(config: Config, g: Game, me: PlayerId): Stats
    requires me < |g.players|
  {
    Stats(Score(config, g.turns, me), Rounds(g.turns, me), Position(Leaderboard(config, g, RANKED_ROWS), RowOf(config, g, me)))
  }

  /** A greater score, or the same score and a nickname that comes first. */
  function StrictlyAheadOf(row: Row): Row -> bool {
    (other: Row) =>
      other.score > row.score
      || (other.score == row.score && other.nickname != row.nickname && StringLe(other.nickname, row.nickname))
  }

  lemma StrictlyAheadMeans(other: Row, row: Row)
    ensures StrictlyAheadOf(row)(other) <==> other != row && Ahead(other, row)
  {
  }

  lemma AheadOrders()
    ensures Total(Ahead)
    ensures forall a, b :: Ahead(a, b) && Ahead(b, a) ==> a == b
  {
    StringOrder();
    forall a, b ensures Ahead(a, b) || Ahead(b, a) {
      assert StringLe(a.nickname, b.nickname) || StringLe(b.nickname, a.nickname);
    }
    forall a, b, c | Ahead(a, b) && Ahead(b, c) ensures Ahead(a, c) {
      assert StringLe(a.nickname, b.nickname) && StringLe(b.nickname, c.nickname) ==> StringLe(a.nickname, c.nickname);
    }
  }

  lemma {:induction false} PositionFinds(board: seq<Row>, row: Row, k: nat)
    requires k < |board| && board[k] == row && forall i :: 0 <= i < k ==> board[i] != row
    ensures Position(board, row) == Some(k + 1)
  {
    if k > 0 {
      PositionFinds(board[1..], row, k - 1);
    }
  }

  lemma {:induction false} PositionMisses(board: seq<Row>, row: Row)
    requires row !in board
    ensures Position(board, row).None?
  {
    if board != [] {
      PositionMisses(board[1..], row);
    }
  }

  lemma {:induction false} CountPrefix<T>(s: seq<T>, k: nat, counts: T -> bool)
    requires k <= |s| && forall i :: 0 <= i < |s| ==> (counts(s[i]) <==> i < k)
    ensures Count(s, counts) == k
  {
    if s != [] {
      CountPrefix(s[..|s| - 1], if k == |s| then k - 1 else k, counts);
    }
  }

  lemma {:induction false} FirstOccurrence<T>(s: seq<T>, x: T) returns (k: nat)
    requires x in s
    ensures k < |s| && s[k] == x && forall i :: 0 <= i < k ==> s[i] != x
  {
    if s[0] == x {
      k := 0;
    } else {
      var rest := FirstOccurrence(s[1..], x);
      k := rest + 1;
      assert forall i :: 0 < i < k ==> s[i] == s[1..][i - 1];
    }
  }

  /** Where a row first stands on the sorted board: after exactly the rows strictly ahead of it. */
  lemma PlaceOnBoard(rows: seq<Row>, row: Row) returns (k: nat)
    requires row in rows
    ensures |Sort(rows, Ahead)| == |rows| && k < |rows| && Sort(rows, Ahead)[k] == row
    ensures forall i :: 0 <= i < k ==> Sort(rows, Ahead)[i] != row
    ensures k == Count(rows, StrictlyAheadOf(row))
  {
    var sorted := Sort(rows, Ahead);
    AheadOrders();
    SortSorts(rows, Ahead);
    SameElements(rows, sorted, row);
    k := FirstOccurrence(sorted, row);
    hide Ahead, Sort, StrictlyAheadOf;
    forall i | 0 <= i < |sorted| ensures StrictlyAheadOf(row)(sorted[i]) <==> i < k {
      StrictlyAheadMeans(sorted[i], row);
      if i < k {
        assert Ahead(sorted[i], sorted[k]);
      } else if k < i {
        assert Ahead(sorted[k], sorted[i]);
      }
    }
    CountPrefix(sorted, k, StrictlyAheadOf(row));
    CountRearranged(rows, sorted, StrictlyAheadOf(row));
  }

  // ------------------------------------------------------------ in plain terms

  /** A visitor's numbers: points for each validated turn, and the scored turns played. */
  lemma StatsMean(config: Config, g: Game, me: PlayerId)
    requires me < |g.players|
    ensures var stats := PlayerStats(config, g, me);
            stats.score == |TurnsWon(g.turns, me)| * config.points && stats.rounds == |TurnsPlayed(g.turns, me)|
  {
    TalliesMean(config, g.turns, me);
    hide Score, Rounds, Leaderboard, Position;
  }

  /** Rows come by falling score; equal scores by nickname. */
  ghost predicate BoardOrder(board: seq<Row>) {
    forall i, j :: 0 <= i < j < |board| ==>
      || board[i].score > board[j].score
      || (board[i].score == board[j].score && Alphabetical(board[i].nickname, board[j].nickname))
  }

  /** The first `k` rows of an ordered list of one row a player. */
  ghost predicate TopOf(config: Config, g: Game, board: seq<Row>, k: nat) {
    exists all :: BoardOrder(all) && multiset(all) == multiset(Rows(config, g)) && k <= |all| && board == all[..k]
  }

  /** `rows[:top]`: a negative bound drops rows from the end. */
  function Shown(players: nat, top: int): nat {
    if top >= players then players else if top >= 0 then top else if players + top >= 0 then players + top else 0
  }

  lemma RowsSize(config: Config, g: Game)
    ensures |Rows(config, g)| == |g.players|
  {
  }

  lemma UpToIsPrefix(all: seq<Row>, top: int)
    ensures Shown(|all|, top) <= |all| && UpTo(all, top) == all[..Shown(|all|, top)]
  {
  }

  /** The board: all players by falling score and then by nickname, cut to the rows asked for. */
  lemma LeaderboardMeans(config: Config, g: Game, top: int)
    ensures BoardOrder(Leaderboard(config, g, top)) && TopOf(config, g, Leaderboard(config, g, top), Shown(|g.players|, top))
  {
    hide Sort, Rows, BoardOrder, Ordered, Ahead, UpTo, Shown;
    var rows := Rows(config, g);
    var all := Sort(rows, Ahead);
    AheadOrders();
    SortSorts(rows, Ahead);
    OrderedIsBoardOrder(all);
    RowsSize(config, g);
    UpToIsPrefix(all, top);
    PrefixInOrder(all, Shown(|g.players|, top));
  }

  lemma PrefixInOrder(all: seq<Row>, k: nat)
    requires BoardOrder(all) && k <= |all|
    ensures BoardOrder(all[..k])
  {
    hide Alphabetical;
  }

  lemma OrderedIsBoardOrder(all: seq<Row>)
    requires Ordered(all, Ahead)
    ensures BoardOrder(all)
  {
    hide StringLe, Alphabetical;
    forall i, j | 0 <= i < j < |all|
      ensures all[i].score > all[j].score || (all[i].score == all[j].score && Alphabetical(all[i].nickname, all[j].nickname))
    {
      assert Ahead(all[i], all[j]);
      StringLeIsAlphabetical(all[i].nickname, all[j].nickname);
    }
  }

  /** Everybody with a greater score, or the same score and a nickname that comes first. */
  ghost function PlayersAhead(config: Config, g: Game, me: PlayerId): set<PlayerId>
    requires me < |g.players|
  {
    set q: PlayerId | q < |g.players|
                      && var (mine, theirs) := (Score(config, g.turns, me), Score(config, g.turns, q));
                         theirs > mine
                         || (theirs == mine && g.players[q].nickname != g.players[me].nickname
                             && Alphabetical(g.players[q].nickname, g.players[me].nickname))
  }

  lemma AheadIsCounted(config: Config, g: Game, me: PlayerId)
    requires me < |g.players|
    ensures Count(Rows(config, g), StrictlyAheadOf(RowOf(config, g, me))) == |PlayersAhead(config, g, me)|
  {
    var rows, ahead := Rows(config, g), StrictlyAheadOf(RowOf(config, g, me));
    CountIsSize(rows, ahead);
    hide Score, Alphabetical, StringLe, Count;
    forall q: nat | q < |rows|
      ensures ahead(rows[q]) <==> q in PlayersAhead(config, g, me)
    {
      StringLeIsAlphabetical(g.players[q].nickname, g.players[me].nickname);
    }
    assert Hits(rows, ahead) == PlayersAhead(config, g, me);
  }

  /**
   A rank is one more than the number of players with a greater score, or the same and an earlier
   nickname; it is missing exactly when ten thousand or more are ahead.
   */
  lemma RankCountsThoseAhead(config: Config, g: Game, me: PlayerId)
    requires me < |g.players|
    ensures var ahead := |PlayersAhead(config, g, me)|;
            PlayerStats(config, g, me).rank == if ahead < 10000 then Some(ahead + 1) else None
    ensures |PlayersAhead(config, g, me)| == Count(Rows(config, g), StrictlyAheadOf(RowOf(config, g, me)))
  {
    AheadIsCounted(config, g, me);
    var row := RowOf(config, g, me);
    var rows := Rows(config, g);
    assert rows[me] == row;
    var k := PlaceOnBoard(rows, row);
    var board := Leaderboard(config, g, RANKED_ROWS);
    hide Sort, Count, RowOf, Score, PlayersAhead, StrictlyAheadOf;
    if k < RANKED_ROWS {
      PositionFinds(board, row, k);
    } else {
      assert row !in board;
      PositionMisses(board, row);
    }
  }

  /** In a reachable state no two ranked players share a rank. */
  lemma RanksDiffer(config: Config, actions: seq<Action>, p: PlayerId, q: PlayerId)
    requires p < q < |After(config, actions).players|
    ensures var g := After(config, actions);
            PlayerStats(config, g, p).rank.Some? ==> PlayerStats(config, g, p).rank != PlayerStats(config, g, q).rank
  {
    RunKeepsInv(config, actions);
    var g := After(config, actions);
    hide After;
    assert g.players[p].nickname != g.players[q].nickname;
    hide Inv;
    RankCountsThoseAhead(config, g, p);
    RankCountsThoseAhead(config, g, q);
    var rows := Rows(config, g);
    assert rows[p] == RowOf(config, g, p) && rows[q] == RowOf(config, g, q);
    var i := PlaceOnBoard(rows, RowOf(config, g, p));
    var j := PlaceOnBoard(rows, RowOf(config, g, q));
  }
}
