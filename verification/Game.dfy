/**
 The game core: matchmaking queue, pairs, alternating turns, scoring and the session cap, as
 functions on the whole store (app/game/memory_store.py, app/game/service.py).

 Players, pairs and turns are numbered in creation order.  A clock reading is an integer of
 microseconds, read once per request and never assumed to advance.  The card drawn for a new
 turn and the rank of its random identifier are chosen by the environment.
 */
module Game {
  import opened Wrappers
  import opened Records
  import opened Sequences
  import opened Sorting
  import Tables = World

  datatype Config = Config(roundsCap: int, maxGuesses: int, points: int, queueTtl: int)

  datatype Player = Player(nickname: string, native: string, common: set<string>)

  datatype Entry = Entry(player: PlayerId, since: int)

  datatype Pair = Pair(id: nat, playerA: PlayerId, playerB: PlayerId, active: bool, created: int)

  /** `tie` is the rank of the random identifier, which breaks timestamp ties. */
  datatype Turn = Turn(
    id: TurnId, pair: nat, speaker: PlayerId, guesser: PlayerId, card: nat, status: TurnStatus,
    outcome: Outcome, attempts: nat, audio: bool, quality: bool, created: int, tie: nat)

  datatype Game = Game(
    players: seq<Player>, queue: seq<Entry>, pairs: seq<Pair>, turns: seq<Turn>,
    jobs: seq<Tables.JobKey>, validated: nat)

  datatype GameError =
    | UnknownPlayer | RoundCapReached | NotPaired | NoActiveTurn | NotSpeaker | NotGuesser | WrongStatus

  datatype Reply = Queued | Matched | Accepted | ReRecord | Done

  // -------------------------------------------------------------------- players

  function Speakable(player: Player): set<string> {
    {player.native} + player.common
  }

  /** Different mother tongues and a language both can use. */
  predicate Compatible(players: seq<Player>, me: PlayerId, other: PlayerId) {
    && me < |players| && other < |players| && players[me].native != players[other].native
    && Speakable(players[me]) * Speakable(players[other]) != {}
  }

  // ---------------------------------------------------------------------- turns

  predicate Plays(t: Turn, player: PlayerId) {
    player == t.speaker || player == t.guesser
  }

  function PlayedBy(player: PlayerId): Turn -> bool {
    (t: Turn) => t.status.Scored? && Plays(t, player)
  }

  function WonBy(player: PlayerId): Turn -> bool {
    (t: Turn) => t.outcome.Validated? && Plays(t, player)
  }

  function Won(): Turn -> bool {
    (t: Turn) => t.outcome.Validated?
  }

  function OfPair(pair: nat): Turn -> bool {
    (t: Turn) => t.pair == pair
  }

  /** Scored rounds a player took part in. */
  function Rounds(turns: seq<Turn>, player: PlayerId): nat {
    Count(turns, PlayedBy(player))
  }

  function Score(config: Config, turns: seq<Turn>, player: PlayerId): int {
    Count(turns, WonBy(player)) * config.points
  }

  /** Unscored turns first, then by creation time and identifier, newest first. */
  predicate Later(a: Turn, b: Turn) {
    if a.status.Scored? != b.status.Scored? then !a.status.Scored?
    else if a.created != b.created then a.created > b.created
    else a.tie >= b.tie
  }

  function LatestTurn(turns: seq<Turn>, pair: nat): Option<Turn> {
    var found := Sort(Filter(turns, OfPair(pair)), Later);
    if found == [] then None else Some(found[0])
  }

  function SetTurn(turns: seq<Turn>, t: Turn): seq<Turn> {
    if t.id < |turns| then turns[t.id := t] else turns
  }

  function Deal(g: Game, pair: nat, speaker: PlayerId, guesser: PlayerId, card: Option<nat>, now: int, tie: nat): Game {
    if card.None? then g
    else g.(turns := g.turns + [Turn(|g.turns|, pair, speaker, guesser, card.value, AwaitingAudio, Undecided, 0, false, false, now, tie)])
  }

  function Enqueue(jobs: seq<Tables.JobKey>, key: Tables.JobKey): seq<Tables.JobKey> {
    if key in jobs then jobs else jobs + [key]
  }

  // ---------------------------------------------------------------------- pairs

  predicate Member(pair: Pair, player: PlayerId) {
    player == pair.playerA || player == pair.playerB
  }

  function ActiveWith(player: PlayerId): Pair -> bool {
    (pair: Pair) => pair.active && Member(pair, player)
  }

  predicate NewerPair(a: Pair, b: Pair) {
    a.created >= b.created
  }

  function ActivePair(pairs: seq<Pair>, player: PlayerId): Option<Pair> {
    var found := Sort(Filter(pairs, ActiveWith(player)), NewerPair);
    if found == [] then None else Some(found[0])
  }

  predicate PreviouslyPaired(pairs: seq<Pair>, a: PlayerId, b: PlayerId) {
    exists i :: 0 <= i < |pairs| && Member(pairs[i], a) && Member(pairs[i], b)
  }

  function Close(pairs: seq<Pair>, pair: nat): seq<Pair> {
    if pair < |pairs| then pairs[pair := pairs[pair].(active := false)] else pairs
  }

  // ---------------------------------------------------------------------- queue

  /** Assigning to a dictionary: a key already there keeps its place. */
  function Refresh(queue: seq<Entry>, player: PlayerId, now: int): seq<Entry> {
    if queue == [] then [Entry(player, now)]
    else if queue[0].player == player then [Entry(player, now)] + queue[1..]
    else [queue[0]] + Refresh(queue[1..], player, now)
  }

  function NotPlayer(player: PlayerId): Entry -> bool {
    (e: Entry) => e.player != player
  }

  function Leave(queue: seq<Entry>, player: PlayerId): seq<Entry> {
    Filter(queue, NotPlayer(player))
  }

  function ForPlayer(player: PlayerId): Entry -> bool {
    (e: Entry) => e.player == player
  }

  function Waiting(queue: seq<Entry>, player: PlayerId): Option<Entry> {
    First(queue, ForPlayer(player))
  }

  function Unexpired(cutoff: int, keep: PlayerId): Entry -> bool {
    (e: Entry) => e.since >= cutoff || e.player == keep
  }

  function EvictStale(queue: seq<Entry>, cutoff: int, keep: PlayerId): seq<Entry> {
    Filter(queue, Unexpired(cutoff, keep))
  }

  function ActiveOther(cutoff: int, me: PlayerId): Entry -> bool {
    (e: Entry) => e.player != me && e.since >= cutoff
  }

  predicate Earlier(a: Entry, b: Entry) {
    a.since <= b.since
  }

  function Candidates(queue: seq<Entry>, cutoff: int, me: PlayerId): seq<Entry> {
    Sort(Filter(queue, ActiveOther(cutoff, me)), Earlier)
  }

  /** Another compatible player is waiting. */
  predicate HasAlternate(players: seq<Player>, queue: seq<Entry>, cutoff: int, me: PlayerId, besides: PlayerId) {
    exists i :: 0 <= i < |queue| && queue[i].player != besides && ActiveOther(cutoff, me)(queue[i])
                && Compatible(players, me, queue[i].player)
  }

  /** The loop takes a former partner only when nobody else is compatible. */
  function Acceptable(players: seq<Player>, pairs: seq<Pair>, queue: seq<Entry>, cutoff: int, me: PlayerId): Entry -> bool {
    (e: Entry) =>
      Compatible(players, me, e.player)
      && !(PreviouslyPaired(pairs, me, e.player) && HasAlternate(players, queue, cutoff, me, e.player))
  }

  function Partner(players: seq<Player>, pairs: seq<Pair>, queue: seq<Entry>, cutoff: int, me: PlayerId): Option<Entry> {
    First(Candidates(queue, cutoff, me), Acceptable(players, pairs, queue, cutoff, me))
  }

  /** Whoever enqueued earlier is `player_a` and speaks first. */
  function PairUp(g: Game, me: Entry, other: Entry, now: int, card: Option<nat>, tie: nat): Game {
    var (a, b) := if me.since <= other.since then (me.player, other.player) else (other.player, me.player);
    var paired := g.(pairs := g.pairs + [Pair(|g.pairs|, a, b, true, now)],
                     queue := Leave(Leave(g.queue, me.player), other.player));
    Deal(paired, |g.pairs|, a, b, card, now, tie)
  }

  function TryMatch(config: Config, g: Game, me: PlayerId, now: int, card: Option<nat>, tie: nat): (Game, Option<Pair>) {
    var existing := ActivePair(g.pairs, me);
    if existing.Some? then (g, existing)
    else
      var cutoff := now - config.queueTtl;
      var queue := EvictStale(Refresh(g.queue, me, now), cutoff, me);
      var waiting := g.(queue := queue);
      match Partner(g.players, g.pairs, queue, cutoff, me)
      case None => (waiting, None)
      case Some(other) =>
        var matched := PairUp(waiting, Entry(me, now), other, now, card, tie);
        (matched, Some(matched.pairs[|g.pairs|]))
  }

  // ------------------------------------------------------------------- requests

  function RequestPair(config: Config, g: Game, me: PlayerId, now: int, card: Option<nat>, tie: nat): (Game, Result<Reply, GameError>) {
    if Rounds(g.turns, me) >= config.roundsCap then (g, Err(RoundCapReached))
    else if ActivePair(g.pairs, me).Some? then (g, Ok(Matched))
    else
      var (after, pair) := TryMatch(config, g.(queue := Refresh(g.queue, me, now)), me, now, card, tie);
      (after, Ok(if pair.Some? then Matched else Queued))
  }

  function SpeakerTurn(g: Game, me: PlayerId, expected: TurnStatus): Result<Turn, GameError> {
    match ActivePair(g.pairs, me)
    case None => Err(NotPaired)
    case Some(pair) =>
      match LatestTurn(g.turns, pair.id)
      case None => Err(NoActiveTurn)
      case Some(t) =>
        if t.speaker != me then Err(NotSpeaker)
        else if t.status != expected then Err(WrongStatus)
        else Ok(t)
  }

  /** `fits` is the size check before anything else, `accepted` the verdict on the recording. */
  function UploadAudio(g: Game, me: PlayerId, fits: bool, accepted: bool): (Game, Result<Reply, GameError>) {
    if !fits then (g, Ok(ReRecord))
    else
      match SpeakerTurn(g, me, AwaitingAudio)
      case Err(error) => (g, Err(error))
      case Ok(t) =>
        if !accepted then (g, Ok(ReRecord))
        else (g.(turns := SetTurn(g.turns, t.(audio := true, status := AwaitingLabelConfirm)),
                 jobs := Enqueue(g.jobs, Tables.JobKey(Tables.Triage, t.id))), Ok(Accepted))
  }

  function ConfirmLabel(g: Game, me: PlayerId): (Game, Result<Reply, GameError>) {
    match SpeakerTurn(g, me, AwaitingLabelConfirm)
    case Err(error) => (g, Err(error))
    case Ok(t) => (g.(turns := SetTurn(g.turns, t.(status := AwaitingGuess))), Ok(Done))
  }

  function ApplyGuess(config: Config, t: Turn, correct: bool): Turn {
    var tried := t.(attempts := t.attempts + 1);
    if correct then tried.(status := Scored, outcome := Validated)
    else if tried.attempts >= config.maxGuesses then tried.(status := Scored, outcome := Unclear)
    else tried
  }

  predicate Capped(config: Config, g: Game, pair: nat) {
    pair < |g.pairs|
    && (Rounds(g.turns, g.pairs[pair].playerA) >= config.roundsCap
        || Rounds(g.turns, g.pairs[pair].playerB) >= config.roundsCap)
  }

  function AfterScored(config: Config, g: Game, t: Turn, now: int, card: Option<nat>, tie: nat): Game {
    var queued := if t.quality then g.(jobs := Enqueue(g.jobs, Tables.JobKey(Tables.Package, t.id))) else g;
    if Capped(config, queued, t.pair) then queued.(pairs := Close(queued.pairs, t.pair))
    else Deal(queued, t.pair, t.guesser, t.speaker, card, now, tie)
  }

  function Guess(config: Config, g: Game, me: PlayerId, option: nat, now: int, card: Option<nat>, tie: nat): (Game, Result<Reply, GameError>) {
    match ActivePair(g.pairs, me)
    case None => (g, Err(NotPaired))
    case Some(pair) =>
      match LatestTurn(g.turns, pair.id)
      case None => (g, Err(NotGuesser))
      case Some(t) =>
        if t.guesser != me then (g, Err(NotGuesser))
        else if t.status != AwaitingGuess then (g, Err(WrongStatus))
        else
          var guessed := ApplyGuess(config, t, option == t.card);
          var applied := g.(turns := SetTurn(g.turns, guessed),
                            validated := g.validated + if guessed.outcome.Validated? then 1 else 0);
          (if guessed.status.Scored? then AfterScored(config, applied, guessed, now, card, tie) else applied, Ok(Done))
  }

  // ----------------------------------------------------------------------- runs

  datatype Action =
    | Join(newcomer: Player)
    | AskForPair(player: PlayerId, now: int, card: Option<nat>, tie: nat)
    | Upload(player: PlayerId, fits: bool, accepted: bool)
    | Confirm(player: PlayerId)
    | Answer(player: PlayerId, option: nat, now: int, card: Option<nat>, tie: nat)
    | StoreQuality(turn: TurnId)
    | CommitTriage(turn: TurnId)

  predicate NicknameFree(players: seq<Player>, nickname: string) {
    forall i :: 0 <= i < |players| ==> players[i].nickname != nickname
  }

  /** The worker's commit: quality is stored, and packaging is queued if the turn is already scored. */
  function Triaged(g: Game, t: TurnId): Game
    requires t < |g.turns|
  {
    g.(turns := g.turns[t := g.turns[t].(quality := true)],
       jobs := if g.turns[t].status.Scored? then Enqueue(g.jobs, Tables.JobKey(Tables.Package, t)) else g.jobs)
  }

  /** Requests of players who never joined are refused before they reach the game. */
  function Step(config: Config, g: Game, action: Action): Game {
    match action
    case Join(newcomer) =>
      if NicknameFree(g.players, newcomer.nickname) then g.(players := g.players + [newcomer]) else g
    case AskForPair(me, now, card, tie) => if me < |g.players| then RequestPair(config, g, me, now, card, tie).0 else g
    case Upload(me, fits, accepted) => if me < |g.players| then UploadAudio(g, me, fits, accepted).0 else g
    case Confirm(me) => if me < |g.players| then ConfirmLabel(g, me).0 else g
    case Answer(me, option, now, card, tie) => if me < |g.players| then Guess(config, g, me, option, now, card, tie).0 else g
    case StoreQuality(t) => if t < |g.turns| then g.(turns := g.turns[t := g.turns[t].(quality := true)]) else g
    case CommitTriage(t) => if t < |g.turns| then Triaged(g, t) else g
  }

  const EMPTY := Game([], [], [], [], [], 0)

  function After(config: Config, actions: seq<Action>): Game {
    if actions == [] then EMPTY
    else Step(config, After(config, actions[..|actions| - 1]), actions[|actions| - 1])
  }
}
