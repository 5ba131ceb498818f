/**
 The whole system: the game carries out one request at a time, statement by statement, while any number
 of workers step, claim, recover, raise and crash in between.  The game keeps the queue and the pairs,
 the database the turns and the jobs; here both are run side by side and shown to agree.
 */
module Composition {
  import opened Fingerprints
  import opened Records
  import opened Game
  import opened GameInvariant
  import opened GameProofs
  import opened GameGuarantees
  import opened GameRefinement
  import opened Pending
  import C = Convergence
  import H = History
  import I = Invariant
  import AP = ActionProofs
  import G = Guarantees
  import P = Protocol
  import Tables = World

  /** `game` is the outcome of all requests begun; `owed` are the statements the last one has yet to run. */
  datatype System = System(game: Game, owed: seq<P.Action>, state: P.State)

  /**
   A request begins, with the fingerprint of its recording if it uploads one; it runs its next statement;
   or the workers take a step.
   */
  datatype Event = Begin(action: Action, audio: AcousticFingerprint) | Proceed | Background(step: P.Action)

  const START := System(EMPTY, [], P.Initial())

  predicate ByWorkers(step: P.Action) {
    step.Work? || H.ByWorkerLife(step)
  }

  ghost predicate Possible(rules: Tables.Config, sys: System, e: Event) {
    match e
    case Begin(action, audio) => sys.owed == [] && IsRequest(action) && ValidEnvelope(audio.envelope)
    case Proceed => sys.owed != []
    case Background(step) => ByWorkers(step) && P.Enabled(rules, sys.state, step)
  }

  /** The game sees one thing the workers do: a triage commit. */
  function Seen(sys: System, step: P.Action): Game
    requires step.Work? ==> step.worker in sys.state.workers
  {
    if step.Work? && sys.state.workers[step.worker].Listening?
       && sys.state.workers[step.worker].claim.key.turn < |sys.game.turns|
    then Triaged(sys.game, sys.state.workers[step.worker].claim.key.turn)
    else sys.game
  }

  /**
   The next statement.  A continuation re-reads the quality, which a commit may have stored meanwhile,
   and goes on until it is closed.  Nothing owed is ever disabled, as `ReadyIsEnabled` shows.
   */
  ghost function Proceeded(rules: Tables.Config, sys: System): System
    requires sys.owed != []
  {
    var next := sys.owed[0];
    if P.Enabled(rules, sys.state, next) then
      var after := P.Do(rules, sys.state, next);
      System(sys.game, if next.ContinueGuess? && next.turn in after.guesses then sys.owed else sys.owed[1..], after)
    else System(sys.game, sys.owed[1..], sys.state)
  }

  ghost function Next(config: Config, rules: Tables.Config, sys: System, e: Event): System
    requires Possible(rules, sys, e)
  {
    match e
    case Begin(action, audio) => System(Step(config, sys.game, action), Script(config, sys.game, action, audio), sys.state)
    case Proceed => Proceeded(rules, sys)
    case Background(step) => System(Seen(sys, step), sys.owed, P.Do(rules, sys.state, step))
  }

  /** Every event is possible when its turn comes. */
  ghost predicate Schedule(config: Config, rules: Tables.Config, events: seq<Event>)
    decreases |events|, 0
  {
    events == [] || (Schedule(config, rules, events[..|events| - 1])
                     && Possible(rules, Played(config, rules, events[..|events| - 1]), events[|events| - 1]))
  }

  ghost function Played(config: Config, rules: Tables.Config, events: seq<Event>): System
    requires Schedule(config, rules, events)
    decreases |events|, 1
  {
    if events == [] then START
    else Next(config, rules, Played(config, rules, events[..|events| - 1]), events[|events| - 1])
  }

  // ------------------------------------------------------------------- agreement

  /** The game is what the tables will show once nothing is owed. */
  ghost predicate Foreseen(g: Game, v: View) {
    && (forall t: TurnId :: t in v.turns <==> t < |g.turns|)
    && (forall t: TurnId :: t < |g.turns| ==> SameTurn(g.turns[t], v.turns[t]))
    && (forall key :: key in v.jobs <==> key in g.jobs)
    && v.open == {}
  }

  /** Game and tables agree, both are reachable, and no continuation was ever cut off. */
  ghost predicate InStep(config: Config, rules: Tables.Config, sys: System) {
    && (exists actions :: sys.game == After(config, actions))
    && P.Reachable(rules, sys.state) && sys.state.crashedGuesses == {}
    && AllReady(rules, Viewed(sys.state), sys.owed)
    && Foreseen(sys.game, Drained(rules, Viewed(sys.state), sys.owed))
  }

  /** With nothing owed the game is what the tables show. */
  lemma AtRest(g: Game, s: P.State)
    ensures Foreseen(g, Viewed(s)) <==> Agrees(g, s)
  {
    if Foreseen(g, Viewed(s)) {
      assert s.guesses.Keys == {};
      assert s.guesses == map[];
    }
    if s.guesses == map[] {
      assert Owed(s.world.turns, s.guesses.Keys) == {};
      assert forall key :: key in s.world.jobs <==> key in Viewed(s).jobs;
    }
  }

  lemma RunOfGame(config: Config, g: Game)
    requires exists actions :: g == After(config, actions)
    ensures Inv(config, g)
  {
    var actions :| g == After(config, actions);
    RunKeepsInv(config, actions);
  }

  lemma OneMoreAction(config: Config, g: Game, action: Action)
    requires exists actions :: g == After(config, actions)
    ensures exists actions :: Step(config, g, action) == After(config, actions)
  {
    var actions :| g == After(config, actions);
    hide Step;
    assert (actions + [action])[..|actions|] == actions;
    assert After(config, actions + [action]) == Step(config, g, action);
  }

  lemma OneMoreReachable(rules: Tables.Config, s: P.State, step: P.Action)
    requires P.Reachable(rules, s) && P.Enabled(rules, s, step)
    ensures P.Reachable(rules, P.Do(rules, s, step))
  {
    hide P.Reachable, P.Enabled, P.Do;
    G.RunOne(rules, s, step, []);
    assert [step] + [] == [step];
    C.ReachableAfter(rules, s, [step]);
  }

  lemma QuietStep(rules: Tables.Config, s: P.State, action: P.Action)
    requires P.Enabled(rules, s, action) && !action.CrashGuess?
    ensures P.Do(rules, s, action).crashedGuesses == s.crashedGuesses
  {
    hide P.NextPc, P.NextWorld;
  }

  // ------------------------------------------------------------- a request begins

  /** Whatever the workers do later, the script of a request leads to its outcome. */
  lemma BeginKeepsSystem(config: Config, rules: Tables.Config, sys: System, action: Action, audio: AcousticFingerprint)
    requires InStep(config, rules, sys) && Possible(rules, sys, Begin(action, audio)) && rules.maxGuesses == config.maxGuesses
    ensures InStep(config, rules, Next(config, rules, sys, Begin(action, audio)))
  {
    hide P.Reachable, P.CanRun, P.After, Inv, I.Inv, Agrees, Foreseen, Step, Script, After, Viewed, Under;
    var script := Script(config, sys.game, action, audio);
    AtRest(sys.game, sys.state);
    RunOfGame(config, sys.game);
    AP.ReachableInv(rules, sys.state);
    RequestIsProtocolRun(config, rules, sys.state, sys.game, action, audio);
    assert Under(Viewed(sys.state), Viewed(sys.state)) by {
      UnderItself(Viewed(sys.state));
    }
    RunSeen(rules, sys.state, script, Viewed(sys.state));
    AtRest(Step(config, sys.game, action), P.After(rules, sys.state, script));
    UnderForeseen(Step(config, sys.game, action), Drained(rules, Viewed(sys.state), script), Viewed(P.After(rules, sys.state, script)));
    OneMoreAction(config, sys.game, action);
  }

  lemma UnderItself(v: View)
    ensures Under(v, v)
  {
  }

  lemma UnderForeseen(g: Game, v: View, w: View)
    requires Under(v, w) && Foreseen(g, w)
    ensures Foreseen(g, v)
  {
  }

  // ------------------------------------------------------------ its next statement

  /** What is ready in the view can run, unless it is a continuation that is already closed. */
  lemma ReadyIsEnabled(rules: Tables.Config, s: P.State, action: P.Action)
    requires Ready(rules, Viewed(s), action)
    ensures P.Enabled(rules, s, action) <==> action.ContinueGuess? ==> action.turn in s.guesses
  {
  }

  lemma ClosedContinues(rules: Tables.Config, v: View, t: TurnId)
    requires t !in v.open
    ensures NextView(rules, v, P.ContinueGuess(t)) == v
  {
    assert v.open - {t} == v.open;
  }

  lemma ProceedKeepsSystem(config: Config, rules: Tables.Config, sys: System)
    requires InStep(config, rules, sys) && sys.owed != []
    ensures InStep(config, rules, Proceeded(rules, sys))
  {
    AP.ReachableInv(rules, sys.state);
    assert I.GuessesOk(sys.state.world.turns, sys.state.guesses);
    hide P.Reachable, I.Inv, I.GuessesOk, Foreseen, After, Viewed, NextView, Ready, P.Do, P.Enabled;
    var next := sys.owed[0];
    ReadyByGame(rules, Viewed(sys.state), next);
    ReadyIsEnabled(rules, sys.state, next);
    if P.Enabled(rules, sys.state, next) {
      StepSeen(rules, sys.state, next);
      OneMoreReachable(rules, sys.state, next);
      QuietStep(rules, sys.state, next);
    } else {
      assert Viewed(sys.state).open == sys.state.guesses.Keys by {
        OpenIsGuesses(sys.state);
      }
      ClosedContinues(rules, Viewed(sys.state), next.turn);
    }
  }

  lemma OpenIsGuesses(s: P.State)
    ensures Viewed(s).open == s.guesses.Keys
  {
  }

  lemma ReadyByGame(rules: Tables.Config, v: View, action: P.Action)
    requires Ready(rules, v, action)
    ensures ByGame(action)
  {
  }

  /** How much of the request is left; workers cannot add to it. */
  function Remaining(sys: System): nat {
    3 * |sys.owed|
    + if sys.owed != [] && sys.owed[0].ContinueGuess? && sys.owed[0].turn in sys.state.guesses
      then (if sys.state.guesses[sys.owed[0].turn].RereadQuality? then 2 else 1) else 0
  }

  /** A request always gets on: each of its own steps leaves less to do, and no worker step leaves more. */
  lemma RequestsEnd(config: Config, rules: Tables.Config, sys: System, step: P.Action)
    requires InStep(config, rules, sys)
    ensures sys.owed != [] ==> Remaining(Proceeded(rules, sys)) < Remaining(sys)
    ensures Possible(rules, sys, Background(step)) ==>
              Remaining(Next(config, rules, sys, Background(step))) == Remaining(sys)
  {
    hide P.Reachable, Foreseen, After, Viewed, NextView, AllReady;
    if sys.owed != [] && sys.owed[0].ContinueGuess? && P.Enabled(rules, sys.state, sys.owed[0]) {
      ContinueAdvances(rules, sys.state, sys.owed[0].turn);
    }
    if Possible(rules, sys, Background(step)) {
      WorkersLeaveGuesses(rules, sys.state, step);
    }
    hide P.Do;
  }

  lemma ContinueAdvances(rules: Tables.Config, s: P.State, t: TurnId)
    requires t in s.guesses
    ensures var after := P.Do(rules, s, P.ContinueGuess(t));
            t in after.guesses ==> s.guesses[t].RereadQuality? && after.guesses[t].EnqueuePackage?
  {
    hide P.WorkStep;
  }

  lemma WorkersLeaveGuesses(rules: Tables.Config, s: P.State, step: P.Action)
    requires ByWorkers(step) && P.Enabled(rules, s, step)
    ensures P.Do(rules, s, step).guesses == s.guesses
  {
    if step.Work? {
      H.WorkShape(rules, s, step.worker, step.input);
    } else {
      H.LifeShape(rules, s, step);
    }
    hide P.Do, P.Enabled;
  }

  // ---------------------------------------------------------------- a worker step

  /** A triage commit in the tables is one in what the tables will show. */
  lemma CommitForeseen(g: Game, v: View, t: TurnId, quality: Quality)
    requires Foreseen(g, v) && t in v.turns
    ensures t < |g.turns| && Foreseen(Triaged(g, t), Committed(v, t, quality))
  {
  }

  lemma WorkAgrees(rules: Tables.Config, sys: System, w: P.WorkerId, input: P.Input)
    requires I.Inv(rules, sys.state) && P.Enabled(rules, sys.state, P.Work(w, input))
    requires AllReady(rules, Viewed(sys.state), sys.owed) && Foreseen(sys.game, Drained(rules, Viewed(sys.state), sys.owed))
    ensures var after := P.Do(rules, sys.state, P.Work(w, input));
            AllReady(rules, Viewed(after), sys.owed) && Foreseen(Seen(sys, P.Work(w, input)), Drained(rules, Viewed(after), sys.owed))
  {
    hide I.Inv, P.Do, P.NextWorld, P.NextPc, Foreseen, AllReady, Drained, Committed, Owed, Triaged;
    var pc := sys.state.workers[w];
    if pc.Listening? {
      var quality := CommitSeen(rules, sys.state, w, input);
      CommitDrained(rules, Viewed(sys.state), pc.claim.key.turn, quality, sys.owed);
      CommitForeseen(sys.game, Drained(rules, Viewed(sys.state), sys.owed), pc.claim.key.turn, quality);
    } else {
      H.WorkShape(rules, sys.state, w, input);
      H.OtherWork(rules, sys.state.world, pc, input);
    }
  }

  lemma SeenIsGameStep(config: Config, sys: System, step: P.Action)
    requires step.Work? ==> step.worker in sys.state.workers
    requires exists actions :: sys.game == After(config, actions)
    ensures exists actions :: Seen(sys, step) == After(config, actions)
  {
    hide After;
    if Seen(sys, step) != sys.game {
      OneMoreAction(config, sys.game, CommitTriage(sys.state.workers[step.worker].claim.key.turn));
    }
  }

  lemma LifeIsUnseen(rules: Tables.Config, s: P.State, step: P.Action)
    requires H.ByWorkerLife(step) && P.Enabled(rules, s, step)
    ensures Viewed(P.Do(rules, s, step)) == Viewed(s)
  {
    H.LifeShape(rules, s, step);
    hide P.Do, P.Enabled;
  }

  lemma BackgroundKeepsSystem(config: Config, rules: Tables.Config, sys: System, step: P.Action)
    requires InStep(config, rules, sys) && ByWorkers(step) && P.Enabled(rules, sys.state, step)
    ensures InStep(config, rules, Next(config, rules, sys, Background(step)))
  {
    hide P.Reachable, P.Do, Seen, After, Viewed, Drained, AllReady, Foreseen, I.Inv;
    AP.ReachableInv(rules, sys.state);
    if step.Work? {
      WorkAgrees(rules, sys, step.worker, step.input);
    } else {
      LifeIsUnseen(rules, sys.state, step);
      assert Seen(sys, step) == sys.game by {
        SeenOnlyWork(sys, step);
      }
    }
    QuietStep(rules, sys.state, step);
    SeenIsGameStep(config, sys, step);
    OneMoreReachable(rules, sys.state, step);
  }

  lemma SeenOnlyWork(sys: System, step: P.Action)
    requires !step.Work?
    ensures Seen(sys, step) == sys.game
  {
  }

  // --------------------------------------------------------------- all schedules

  /**
   Under every interleaving of the statements of requests with the workers, the game is a run of the
   game, the tables a run of the protocol, and what is owed leads the tables to the game.
   */
  lemma {:induction false} SystemStaysInStep(config: Config, rules: Tables.Config, events: seq<Event>)
    requires Schedule(config, rules, events) && rules.maxGuesses == config.maxGuesses
    ensures var sys := Played(config, rules, events);
            InStep(config, rules, sys) && (sys.owed == [] ==> Agrees(sys.game, sys.state))
    decreases |events|
  {
    if events == [] {
      assert EMPTY == After(config, []);
      assert P.CanRun(rules, P.Initial(), []) && P.After(rules, P.Initial(), []) == P.Initial();
      AtRest(EMPTY, P.Initial());
    } else {
      var before, last := events[..|events| - 1], events[|events| - 1];
      SystemStaysInStep(config, rules, before);
      var sys := Played(config, rules, before);
      hide InStep, Next, P.Enabled, IsRequest, ByWorkers, Agrees;
      match last {
        case Begin(action, audio) => BeginKeepsSystem(config, rules, sys, action, audio);
        case Proceed =>
          ProceedKeepsSystem(config, rules, sys);
          NextProceed(config, rules, sys);
        case Background(step) => BackgroundKeepsSystem(config, rules, sys, step);
      }
      RestAgrees(config, rules, Played(config, rules, events));
    }
  }

  lemma NextProceed(config: Config, rules: Tables.Config, sys: System)
    requires sys.owed != []
    ensures Next(config, rules, sys, Proceed) == Proceeded(rules, sys)
  {
  }

  lemma RestAgrees(config: Config, rules: Tables.Config, sys: System)
    requires InStep(config, rules, sys)
    ensures sys.owed == [] ==> Agrees(sys.game, sys.state)
  {
    hide Foreseen, Agrees, Viewed, P.Reachable, After;
    AtRest(sys.game, sys.state);
  }

  // ------------------------------------------------------------------ what follows

  /** A row of the tables is the game's turn, or still on its way there; scored rows are the game's. */
  predicate OnItsWay(row: Tables.Turn, t: Turn) {
    && row.speaker == t.speaker && row.quality.Some? == t.quality && row.attempts <= t.attempts
    && (row.audio.Some? ==> t.audio) && (row.status.Scored? ==> SameTurn(t, row))
  }

  lemma RowsOnTheirWay(rules: Tables.Config, g: Game, v: View, owed: seq<P.Action>, t: TurnId)
    requires AllReady(rules, v, owed) && Foreseen(g, Drained(rules, v, owed)) && I.TurnsOk(v.turns) && t in v.turns
    ensures t < |g.turns| && OnItsWay(v.turns[t], g.turns[t])
  {
    DrainedBehind(rules, v, owed);
    hide AllReady, Drained, I.TurnsOk;
    var later := Drained(rules, v, owed);
    assert Behind(v.turns[t], later.turns[t]) && SameTurn(g.turns[t], later.turns[t]);
  }

  /**
   The cap and the chain of turns hold for the game beside any number of workers, and every row that
   the workers read, also in the middle of a request, is one of those turns on its way.
   */
  lemma SystemKeepsCapAndChain(config: Config, rules: Tables.Config, events: seq<Event>)
    requires Schedule(config, rules, events) && rules.maxGuesses == config.maxGuesses
    ensures var sys := Played(config, rules, events);
            && SessionsCapped(config, sys.game) && Chained(sys.game)
            && forall t: TurnId :: t in sys.state.world.turns ==>
                 t < |sys.game.turns| && OnItsWay(sys.state.world.turns[t], sys.game.turns[t])
  {
    SystemStaysInStep(config, rules, events);
    var sys := Played(config, rules, events);
    hide Played, SessionsCapped, Chained, After, P.Reachable, Foreseen, AllReady, Drained, Agrees, OnItsWay;
    AP.ReachableInv(rules, sys.state);
    assert I.TurnsOk(sys.state.world.turns);
    hide I.Inv, I.TurnsOk;
    forall t | t in sys.state.world.turns ensures t < |sys.game.turns| && OnItsWay(sys.state.world.turns[t], sys.game.turns[t]) {
      RowsOnTheirWay(rules, sys.game, Viewed(sys.state), sys.owed, t);
    }
    var actions :| sys.game == After(config, actions);
    SessionCap(config, actions);
    TurnChain(config, actions);
  }

  /**
   The rendezvous, whichever of scoring and the triage commit comes second and wherever in the request
   the commit falls: a complete turn has its package job, or the request still owes the continuation
   that queues it; with nothing owed, jobs and complete turns coincide.
   */
  lemma SystemPackagesExactly(config: Config, rules: Tables.Config, events: seq<Event>, t: TurnId)
    requires Schedule(config, rules, events) && rules.maxGuesses == config.maxGuesses
    ensures var sys := Played(config, rules, events);
            var queued := Tables.JobKey(Tables.Package, t) in sys.state.world.jobs;
            && (queued ==> I.ReadyToPackage(sys.state.world.turns, t))
            && (I.ReadyToPackage(sys.state.world.turns, t) ==> queued || P.ContinueGuess(t) in sys.owed)
            && (sys.owed == [] ==> (queued <==> I.ReadyToPackage(sys.state.world.turns, t)))
  {
    SystemStaysInStep(config, rules, events);
    var sys := Played(config, rules, events);
    hide Played, P.Reachable, After, NextView, Agrees, I.ReadyToPackage;
    G.PackagingIsNotLost(rules, sys.state, t);
    if t in sys.state.guesses {
      OpenIsContinued(rules, Viewed(sys.state), sys.owed, t);
    }
  }
}
