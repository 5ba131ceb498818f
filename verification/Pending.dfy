/**
 Requests half-way: what the tables will show once the statements a request still owes have run, and
 why a triage commit may come before, between or after them (app/game/service.py, worker/repository.py).
 */
module Pending {
  import opened Wrappers
  import opened Records
  import opened GameRefinement
  import H = History
  import I = Invariant
  import AP = ActionProofs
  import P = Protocol
  import Tables = World

  /** Turn rows, job keys and open continuations; a package job counts once its continuation is bound to queue it. */
  datatype View = View(turns: map<TurnId, Tables.Turn>, jobs: set<Tables.JobKey>, open: set<TurnId>)

  function Owed(turns: map<TurnId, Tables.Turn>, open: set<TurnId>): set<Tables.JobKey> {
    set t | t in open && t in turns && turns[t].quality.Some? :: Tables.JobKey(Tables.Package, t)
  }

  function Viewed(s: P.State): View {
    View(s.world.turns, s.world.jobs.Keys + Owed(s.world.turns, s.guesses.Keys), s.guesses.Keys)
  }

  /** The rows alone decide whether a statement of the game can run and what it does to them. */
  function Bare(turns: map<TurnId, Tables.Turn>): P.State {
    P.Initial().(world := P.Initial().world.(turns := turns))
  }

  /** A continuation whose turn is not open has nothing left to do. */
  ghost predicate Ready(rules: Tables.Config, v: View, action: P.Action) {
    ByGame(action) && (action.ContinueGuess? || P.Enabled(rules, Bare(v.turns), action))
  }

  predicate Scores(turns: map<TurnId, Tables.Turn>, t: TurnId) {
    t in turns && turns[t].status.Scored?
  }

  function NextView(rules: Tables.Config, v: View, action: P.Action): View {
    var turns := P.GameStep(rules, Bare(v.turns), action).world.turns;
    match action
    case EnqueueTriage(t) => View(turns, v.jobs + {Tables.JobKey(Tables.Triage, t)}, v.open)
    case ApplyGuess(t, _) =>
      if Scores(turns, t) then View(turns, v.jobs + Owed(turns, {t}), v.open + {t}) else View(turns, v.jobs, v.open)
    case ContinueGuess(t) => View(turns, v.jobs, v.open - {t})
    case _ => View(turns, v.jobs, v.open)
  }

  ghost predicate AllReady(rules: Tables.Config, v: View, run: seq<P.Action>)
    decreases |run|
  {
    run == [] || (Ready(rules, v, run[0]) && AllReady(rules, NextView(rules, v, run[0]), run[1..]))
  }

  function Drained(rules: Tables.Config, v: View, run: seq<P.Action>): View
    decreases |run|
  {
    if run == [] then v else Drained(rules, NextView(rules, v, run[0]), run[1..])
  }

  // --------------------------------------------------------- a statement that runs

  /** What a statement does to the view; a continuation with quality to report takes several steps. */
  lemma StepSeen(rules: Tables.Config, s: P.State, action: P.Action)
    requires I.GuessesOk(s.world.turns, s.guesses) && ByGame(action) && P.Enabled(rules, s, action)
    ensures Ready(rules, Viewed(s), action)
    ensures var after := P.Do(rules, s, action);
            if action.ContinueGuess? && action.turn in after.guesses then Viewed(after) == Viewed(s)
            else Viewed(after) == NextView(rules, Viewed(s), action)
  {
    if action.CreateTurn? || action.AcceptAudio? || action.ConfirmLabel? {
      RowSeen(rules, s, action);
    } else if action.ApplyGuess? {
      GuessSeen(rules, s, action.turn, action.correct);
    } else if action.ContinueGuess? {
      ContinueSeen(rules, s, action.turn);
    } else {
      QueueSeen(rules, s, action.turn);
    }
    hide P.Do, P.GameStep, Owed, P.Guessed;
  }

  lemma RowSeen(rules: Tables.Config, s: P.State, action: P.Action)
    requires I.GuessesOk(s.world.turns, s.guesses) && P.Enabled(rules, s, action)
    requires action.CreateTurn? || action.AcceptAudio? || action.ConfirmLabel?
    ensures Viewed(P.Do(rules, s, action)) == NextView(rules, Viewed(s), action)
  {
    var after := P.Do(rules, s, action);
    forall t | t in s.guesses ensures t in after.world.turns && after.world.turns[t] == s.world.turns[t] {
    }
    assert Owed(after.world.turns, after.guesses.Keys) == Owed(s.world.turns, s.guesses.Keys);
  }

  lemma QueueSeen(rules: Tables.Config, s: P.State, t: TurnId)
    requires P.Enabled(rules, s, P.EnqueueTriage(t))
    ensures Viewed(P.Do(rules, s, P.EnqueueTriage(t))) == NextView(rules, Viewed(s), P.EnqueueTriage(t))
  {
    var after := P.Do(rules, s, P.EnqueueTriage(t));
    assert after.world.jobs.Keys == s.world.jobs.Keys + {Tables.JobKey(Tables.Triage, t)};
  }

  lemma GuessOnTables(rules: Tables.Config, s: P.State, t: TurnId, correct: bool)
    requires P.Enabled(rules, s, P.ApplyGuess(t, correct))
    ensures var after := P.Do(rules, s, P.ApplyGuess(t, correct));
            && after.world == s.world.(turns := s.world.turns[t := P.Guessed(rules, s.world.turns[t], correct)])
            && after.guesses.Keys == if Scores(after.world.turns, t) then s.guesses.Keys + {t} else s.guesses.Keys
  {
    hide P.WorkStep, P.Guessed;
  }

  lemma GuessOnView(rules: Tables.Config, v: View, t: TurnId, correct: bool)
    requires t in v.turns
    ensures var turns := v.turns[t := P.Guessed(rules, v.turns[t], correct)];
            NextView(rules, v, P.ApplyGuess(t, correct)) ==
            if Scores(turns, t) then View(turns, v.jobs + Owed(turns, {t}), v.open + {t}) else View(turns, v.jobs, v.open)
  {
    hide P.Guessed, Owed;
  }

  lemma OwedReads(turns: map<TurnId, Tables.Turn>, after: map<TurnId, Tables.Turn>, open: set<TurnId>)
    requires forall t :: t in open ==> t in turns && t in after && after[t] == turns[t]
    ensures Owed(after, open) == Owed(turns, open)
  {
  }

  lemma GuessSeen(rules: Tables.Config, s: P.State, t: TurnId, correct: bool)
    requires I.GuessesOk(s.world.turns, s.guesses) && P.Enabled(rules, s, P.ApplyGuess(t, correct))
    ensures Viewed(P.Do(rules, s, P.ApplyGuess(t, correct))) == NextView(rules, Viewed(s), P.ApplyGuess(t, correct))
  {
    GuessOnTables(rules, s, t, correct);
    GuessOnView(rules, Viewed(s), t, correct);
    hide P.Do, P.Guessed, Owed, NextView;
    var after := P.Do(rules, s, P.ApplyGuess(t, correct));
    assert t !in s.guesses;
    OwedJoins(after.world.turns, s.guesses.Keys, {t});
    OwedReads(s.world.turns, after.world.turns, s.guesses.Keys);
  }

  lemma OwedJoins(turns: map<TurnId, Tables.Turn>, open: set<TurnId>, more: set<TurnId>)
    ensures Owed(turns, open + more) == Owed(turns, open) + Owed(turns, more)
  {
  }

  lemma ContinueEffect(rules: Tables.Config, s: P.State, t: TurnId)
    requires I.GuessesOk(s.world.turns, s.guesses) && t in s.guesses
    ensures var after := P.Do(rules, s, P.ContinueGuess(t));
            && after.world.turns == s.world.turns
            && if t in after.guesses then after.guesses.Keys == s.guesses.Keys && after.world.jobs == s.world.jobs
               else after.guesses.Keys == s.guesses.Keys - {t}
                    && after.world.jobs.Keys == s.world.jobs.Keys + (if s.guesses[t].EnqueuePackage? then Owed(s.world.turns, {t}) else {})
                    && (!s.guesses[t].EnqueuePackage? ==> Owed(s.world.turns, {t}) == {})
  {
    hide P.WorkStep, P.Guessed;
    if s.guesses[t].EnqueuePackage? {
      assert Owed(s.world.turns, {t}) == {Tables.JobKey(Tables.Package, t)};
    }
  }

  lemma ContinueSeen(rules: Tables.Config, s: P.State, t: TurnId)
    requires I.GuessesOk(s.world.turns, s.guesses) && t in s.guesses
    ensures var after := P.Do(rules, s, P.ContinueGuess(t));
            if t in after.guesses then Viewed(after) == Viewed(s)
            else Viewed(after) == NextView(rules, Viewed(s), P.ContinueGuess(t))
  {
    ContinueEffect(rules, s, t);
    hide P.Do, Owed, I.GuessesOk;
    assert s.guesses.Keys == (s.guesses.Keys - {t}) + {t};
    OwedJoins(s.world.turns, s.guesses.Keys - {t}, {t});
  }

  /** Two views that differ in open continuations at most. */
  predicate Under(v: View, w: View) {
    v.turns == w.turns && v.jobs == w.jobs && v.open <= w.open
  }

  lemma NextUnder(rules: Tables.Config, v: View, w: View, action: P.Action)
    requires Under(v, w)
    ensures Under(NextView(rules, v, action), NextView(rules, w, action))
    ensures action.ContinueGuess? ==> Under(NextView(rules, v, action), w)
    ensures Ready(rules, v, action) <==> Ready(rules, w, action)
  {
    hide P.Guessed, Owed;
  }

  /** A run of the game's statements is foreseen by the view it starts from. */
  lemma {:induction false} RunSeen(rules: Tables.Config, s: P.State, run: seq<P.Action>, v: View)
    requires I.Inv(rules, s) && P.CanRun(rules, s, run) && forall i :: 0 <= i < |run| ==> ByGame(run[i])
    requires Under(v, Viewed(s))
    ensures AllReady(rules, v, run) && Under(Drained(rules, v, run), Viewed(P.After(rules, s, run)))
    decreases |run|
  {
    hide I.TablesOk, I.WorkersOk, I.LockOk, I.CriticalOk, I.CountersOk;
    if run != [] {
      StepSeen(rules, s, run[0]);
      NextUnder(rules, v, Viewed(s), run[0]);
      AP.DoKeepsInv(rules, s, run[0]);
      hide I.Inv, P.Do, P.Enabled, NextView, Ready, Viewed, P.GameStep;
      RunSeen(rules, P.Do(rules, s, run[0]), run[1..], NextView(rules, v, run[0]));
    }
  }

  // ------------------------------------------------------ a commit in between

  /** A triage commit on `t`: quality is stored, and the package job queued if the turn is scored. */
  function Committed(v: View, t: TurnId, quality: Quality): View
    requires t in v.turns
  {
    View(v.turns[t := v.turns[t].(quality := Some(quality))],
         if Scores(v.turns, t) then v.jobs + {Tables.JobKey(Tables.Package, t)} else v.jobs, v.open)
  }

  /** It does not matter on which side of one statement the commit comes. */
  lemma CommitPasses(rules: Tables.Config, v: View, t: TurnId, quality: Quality, action: P.Action)
    requires t in v.turns && Ready(rules, v, action)
    ensures Ready(rules, Committed(v, t, quality), action)
    ensures var next := NextView(rules, v, action);
            t in next.turns && NextView(rules, Committed(v, t, quality), action) == Committed(next, t, quality)
  {
    hide NextView, Committed;
    if action.turn != t {
      CommitPassesElsewhere(rules, v, t, quality, action);
    } else if action.ApplyGuess? {
      CommitPassesGuess(rules, v, t, quality, action.correct);
    } else {
      CommitPassesHere(rules, v, t, quality, action);
    }
  }

  lemma CommitPassesGuess(rules: Tables.Config, v: View, t: TurnId, quality: Quality, correct: bool)
    requires t in v.turns && Ready(rules, v, P.ApplyGuess(t, correct))
    ensures Ready(rules, Committed(v, t, quality), P.ApplyGuess(t, correct))
    ensures var next := NextView(rules, v, P.ApplyGuess(t, correct));
            t in next.turns && NextView(rules, Committed(v, t, quality), P.ApplyGuess(t, correct)) == Committed(next, t, quality)
  {
    var row := P.Guessed(rules, v.turns[t], correct);
    var row' := P.Guessed(rules, v.turns[t].(quality := Some(quality)), correct);
    assert row' == row.(quality := Some(quality));
    assert v.turns[t := row][t := row'] == v.turns[t := v.turns[t].(quality := Some(quality))][t := row'];
    assert Owed(v.turns[t := row'], {t}) == {Tables.JobKey(Tables.Package, t)};
    assert Owed(v.turns[t := row], {t}) <= {Tables.JobKey(Tables.Package, t)};
  }

  /** A statement on another turn leaves the row of `t`, and takes no notice of it. */
  lemma OtherRows(rules: Tables.Config, turns: map<TurnId, Tables.Turn>, t: TurnId, row: Tables.Turn, action: P.Action)
    requires t in turns && ByGame(action) && action.turn != t
    ensures var next := P.GameStep(rules, Bare(turns), action).world.turns;
            t in next && next[t] == turns[t] && P.GameStep(rules, Bare(turns[t := row]), action).world.turns == next[t := row]
  {
    hide P.Guessed;
    var next := P.GameStep(rules, Bare(turns), action).world.turns;
    assert P.GameStep(rules, Bare(turns[t := row]), action).world.turns == next[t := row];
  }

  lemma OwedElsewhere(turns: map<TurnId, Tables.Turn>, t: TurnId, row: Tables.Turn, u: TurnId)
    requires t != u
    ensures Owed(turns[t := row], {u}) == Owed(turns, {u})
  {
  }

  lemma CommitPassesElsewhere(rules: Tables.Config, v: View, t: TurnId, quality: Quality, action: P.Action)
    requires t in v.turns && Ready(rules, v, action) && action.turn != t
    ensures Ready(rules, Committed(v, t, quality), action)
    ensures var next := NextView(rules, v, action);
            t in next.turns && NextView(rules, Committed(v, t, quality), action) == Committed(next, t, quality)
  {
    OtherRows(rules, v.turns, t, v.turns[t].(quality := Some(quality)), action);
    var next := NextView(rules, v, action);
    OwedElsewhere(next.turns, t, next.turns[t].(quality := Some(quality)), action.turn);
    hide P.GameStep, P.Do, Owed;
  }

  lemma CommitPassesHere(rules: Tables.Config, v: View, t: TurnId, quality: Quality, action: P.Action)
    requires t in v.turns && Ready(rules, v, action) && action.turn == t && !action.ApplyGuess?
    ensures Ready(rules, Committed(v, t, quality), action)
    ensures var next := NextView(rules, v, action);
            t in next.turns && NextView(rules, Committed(v, t, quality), action) == Committed(next, t, quality)
  {
    hide Owed, P.Guessed;
    var next := NextView(rules, v, action);
    assert NextView(rules, Committed(v, t, quality), action).turns == Committed(next, t, quality).turns;
  }

  lemma {:induction false} CommitDrained(rules: Tables.Config, v: View, t: TurnId, quality: Quality, run: seq<P.Action>)
    requires t in v.turns && AllReady(rules, v, run)
    ensures AllReady(rules, Committed(v, t, quality), run) && t in Drained(rules, v, run).turns
    ensures Drained(rules, Committed(v, t, quality), run) == Committed(Drained(rules, v, run), t, quality)
    decreases |run|
  {
    hide NextView, Ready, Committed;
    if run != [] {
      CommitPasses(rules, v, t, quality, run[0]);
      CommitDrained(rules, NextView(rules, v, run[0]), t, quality, run[1..]);
    }
  }

  /** The commit of a listening worker is a commit on the view. */
  lemma CommitSeen(rules: Tables.Config, s: P.State, w: P.WorkerId, input: P.Input) returns (quality: Quality)
    requires I.Inv(rules, s) && P.Enabled(rules, s, P.Work(w, input)) && s.workers[w].Listening?
    ensures var t := s.workers[w].claim.key.turn;
            t in s.world.turns && Viewed(P.Do(rules, s, P.Work(w, input))) == Committed(Viewed(s), t, quality)
  {
    hide P.Do, P.NextPc, P.NextWorld, I.TablesOk, I.LockOk, I.CriticalOk, I.CountersOk, I.NoneLost;
    var t := s.workers[w].claim.key.turn;
    H.WorkShape(rules, s, w, input);
    H.ListenerKnowsTurn(rules, s, w);
    H.CommitWork(rules, s.world, s.workers[w], input);
    var after := P.NextWorld(rules, s.world, s.workers[w], input);
    quality := after.turns[t].quality.value;
    KeysAfterCommit(s.world.jobs, after.jobs, s.world.turns[t].status, t);
    OwedAfterCommit(s.world.turns, s.guesses.Keys, t, quality);
  }

  lemma KeysAfterCommit(jobs: map<Tables.JobKey, Tables.Job>, after: map<Tables.JobKey, Tables.Job>, status: TurnStatus, t: TurnId)
    requires after == if status == Scored then Tables.Enqueue(jobs, Tables.JobKey(Tables.Package, t)) else jobs
    ensures after.Keys == if status == Scored then jobs.Keys + {Tables.JobKey(Tables.Package, t)} else jobs.Keys
  {
  }

  lemma OwedAfterCommit(turns: map<TurnId, Tables.Turn>, open: set<TurnId>, t: TurnId, quality: Quality)
    requires t in turns
    ensures var after := turns[t := turns[t].(quality := Some(quality))];
            Owed(after, open) == if t in open then Owed(turns, open) + {Tables.JobKey(Tables.Package, t)} else Owed(turns, open)
  {
    var after := turns[t := turns[t].(quality := Some(quality))];
    if t in open {
      assert open == (open - {t}) + {t};
      OwedJoins(turns, open - {t}, {t});
      OwedJoins(after, open - {t}, {t});
      assert Owed(after, open - {t}) == Owed(turns, open - {t});
      assert Owed(after, {t}) == {Tables.JobKey(Tables.Package, t)};
      assert Owed(turns, {t}) <= {Tables.JobKey(Tables.Package, t)};
    }
  }

  // ------------------------------------------------------------- rows stay behind

  /** A row as it is and as it will be: it only moves on, and what is scored stays. */
  predicate Behind(row: Tables.Turn, later: Tables.Turn) {
    && row.speaker == later.speaker && row.quality == later.quality && row.attempts <= later.attempts
    && (row.audio.Some? ==> later.audio == row.audio)
    && (row.status.Scored? ==> later == row)
  }

  ghost predicate AllBehind(turns: map<TurnId, Tables.Turn>, later: map<TurnId, Tables.Turn>) {
    forall t :: t in turns ==> t in later && Behind(turns[t], later[t])
  }

  lemma StepBehind(rules: Tables.Config, v: View, action: P.Action)
    requires Ready(rules, v, action) && I.TurnsOk(v.turns)
    ensures AllBehind(v.turns, NextView(rules, v, action).turns) && I.TurnsOk(NextView(rules, v, action).turns)
  {
    hide Owed;
  }

  lemma {:induction false} DrainedBehind(rules: Tables.Config, v: View, run: seq<P.Action>)
    requires AllReady(rules, v, run) && I.TurnsOk(v.turns)
    ensures AllBehind(v.turns, Drained(rules, v, run).turns)
    decreases |run|
  {
    hide NextView, Ready, I.TurnsOk;
    if run != [] {
      StepBehind(rules, v, run[0]);
      DrainedBehind(rules, NextView(rules, v, run[0]), run[1..]);
    }
  }

  /** Only its continuation closes an open turn. */
  lemma {:induction false} OpenIsContinued(rules: Tables.Config, v: View, run: seq<P.Action>, t: TurnId)
    requires t in v.open && t !in Drained(rules, v, run).open
    ensures P.ContinueGuess(t) in run
    decreases |run|
  {
    hide P.GameStep, Owed;
    if run[0] != P.ContinueGuess(t) {
      OpenIsContinued(rules, NextView(rules, v, run[0]), run[1..], t);
    }
  }
}
