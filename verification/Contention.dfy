/**
 Any number of callers in the retry loop of one model gate (app/gemini_client.py).  A caller that
 finds no permit is suspended; the gate's lock makes one acquisition of the window a single step.
 */
module Contention {
  import opened Sequences
  import opened RateGate

  type CallerId = nat

  /** Where a caller stands; the number is its current attempt. */
  datatype Phase =
    | Suspended(attempt: nat)
    | InGate(attempt: nat)
    | Calling(attempt: nat)
    | BackingOff(attempt: nat)
    | Returned(attempts: nat, ok: bool)

  datatype Limits = Limits(permits: nat, rpm: nat, maxRetries: int)

  datatype State = State(permits: int, callers: map<CallerId, Phase>, gate: Gate, rows: seq<(CallerId, Entry)>)

  datatype Event =
    | Arrive(caller: CallerId)
    | TakePermit(caller: CallerId)
    | Stamp(caller: CallerId, readings: Readings)
    | Finish(caller: CallerId, outcome: Outcome)
    | Retry(caller: CallerId)

  /** Between taking a permit and giving it back, backoff included. */
  predicate Holding(phase: Phase) {
    phase.InGate? || phase.Calling? || phase.BackingOff?
  }

  predicate Enabled(limits: Limits, s: State, e: Event) {
    match e
    case Arrive(c) => c !in s.callers && limits.maxRetries >= 0
    case TakePermit(c) => c in s.callers && s.callers[c].Suspended? && s.permits > 0
    case Stamp(c, readings) => c in s.callers && s.callers[c].InGate? && Possible(s.gate, limits.rpm, readings)
    case Finish(c, _) => c in s.callers && s.callers[c].Calling?
    case Retry(c) => c in s.callers && s.callers[c].BackingOff?
  }

  function Do(limits: Limits, s: State, e: Event): State
    requires Enabled(limits, s, e)
  {
    match e
    case Arrive(c) => s.(callers := s.callers[c := Suspended(1)])
    case TakePermit(c) => s.(permits := s.permits - 1, callers := s.callers[c := InGate(s.callers[c].attempt)])
    case Stamp(c, readings) =>
      s.(gate := Acquired(s.gate, limits.rpm, readings), callers := s.callers[c := Calling(s.callers[c].attempt)])
    case Finish(c, outcome) =>
      var attempt := s.callers[c].attempt;
      var recorded := s.(rows := s.rows + [(c, RateGate.Entry.Entry(attempt, outcome.Success?))]);
      if outcome.Transient? && attempt < limits.maxRetries + 1
      then recorded.(callers := s.callers[c := BackingOff(attempt)])
      else recorded.(permits := s.permits + 1, callers := s.callers[c := Returned(attempt, outcome.Success?)])
    case Retry(c) => s.(permits := s.permits + 1, callers := s.callers[c := Suspended(s.callers[c].attempt + 1)])
  }

  function Start(limits: Limits): State {
    State(limits.permits, map[], Gate([], [], 0.0), [])
  }

  ghost predicate CanRun(limits: Limits, run: seq<Event>)
    decreases |run|, 0
  {
    run == [] || (CanRun(limits, run[..|run| - 1]) && Enabled(limits, After(limits, run[..|run| - 1]), run[|run| - 1]))
  }

  ghost function After(limits: Limits, run: seq<Event>): State
    requires CanRun(limits, run)
    decreases |run|, 1
  {
    if run == [] then Start(limits) else Do(limits, After(limits, run[..|run| - 1]), run[|run| - 1])
  }

  // ------------------------------------------------------------------- invariant

  ghost function Holders(callers: map<CallerId, Phase>): set<CallerId> {
    set c | c in callers && Holding(callers[c])
  }

  ghost function InFlight(callers: map<CallerId, Phase>): set<CallerId> {
    set c | c in callers && callers[c].Calling?
  }

  function OfCaller(c: CallerId): ((CallerId, Entry)) -> bool {
    (row: (CallerId, Entry)) => row.0 == c
  }

  /** Attempts a caller has completed, each with its row. */
  function Completed(phase: Phase): nat {
    match phase
    case Suspended(attempt) => if attempt == 0 then 0 else attempt - 1
    case InGate(attempt) => if attempt == 0 then 0 else attempt - 1
    case Calling(attempt) => if attempt == 0 then 0 else attempt - 1
    case BackingOff(attempt) => attempt
    case Returned(attempts, _) => attempts
  }

  predicate PhaseOk(limits: Limits, phase: Phase) {
    match phase
    case Returned(attempts, _) => 1 <= attempts <= limits.maxRetries + 1
    case BackingOff(attempt) => 1 <= attempt < limits.maxRetries + 1
    case _ => 1 <= phase.attempt <= limits.maxRetries + 1
  }

  ghost predicate RowsOk(s: State, c: CallerId) {
    Count(s.rows, OfCaller(c)) == if c in s.callers then Completed(s.callers[c]) else 0
  }

  ghost predicate Inv(limits: Limits, s: State) {
    && s.permits + |Holders(s.callers)| == limits.permits && s.permits >= 0
    && GateOk(s.gate, limits.rpm)
    && |s.gate.starts| == |s.rows| + |InFlight(s.callers)|
    && (forall c :: c in s.callers ==> PhaseOk(limits, s.callers[c]))
    && (forall c :: RowsOk(s, c))
  }

  lemma HoldersMove(callers: map<CallerId, Phase>, c: CallerId, phase: Phase)
    ensures |Holders(callers[c := phase])| ==
            |Holders(callers)| - (if c in callers && Holding(callers[c]) then 1 else 0) + (if Holding(phase) then 1 else 0)
  {
    var before, after := Holders(callers), Holders(callers[c := phase]);
    assert after - {c} == before - {c};
    assert c in before <==> c in callers && Holding(callers[c]);
    assert c in after <==> Holding(phase);
    WithoutOne(before, c);
    WithoutOne(after, c);
  }

  lemma InFlightMove(callers: map<CallerId, Phase>, c: CallerId, phase: Phase)
    ensures |InFlight(callers[c := phase])| ==
            |InFlight(callers)| - (if c in callers && callers[c].Calling? then 1 else 0) + (if phase.Calling? then 1 else 0)
  {
    var before, after := InFlight(callers), InFlight(callers[c := phase]);
    assert after - {c} == before - {c};
    assert c in before <==> c in callers && callers[c].Calling?;
    assert c in after <==> phase.Calling?;
    WithoutOne(before, c);
    WithoutOne(after, c);
  }

  lemma WithoutOne(s: set<CallerId>, c: CallerId)
    ensures |s| == |s - {c}| + if c in s then 1 else 0
  {
    if c in s {
      assert s == (s - {c}) + {c};
    } else {
      assert s == s - {c};
    }
  }

  /** The caller's phase after its event. */
  function NextPhase(limits: Limits, s: State, e: Event): Phase
    requires Enabled(limits, s, e)
  {
    Do(limits, s, e).callers[e.caller]
  }

  lemma DoShape(limits: Limits, s: State, e: Event)
    requires Enabled(limits, s, e)
    ensures Do(limits, s, e).callers == s.callers[e.caller := NextPhase(limits, s, e)]
  {
  }

  lemma DoRows(limits: Limits, s: State, e: Event)
    requires Enabled(limits, s, e)
    ensures Do(limits, s, e).rows ==
            if e.Finish? then s.rows + [(e.caller, RateGate.Entry.Entry(s.callers[e.caller].attempt, e.outcome.Success?))] else s.rows
  {
    hide Possible, Acquired;
  }

  lemma DoCompleted(limits: Limits, s: State, e: Event)
    requires Enabled(limits, s, e) && forall d :: d in s.callers ==> PhaseOk(limits, s.callers[d])
    ensures Completed(NextPhase(limits, s, e)) ==
            (if e.caller in s.callers then Completed(s.callers[e.caller]) else 0) + if e.Finish? then 1 else 0
  {
    hide Possible, Acquired;
  }

  lemma DoKeepsRows(limits: Limits, s: State, e: Event, c: CallerId)
    requires Enabled(limits, s, e) && RowsOk(s, c) && forall d :: d in s.callers ==> PhaseOk(limits, s.callers[d])
    ensures RowsOk(Do(limits, s, e), c)
  {
    DoShape(limits, s, e);
    DoRows(limits, s, e);
    DoCompleted(limits, s, e);
    if e.Finish? {
      CountAppend(s.rows, (e.caller, RateGate.Entry.Entry(s.callers[e.caller].attempt, e.outcome.Success?)), OfCaller(c));
    }
    hide Count, Do, NextPhase, Completed, PhaseOk;
  }

  lemma DoKeepsInv(limits: Limits, s: State, e: Event)
    requires limits.rpm >= 1 && Inv(limits, s) && Enabled(limits, s, e)
    ensures Inv(limits, Do(limits, s, e))
  {
    DoShape(limits, s, e);
    HoldersMove(s.callers, e.caller, NextPhase(limits, s, e));
    InFlightMove(s.callers, e.caller, NextPhase(limits, s, e));
    if e.Stamp? {
      AcquireKeepsGate(s.gate, limits.rpm, e.readings);
    }
    forall c ensures RowsOk(Do(limits, s, e), c) {
      DoKeepsRows(limits, s, e, c);
    }
    hide GateOk, Possible, RowsOk, Holders, InFlight;
  }

  lemma {:induction false} RunKeepsInv(limits: Limits, run: seq<Event>)
    requires limits.rpm >= 1 && CanRun(limits, run)
    ensures Inv(limits, After(limits, run))
    decreases |run|
  {
    if run == [] {
      assert Holders(map[]) == {} && InFlight(map[]) == {};
    } else {
      hide Inv, Do, Enabled;
      RunKeepsInv(limits, run[..|run| - 1]);
      DoKeepsInv(limits, After(limits, run[..|run| - 1]), run[|run| - 1]);
    }
  }

  /**
   Under any interleaving the permits out never exceed the limit and none is lost, starts keep to
   the rate, calls in flight keep to the limit, and nobody tries more than allowed.
   */
  lemma GateHoldsUnderContention(limits: Limits, run: seq<Event>)
    requires limits.rpm >= 1 && CanRun(limits, run)
    ensures var s := After(limits, run);
            && s.permits + |Holders(s.callers)| == limits.permits && 0 <= s.permits
            && |InFlight(s.callers)| <= limits.permits
            && RateBounded(s.gate.starts, limits.rpm) && |s.gate.deque| <= limits.rpm
            && |s.gate.starts| == |s.rows| + |InFlight(s.callers)|
            && (forall c :: c in s.callers ==> Completed(s.callers[c]) <= limits.maxRetries + 1)
            && (forall c :: c in s.callers && s.callers[c].Returned? ==> Count(s.rows, OfCaller(c)) == s.callers[c].attempts)
  {
    RunKeepsInv(limits, run);
    var s := After(limits, run);
    hide After;
    SubsetSize(InFlight(s.callers), Holders(s.callers));
    forall c | c in s.callers ensures PhaseOk(limits, s.callers[c]) && RowsOk(s, c) {
    }
  }

  /** When every caller has returned, every permit is back and every start has its row. */
  lemma AllPermitsReturn(limits: Limits, run: seq<Event>)
    requires limits.rpm >= 1 && CanRun(limits, run)
    requires forall c :: c in After(limits, run).callers ==> After(limits, run).callers[c].Returned?
    ensures After(limits, run).permits == limits.permits
    ensures |After(limits, run).gate.starts| == |After(limits, run).rows|
  {
    RunKeepsInv(limits, run);
    var s := After(limits, run);
    assert Holders(s.callers) == {} && InFlight(s.callers) == {};
  }

  /** The gate can always be passed by whoever is in it, after waiting if need be. */
  lemma GateOpens(gate: Gate, rpm: nat) returns (r: Readings)
    ensures Possible(gate, rpm, r)
  {
    var pruned := Prune(gate.deque, gate.now);
    var woken := if pruned != [] && |pruned| >= rpm then gate.now + WaitFor(pruned[0], gate.now) else gate.now;
    r := Readings(gate.now, woken, woken);
  }

  lemma HolderCanMove(limits: Limits, s: State, c: CallerId)
    requires c in s.callers && Holding(s.callers[c])
    ensures exists e :: Enabled(limits, s, e)
  {
    match s.callers[c]
    case InGate(_) =>
      var r := GateOpens(s.gate, limits.rpm);
      assert Enabled(limits, s, Stamp(c, r));
    case Calling(_) => assert Enabled(limits, s, Finish(c, Permanent));
    case BackingOff(_) => assert Enabled(limits, s, Retry(c));
  }

  /** Suspension never becomes a deadlock: while anybody is still under way, somebody can move. */
  lemma SomebodyCanMove(limits: Limits, run: seq<Event>, c: CallerId)
    requires limits.rpm >= 1 && limits.permits >= 1 && CanRun(limits, run)
    requires c in After(limits, run).callers && !After(limits, run).callers[c].Returned?
    ensures exists e :: Enabled(limits, After(limits, run), e)
  {
    RunKeepsInv(limits, run);
    var s := After(limits, run);
    hide After, Enabled;
    if Holding(s.callers[c]) {
      HolderCanMove(limits, s, c);
    } else if s.permits > 0 {
      PermitCanBeTaken(limits, s, c);
    } else {
      assert |Holders(s.callers)| > 0;
      var d :| d in Holders(s.callers);
      HolderCanMove(limits, s, d);
    }
  }

  lemma PermitCanBeTaken(limits: Limits, s: State, c: CallerId)
    requires c in s.callers && s.callers[c].Suspended? && s.permits > 0
    ensures exists e :: Enabled(limits, s, e)
  {
    assert Enabled(limits, s, TakePermit(c));
  }

  // ------------------------------------------------------------ one caller's story

  function FinishOf(c: CallerId): Event -> bool {
    (e: Event) => e.Finish? && e.caller == c
  }

  /** How the transport answered this caller, attempt by attempt. */
  function Answers(run: seq<Event>, c: CallerId): seq<Event> {
    Filter(run, FinishOf(c))
  }

  function Rows(s: State, c: CallerId): seq<(CallerId, Entry)> {
    Filter(s.rows, OfCaller(c))
  }

  /** Each answer has its row, in order and with its number; an answer is followed by another attempt only if it was transient. */
  ghost predicate Recorded(answers: seq<Event>, rows: seq<(CallerId, Entry)>) {
    && |rows| == |answers|
    && (forall k :: 0 <= k < |rows| ==> answers[k].Finish? && rows[k].1 == RateGate.Entry.Entry(k + 1, answers[k].outcome.Success?))
    && (forall k :: 0 <= k < |answers| - 1 ==> answers[k].Finish? && answers[k].outcome.Transient?)
  }

  /** The last answer decides: the caller returns on a success, a permanent error or the last allowed attempt, and only then. */
  ghost predicate Decided(limits: Limits, answers: seq<Event>, phase: Phase) {
    && (answers != [] ==> answers[|answers| - 1].Finish?)
    && (phase.Returned? ==>
          && answers != [] && phase.attempts == |answers|
          && (phase.ok <==> answers[|answers| - 1].outcome.Success?)
          && (answers[|answers| - 1].outcome.Transient? ==> |answers| == limits.maxRetries + 1))
    && (!phase.Returned? && answers != [] ==> answers[|answers| - 1].outcome.Transient? && |answers| <= limits.maxRetries)
  }

  ghost predicate StoryOk(limits: Limits, s: State, run: seq<Event>, c: CallerId) {
    && Recorded(Answers(run, c), Rows(s, c))
    && (c !in s.callers ==> Answers(run, c) == [])
    && (c in s.callers ==> |Answers(run, c)| == Completed(s.callers[c]) && PhaseOk(limits, s.callers[c])
                           && Decided(limits, Answers(run, c), s.callers[c]))
  }

  /** Another caller's event, or one that is no answer, adds neither answer nor row of this caller. */
  lemma NothingAnswered(limits: Limits, s: State, run: seq<Event>, e: Event, c: CallerId)
    requires Enabled(limits, s, e) && !FinishOf(c)(e)
    ensures Answers(run + [e], c) == Answers(run, c) && Rows(Do(limits, s, e), c) == Rows(s, c)
  {
    FilterAppend(run, e, FinishOf(c));
    if e.Finish? {
      FilterAppend(s.rows, (e.caller, RateGate.Entry.Entry(s.callers[e.caller].attempt, e.outcome.Success?)), OfCaller(c));
    }
    hide Filter, Possible, Acquired;
  }

  lemma PhaseMoves(limits: Limits, s: State, e: Event, c: CallerId)
    requires Enabled(limits, s, e) && !FinishOf(c)(e) && c in s.callers && PhaseOk(limits, s.callers[c])
    ensures var after := Do(limits, s, e).callers;
            && c in after && Completed(after[c]) == Completed(s.callers[c]) && PhaseOk(limits, after[c])
            && (after[c].Returned? <==> s.callers[c].Returned?) && (after[c].Returned? ==> after[c] == s.callers[c])
  {
    hide Possible, Acquired;
  }

  lemma OtherKeepsStory(limits: Limits, s: State, run: seq<Event>, e: Event, c: CallerId)
    requires Enabled(limits, s, e) && StoryOk(limits, s, run, c) && !FinishOf(c)(e)
    ensures StoryOk(limits, Do(limits, s, e), run + [e], c)
  {
    NothingAnswered(limits, s, run, e, c);
    if c in s.callers {
      PhaseMoves(limits, s, e, c);
      hide Do, PhaseOk, Answers, Rows, Recorded, Completed;
    } else {
      NewPhase(limits, s, e, c);
      hide Do, PhaseOk, Answers, Rows, Recorded;
    }
  }

  lemma NewPhase(limits: Limits, s: State, e: Event, c: CallerId)
    requires Enabled(limits, s, e) && c !in s.callers
    ensures var after := Do(limits, s, e).callers; c in after ==> after[c] == Suspended(1) && PhaseOk(limits, after[c])
  {
    hide Possible, Acquired;
  }

  lemma RecordedGrows(answers: seq<Event>, rows: seq<(CallerId, Entry)>, e: Event, row: (CallerId, Entry))
    requires Recorded(answers, rows) && e.Finish? && row.1 == RateGate.Entry.Entry(|rows| + 1, e.outcome.Success?)
    requires answers != [] ==> answers[|answers| - 1].Finish? && answers[|answers| - 1].outcome.Transient?
    ensures Recorded(answers + [e], rows + [row])
  {
  }

  /** What an answer does to the caller and to the rows. */
  lemma AnswerShape(limits: Limits, s: State, outcome: Outcome, c: CallerId)
    requires Enabled(limits, s, Finish(c, outcome)) && PhaseOk(limits, s.callers[c])
    ensures var after, attempt := Do(limits, s, Finish(c, outcome)), s.callers[c].attempt;
            && after.rows == s.rows + [(c, RateGate.Entry.Entry(attempt, outcome.Success?))]
            && c in after.callers && PhaseOk(limits, after.callers[c])
            && Completed(s.callers[c]) == attempt - 1 && !s.callers[c].Returned? && Completed(after.callers[c]) == attempt
            && after.callers[c] == (if outcome.Transient? && attempt <= limits.maxRetries then BackingOff(attempt)
                                    else Returned(attempt, outcome.Success?))
  {
  }

  lemma AnswerKeepsStory(limits: Limits, s: State, run: seq<Event>, outcome: Outcome, c: CallerId)
    requires Enabled(limits, s, Finish(c, outcome)) && StoryOk(limits, s, run, c)
    ensures StoryOk(limits, Do(limits, s, Finish(c, outcome)), run + [Finish(c, outcome)], c)
  {
    var e, row := Finish(c, outcome), (c, RateGate.Entry.Entry(s.callers[c].attempt, outcome.Success?));
    AnswerShape(limits, s, outcome, c);
    FilterAppend(run, e, FinishOf(c));
    FilterAppend(s.rows, row, OfCaller(c));
    assert |Rows(s, c)| == |Answers(run, c)|;
    RecordedGrows(Answers(run, c), Rows(s, c), e, row);
    hide Filter, Do, Recorded, PhaseOk, Completed;
  }

  lemma EventKeepsStory(limits: Limits, s: State, run: seq<Event>, e: Event, c: CallerId)
    requires Enabled(limits, s, e) && StoryOk(limits, s, run, c)
    ensures StoryOk(limits, Do(limits, s, e), run + [e], c)
  {
    hide StoryOk, Do, Enabled;
    if FinishOf(c)(e) {
      AnswerKeepsStory(limits, s, run, e.outcome, c);
    } else {
      OtherKeepsStory(limits, s, run, e, c);
    }
  }

  lemma NothingYet(limits: Limits, c: CallerId)
    ensures StoryOk(limits, Start(limits), [], c)
  {
  }

  /**
   In every run each caller's rows are its answers in order, with attempt number and success; it went
   on only after transient answers, and returned exactly when the answer or the limit said so.
   */
  lemma {:induction false} EveryCallerIsRecorded(limits: Limits, run: seq<Event>, c: CallerId)
    requires limits.rpm >= 1 && CanRun(limits, run)
    ensures StoryOk(limits, After(limits, run), run, c)
    decreases |run|
  {
    hide StoryOk, Do, Enabled, Start;
    if run == [] {
      NothingYet(limits, c);
    } else {
      var before := run[..|run| - 1];
      EveryCallerIsRecorded(limits, before, c);
      EventKeepsStory(limits, After(limits, before), before, run[|run| - 1], c);
      assert before + [run[|run| - 1]] == run;
    }
  }
}
