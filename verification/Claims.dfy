/**
 Job rows and the claims on them over whole runs (worker/repository.py): what each action does to
 a row, how often a job can be claimed, and when a completed job is safe.  Nothing is fenced, so
 both answers depend on recoveries and on workers that still hold an old claim.
 */
module Claims {
  import opened Sequences
  import opened Records
  import opened Corpus
  import opened World
  import opened Protocol
  import opened Guarantees

  /** The worker has claimed this job and not finished with it. */
  predicate Holds(pc: Pc, key: JobKey) {
    !pc.Idle? && pc.claim.key == key
  }

  // --------------------------------------------------------------- one job row

  /** The row of one job after any action: five kinds of action touch it, and never those of another job. */
  function NextJob(config: Config, s: State, action: Action, key: JobKey): Job
    requires key in s.world.jobs && (action.Work? ==> action.worker in s.workers)
  {
    var job := s.world.jobs[key];
    match action
    case ClaimNext(_, claimed) => if claimed == key then Job(Processing, job.tries + 1) else job
    case RecoverStale(stale) => if key in stale && job.status == Processing then job.(status := Waiting) else job
    case Work(w, _) =>
      var pc := s.workers[w];
      if !Holds(pc, key) then job
      else if pc.Finishing? then job.(status := Complete)
      else if pc.Failing? then job.(status := if pc.claim.tries >= config.maxTries then Failed else Waiting)
      else job
    case _ => job
  }

  lemma WorkOnJob(config: Config, world: World, pc: Pc, input: Input, key: JobKey)
    requires !pc.Idle?
    ensures var after := NextWorld(config, world, pc, input).jobs;
            && (key in world.jobs ==> key in after)
            && (key in world.jobs && !(Holds(pc, key) && (pc.Finishing? || pc.Failing?)) ==> after[key] == world.jobs[key])
            && (key !in world.jobs && key in after ==> after[key] == Job(Waiting, 0))
  {
    hide Register, AppendLine, StoredQuality, GoldenRecord, Eligible, CreateRecord, SetRecordShard;
  }

  lemma JobEnds(config: Config, world: World, pc: Pc, input: Input)
    requires (pc.Finishing? || pc.Failing?) && pc.claim.key in world.jobs
    ensures var after := NextWorld(config, world, pc, input).jobs;
            && after == world.jobs[pc.claim.key := after[pc.claim.key]]
            && after[pc.claim.key] == world.jobs[pc.claim.key].(status :=
                 if pc.Finishing? then Complete else if pc.claim.tries >= config.maxTries then Failed else Waiting)
  {
  }

  /** Every action changes a job row as `NextJob` says; rows never vanish and new ones start waiting. */
  lemma DoOnJob(config: Config, s: State, action: Action, key: JobKey)
    requires Enabled(config, s, action)
    ensures var after := Do(config, s, action).world.jobs;
            && (key in s.world.jobs ==> key in after && after[key] == NextJob(config, s, action, key))
            && (key !in s.world.jobs && key in after ==> after[key] == Job(Waiting, 0))
  {
    if action.Work? {
      var pc := s.workers[action.worker];
      WorkOnJob(config, s.world, pc, action.input, key);
      if (pc.Finishing? || pc.Failing?) && Holds(pc, key) && key in s.world.jobs {
        JobEnds(config, s.world, pc, action.input);
      }
      hide NextWorld, NextPc;
    }
  }

  /** Completion is undone by one kind of step only: a worker reporting failure on that very job. */
  lemma CompletionUndoneOnlyByFailure(config: Config, s: State, action: Action, key: JobKey)
    requires Enabled(config, s, action) && key in s.world.jobs && s.world.jobs[key].status == Complete
    ensures key in Do(config, s, action).world.jobs
    ensures Do(config, s, action).world.jobs[key].status != Complete
       <==> action.Work? && s.workers[action.worker].Failing? && s.workers[action.worker].claim.key == key
  {
    hide Do;
    DoOnJob(config, s, action, key);
  }

  // -------------------------------------------------------------------- claims

  lemma ClaimKept(config: Config, world: World, pc: Pc, input: Input)
    requires !pc.Idle?
    ensures NextPc(config, world, pc, input).Idle? <==> pc.Reporting? || pc.Failing?
    ensures !NextPc(config, world, pc, input).Idle? ==> NextPc(config, world, pc, input).claim == pc.claim
  {
    hide GoldenRecord, Eligible, AppendLine;
  }

  /** A worker holds a job after an action only if it did before, or has just claimed it. */
  lemma HoldsAfter(config: Config, s: State, action: Action, v: WorkerId, key: JobKey)
    requires Enabled(config, s, action)
    requires v in Do(config, s, action).workers && Holds(Do(config, s, action).workers[v], key)
    ensures var pc := Do(config, s, action).workers[v];
            if action == ClaimNext(v, key) then pc.claim.tries == s.world.jobs[key].tries + 1
            else v in s.workers && Holds(s.workers[v], key) && pc.claim == s.workers[v].claim
  {
    if action.Work? {
      ClaimKept(config, s.world, s.workers[action.worker], action.input);
    }
    hide NextPc, NextWorld;
  }

  ghost predicate ClaimOk(s: State, w: WorkerId) {
    w in s.workers && !s.workers[w].Idle? ==>
      && s.workers[w].claim.key in s.world.jobs
      && 1 <= s.workers[w].claim.tries <= s.world.jobs[s.workers[w].claim.key].tries
  }

  /** Claims are on existing jobs, and two claims on one job carry different numbers. */
  ghost predicate ClaimsOk(s: State) {
    && (forall w :: ClaimOk(s, w))
    && (forall v, w, key :: v in s.workers && w in s.workers && v != w && Holds(s.workers[v], key) && Holds(s.workers[w], key) ==>
          s.workers[v].claim.tries != s.workers[w].claim.tries)
  }

  lemma DoKeepsClaims(config: Config, s: State, action: Action)
    requires ClaimsOk(s) && Enabled(config, s, action)
    ensures ClaimsOk(Do(config, s, action))
  {
    var after := Do(config, s, action);
    forall w ensures ClaimOk(after, w) {
      if w in after.workers && !after.workers[w].Idle? {
        var key := after.workers[w].claim.key;
        HoldsAfter(config, s, action, w, key);
        DoOnJob(config, s, action, key);
        assert ClaimOk(s, w);
      }
    }
    forall v, w, key | v in after.workers && w in after.workers && v != w && Holds(after.workers[v], key) && Holds(after.workers[w], key)
      ensures after.workers[v].claim.tries != after.workers[w].claim.tries
    {
      HoldsAfter(config, s, action, v, key);
      HoldsAfter(config, s, action, w, key);
      assert ClaimOk(s, v) && ClaimOk(s, w);
    }
    hide Do, Enabled, Holds;
  }

  // ------------------------------------------------------------- the retry limit

  predicate Outstanding(workers: map<WorkerId, Pc>, key: JobKey, number: int) {
    exists w :: w in workers && Holds(workers[w], key) && workers[w].claim.tries == number
  }

  /** Claim numbers below the limit that nobody holds any more: only these can have put the job back. */
  ghost function Spent(config: Config, s: State, key: JobKey): set<int>
    requires key in s.world.jobs
  {
    set c | 1 <= c < config.maxTries && c <= s.world.jobs[key].tries && !Outstanding(s.workers, key, c)
  }

  /** Every claim used up one return to the queue: the enqueue, a recovery, or a failure that was not the last. */
  ghost predicate Budget(config: Config, s: State, key: JobKey, recoveries: nat) {
    key in s.world.jobs ==>
      s.world.jobs[key].tries + (if s.world.jobs[key].status == Waiting then 1 else 0) <= 1 + recoveries + |Spent(config, s, key)|
  }

  /** The action takes the job from processing back to waiting. */
  predicate Recovers(s: State, action: Action, key: JobKey) {
    action.RecoverStale? && key in action.stale && key in s.world.jobs && s.world.jobs[key].status == Processing
  }

  /** How often a run recovered the job from a stale claim. */
  ghost function Recoveries(config: Config, s: State, run: seq<Action>, key: JobKey): nat
    requires CanRun(config, s, run)
    decreases |run|
  {
    if run == [] then 0
    else (if Recovers(s, run[0], key) then 1 else 0) + Recoveries(config, Do(config, s, run[0]), run[1..], key)
  }

  lemma SpentGrows(config: Config, s: State, after: State, key: JobKey)
    requires key in s.world.jobs && key in after.world.jobs && s.world.jobs[key].tries <= after.world.jobs[key].tries
    requires forall c :: c <= s.world.jobs[key].tries && Outstanding(after.workers, key, c) ==> Outstanding(s.workers, key, c)
    ensures Spent(config, s, key) <= Spent(config, after, key)
    ensures |Spent(config, s, key)| <= |Spent(config, after, key)|
  {
    SubsetSize(Spent(config, s, key), Spent(config, after, key));
  }

  /** Old numbers do not become outstanding again. */
  lemma NumbersReturn(config: Config, s: State, action: Action, key: JobKey, c: int)
    requires Enabled(config, s, action) && key in s.world.jobs && c <= s.world.jobs[key].tries
    requires Outstanding(Do(config, s, action).workers, key, c)
    ensures Outstanding(s.workers, key, c)
  {
    var after := Do(config, s, action);
    var w :| w in after.workers && Holds(after.workers[w], key) && after.workers[w].claim.tries == c;
    HoldsAfter(config, s, action, w, key);
  }

  /** A failing claim is the only one with its number, so it is spent for the first time. */
  lemma FailureSpends(config: Config, s: State, action: Action, key: JobKey)
    requires ClaimsOk(s) && Enabled(config, s, action) && key in s.world.jobs
    requires action.Work? && s.workers[action.worker].Failing? && Holds(s.workers[action.worker], key)
    requires s.workers[action.worker].claim.tries < config.maxTries
    ensures key in Do(config, s, action).world.jobs
    ensures |Spent(config, s, key)| + 1 <= |Spent(config, Do(config, s, action), key)|
  {
    var after := Do(config, s, action);
    var c := s.workers[action.worker].claim.tries;
    DoOnJob(config, s, action, key);
    assert ClaimOk(s, action.worker);
    forall number | number <= s.world.jobs[key].tries && Outstanding(after.workers, key, number)
      ensures Outstanding(s.workers, key, number)
    {
      NumbersReturn(config, s, action, key, number);
    }
    if Outstanding(after.workers, key, c) {
      var v :| v in after.workers && Holds(after.workers[v], key) && after.workers[v].claim.tries == c;
      HoldsAfter(config, s, action, v, key);
    }
    hide Do, Enabled;
    assert Outstanding(s.workers, key, c);
    SpentGrows(config, s, after, key);
    assert Spent(config, s, key) + {c} <= Spent(config, after, key);
    SubsetSize(Spent(config, s, key) + {c}, Spent(config, after, key));
  }

  lemma DoKeepsBudget(config: Config, s: State, action: Action, key: JobKey, recoveries: nat)
    requires ClaimsOk(s) && Enabled(config, s, action) && Budget(config, s, key, recoveries)
    ensures Budget(config, Do(config, s, action), key, recoveries + if Recovers(s, action, key) then 1 else 0)
  {
    var after := Do(config, s, action);
    DoOnJob(config, s, action, key);
    if key in s.world.jobs {
      forall number | number <= s.world.jobs[key].tries && Outstanding(after.workers, key, number)
        ensures Outstanding(s.workers, key, number)
      {
        NumbersReturn(config, s, action, key, number);
      }
      hide Do;
      SpentGrows(config, s, after, key);
      if action.Work? && s.workers[action.worker].Failing? && Holds(s.workers[action.worker], key)
         && s.workers[action.worker].claim.tries < config.maxTries {
        FailureSpends(config, s, action, key);
      }
    }
  }

  lemma {:induction false} RunKeepsBudget(config: Config, s: State, run: seq<Action>, key: JobKey, recoveries: nat)
    requires ClaimsOk(s) && Budget(config, s, key, recoveries) && CanRun(config, s, run)
    ensures Budget(config, After(config, s, run), key, recoveries + Recoveries(config, s, run, key))
    decreases |run|
  {
    hide Do, Enabled, ClaimsOk, Budget, Recovers;
    if run != [] {
      DoKeepsClaims(config, s, run[0]);
      DoKeepsBudget(config, s, run[0], key, recoveries);
      RunKeepsBudget(config, Do(config, s, run[0]), run[1..], key, recoveries + if Recovers(s, run[0], key) then 1 else 0);
    }
  }

  lemma {:induction false} RangeSize(numbers: set<int>, limit: int)
    requires forall c :: c in numbers ==> 1 <= c < limit
    ensures |numbers| <= if limit < 1 then 0 else limit - 1
    decreases if limit < 1 then 0 else limit
  {
    if limit < 2 {
      assert forall c :: c !in numbers;
      assert numbers == {};
    } else {
      RangeSize(numbers - {limit - 1}, limit - 1);
      assert numbers <= numbers - {limit - 1} + {limit - 1};
      SubsetSize(numbers, numbers - {limit - 1} + {limit - 1});
    }
  }

  /**
   What the retry limit does bound, in every run: a job is claimed at most the limit (at least
   once) plus one more time for each stale claim on it that was recovered.
   */
  lemma TriesAreBounded(config: Config, run: seq<Action>, key: JobKey)
    requires CanRun(config, Initial(), run) && key in After(config, Initial(), run).world.jobs
    ensures After(config, Initial(), run).world.jobs[key].tries <=
            (if config.maxTries < 1 then 1 else config.maxTries) + Recoveries(config, Initial(), run, key)
  {
    RunKeepsBudget(config, Initial(), run, key, 0);
    var s := After(config, Initial(), run);
    hide After, CanRun, Recoveries, Initial;
    RangeSize(Spent(config, s, key), config.maxTries);
  }

  // ------------------------------------------------------- when completion is safe

  /** Some worker still has a claim on the job. */
  ghost predicate Held(s: State, key: JobKey) {
    exists w :: w in s.workers && Holds(s.workers[w], key)
  }

  ghost predicate IsComplete(s: State, key: JobKey) {
    key in s.world.jobs && s.world.jobs[key].status == Complete
  }

  /** Nobody can claim a completed job, so once nobody holds it nobody ever will. */
  lemma {:induction false} UnheldStaysComplete(config: Config, s: State, run: seq<Action>, key: JobKey)
    requires IsComplete(s, key) && !Held(s, key) && CanRun(config, s, run)
    ensures IsComplete(After(config, s, run), key) && !Held(After(config, s, run), key)
    decreases |run|
  {
    if run != [] {
      var action := run[0];
      var next := Do(config, s, action);
      DoOnJob(config, s, action, key);
      forall w | w in next.workers ensures !Holds(next.workers[w], key) {
        if Holds(next.workers[w], key) {
          HoldsAfter(config, s, action, w, key);
        }
      }
      hide Do, Enabled;
      UnheldStaysComplete(config, next, run[1..], key);
    }
  }

  /** How far a holder is from reporting a failure, if it raises at once. */
  function ToFailure(pc: Pc): nat {
    if pc.Failing? then 0
    else if pc.Unlocking? then (if pc.failed then 1 else 2)
    else if Critical(pc) then 2
    else 1
  }

  /** The holder's next action on that way. */
  function TowardsFailure(s: State, w: WorkerId, input: Input): Action
    requires w in s.workers
  {
    if s.workers[w].Failing? || s.workers[w].Unlocking? then Work(w, input) else Raise(w)
  }

  lemma TowardsFailureStep(config: Config, s: State, w: WorkerId, key: JobKey, input: Input)
    requires w in s.workers && Holds(s.workers[w], key) && IsComplete(s, key)
    ensures Enabled(config, s, TowardsFailure(s, w, input))
    ensures var after := Do(config, s, TowardsFailure(s, w, input));
            if s.workers[w].Failing? then key in after.world.jobs && !IsComplete(after, key)
            else w in after.workers && Holds(after.workers[w], key) && IsComplete(after, key)
                 && ToFailure(after.workers[w]) < ToFailure(s.workers[w])
  {
    hide GoldenRecord, Eligible, AppendLine, PersistTriage;
  }

  lemma {:induction false} HeldCanReopen(config: Config, s: State, w: WorkerId, key: JobKey, input: Input) returns (run: seq<Action>)
    requires w in s.workers && Holds(s.workers[w], key) && IsComplete(s, key)
    ensures CanRun(config, s, run) && !IsComplete(After(config, s, run), key)
    decreases ToFailure(s.workers[w])
  {
    var action := TowardsFailure(s, w, input);
    TowardsFailureStep(config, s, w, key, input);
    var next := Do(config, s, action);
    hide Do, Enabled, TowardsFailure, ToFailure;
    var rest := [];
    if !s.workers[w].Failing? {
      rest := HeldCanReopen(config, next, w, key, input);
    }
    RunOne(config, s, action, rest);
    run := [action] + rest;
  }

  ghost predicate CanBeReopened(config: Config, s: State, key: JobKey) {
    exists run :: CanRun(config, s, run) && !IsComplete(After(config, s, run), key)
  }

  /** A completed job can be undone if and only if some worker still holds a claim on it. */
  lemma CompletionIsFinalUnlessHeld(config: Config, s: State, key: JobKey)
    requires IsComplete(s, key)
    ensures CanBeReopened(config, s, key) <==> Held(s, key)
  {
    hide CanRun, After;
    if Held(s, key) {
      var w :| w in s.workers && Holds(s.workers[w], key);
      var run := HeldCanReopen(config, s, w, key, Input(Gates(true, true, true, false, false), 0));
    } else {
      forall run | CanRun(config, s, run) ensures IsComplete(After(config, s, run), key) {
        UnheldStaysComplete(config, s, run, key);
      }
    }
  }
}
