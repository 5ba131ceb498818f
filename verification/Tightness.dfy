/**
 The claim bound is reached: for every number of recoveries some run claims a job exactly as often
 as the bound allows, so the bound is the best there is (worker/repository.py).
 */
module Tightness {
  import opened World
  import opened Protocol
  import opened Guarantees
  import opened Convergence
  import opened Claims
  import opened Witnesses

  const KEY := JobKey(JobKind.Triage, 0)

  /** The first claim is always possible; after it the retry limit counts. */
  function Limit(config: Config): nat {
    if config.maxTries < 1 then 1 else config.maxTries
  }

  lemma {:induction false} RecoveriesAdd(config: Config, s: State, first: seq<Action>, second: seq<Action>, key: JobKey)
    requires CanRun(config, s, first) && CanRun(config, After(config, s, first), second)
    ensures CanRun(config, s, first + second)
    ensures Recoveries(config, s, first + second, key) ==
            Recoveries(config, s, first, key) + Recoveries(config, After(config, s, first), second, key)
    decreases |first|
  {
    hide Enabled, Do, Recovers;
    RunJoin(config, s, first, second);
    if first == [] {
      assert first + second == second;
    } else {
      RecoveriesAdd(config, Do(config, s, first[0]), first[1..], second, key);
      assert (first + second)[1..] == first[1..] + second;
    }
  }

  /** Worker 0 is idle and the job waits after `n` claims. */
  predicate Waits(s: State, n: nat) {
    0 in s.workers && s.workers[0].Idle? && KEY in s.world.jobs && s.world.jobs[KEY] == Job(Waiting, n)
  }

  ghost predicate Reaches(config: Config, run: seq<Action>, n: nat, recoveries: nat) {
    && CanRun(config, Initial(), run) && Waits(After(config, Initial(), run), n)
    && Recoveries(config, Initial(), run, KEY) == recoveries
  }

  /** Some run has the job waiting after `n` claims and that many recoveries. */
  ghost predicate Attainable(config: Config, n: nat, recoveries: nat) {
    exists run :: Reaches(config, run, n, recoveries)
  }

  lemma GoOn(config: Config, run: seq<Action>, more: seq<Action>, n: nat, n': nat, r: nat, r': nat)
    requires Reaches(config, run, n, r) && CanRun(config, After(config, Initial(), run), more)
    requires Waits(After(config, After(config, Initial(), run), more), n')
    requires Recoveries(config, After(config, Initial(), run), more, KEY) == r'
    ensures Attainable(config, n', r + r')
  {
    hide CanRun, After, Recoveries, Waits;
    RunJoin(config, Initial(), run, more);
    RecoveriesAdd(config, Initial(), run, more, KEY);
    assert Reaches(config, run + more, n', r + r');
  }

  // ------------------------------------------------------------------ three rounds

  /** Three actions as a run, with the recoveries among them. */
  lemma RoundOfThree(config: Config, s: State, a: Action, b: Action, c: Action)
    requires Enabled(config, s, a) && Enabled(config, Do(config, s, a), b)
    requires Enabled(config, Do(config, Do(config, s, a), b), c)
    ensures CanRun(config, s, [a, b, c]) && After(config, s, [a, b, c]) == Do(config, Do(config, Do(config, s, a), b), c)
    ensures Recoveries(config, s, [a, b, c], KEY) ==
            (if Recovers(s, a, KEY) then 1 else 0) + (if Recovers(Do(config, s, a), b, KEY) then 1 else 0)
            + (if Recovers(Do(config, Do(config, s, a), b), c, KEY) then 1 else 0)
  {
    hide Enabled, Do, Recovers;
    RunThree(config, s, a, b, c, []);
    assert [a, b, c] + [] == [a, b, c];
    assert [a, b, c][1..] == [b, c] && [b, c][1..] == [c] && [c][1..] == [];
    assert Recoveries(config, Do(config, Do(config, s, a), b), [c], KEY) ==
           if Recovers(Do(config, Do(config, s, a), b), c, KEY) then 1 else 0;
  }

  /** Claim, exception, failure: the job waits again if the claim was not the last. */
  lemma FailRound(config: Config, s: State, n: nat)
    requires Waits(s, n) && n + 1 < config.maxTries
    ensures CanRun(config, s, [ClaimNext(0, KEY), Raise(0), Work(0, INPUT)])
    ensures Waits(After(config, s, [ClaimNext(0, KEY), Raise(0), Work(0, INPUT)]), n + 1)
    ensures Recoveries(config, s, [ClaimNext(0, KEY), Raise(0), Work(0, INPUT)], KEY) == 0
  {
    var claimed := Do(config, s, ClaimNext(0, KEY));
    var raised := Do(config, claimed, Raise(0));
    JobEnds(config, raised.world, raised.workers[0], INPUT);
    RoundOfThree(config, s, ClaimNext(0, KEY), Raise(0), Work(0, INPUT));
  }

  /** Claim, crash, recovery: the job waits again in any case. */
  lemma CrashRound(config: Config, s: State, n: nat)
    requires Waits(s, n)
    ensures CanRun(config, s, [ClaimNext(0, KEY), Crash(0), RecoverStale({KEY})])
    ensures Waits(After(config, s, [ClaimNext(0, KEY), Crash(0), RecoverStale({KEY})]), n + 1)
    ensures Recoveries(config, s, [ClaimNext(0, KEY), Crash(0), RecoverStale({KEY})], KEY) == 1
  {
    RoundOfThree(config, s, ClaimNext(0, KEY), Crash(0), RecoverStale({KEY}));
  }

  lemma FailOnce(config: Config, n: nat, r: nat)
    requires Attainable(config, n, r) && n + 1 < config.maxTries
    ensures Attainable(config, n + 1, r)
  {
    var run :| Reaches(config, run, n, r);
    var s := After(config, Initial(), run);
    FailRound(config, s, n);
    hide After, CanRun, Recoveries, Waits;
    GoOn(config, run, [ClaimNext(0, KEY), Raise(0), Work(0, INPUT)], n, n + 1, r, 0);
  }

  lemma CrashOnce(config: Config, n: nat, r: nat)
    requires Attainable(config, n, r)
    ensures Attainable(config, n + 1, r + 1)
  {
    var run :| Reaches(config, run, n, r);
    var s := After(config, Initial(), run);
    CrashRound(config, s, n);
    hide After, CanRun, Recoveries, Waits;
    GoOn(config, run, [ClaimNext(0, KEY), Crash(0), RecoverStale({KEY})], n, n + 1, r, 1);
  }

  // --------------------------------------------------------------------- the runs

  lemma {:induction false} NoRecoveries(config: Config, s: State, run: seq<Action>, key: JobKey)
    requires CanRun(config, s, run) && forall i :: 0 <= i < |run| ==> !run[i].RecoverStale?
    ensures Recoveries(config, s, run, key) == 0
    decreases |run|
  {
    hide Enabled, Do;
    if run != [] {
      NoRecoveries(config, Do(config, s, run[0]), run[1..], key);
    }
  }

  lemma NothingYet(config: Config)
    ensures Attainable(config, 0, 0)
  {
    var upload := [CreateTurn(0, 0), AcceptAudio(0, RECORDING), EnqueueTriage(0)];
    var created := Do(config, Initial(), CreateTurn(0, 0));
    var accepted := Do(config, created, AcceptAudio(0, RECORDING));
    RoundOfThree(config, Initial(), CreateTurn(0, 0), AcceptAudio(0, RECORDING), EnqueueTriage(0));
    var queued := Uploaded(Initial(), 0, 0);
    assert After(config, Initial(), upload) == queued;
    RunOne(config, queued, StartWorker(0), []);
    assert [StartWorker(0)] + [] == [StartWorker(0)];
    assert Waits(After(config, queued, [StartWorker(0)]), 0);
    hide Do, Enabled, After, CanRun;
    RunJoin(config, Initial(), upload, [StartWorker(0)]);
    NoRecoveries(config, Initial(), upload + [StartWorker(0)], KEY);
    assert Reaches(config, upload + [StartWorker(0)], 0, 0);
  }

  lemma {:induction false} FailUpTo(config: Config, n: nat)
    requires n < Limit(config)
    ensures Attainable(config, n, 0)
  {
    if n == 0 {
      NothingYet(config);
    } else {
      FailUpTo(config, n - 1);
      FailOnce(config, n - 1, 0);
    }
  }

  lemma {:induction false} CrashUpTo(config: Config, r: nat)
    ensures Attainable(config, Limit(config) - 1 + r, r)
  {
    if r == 0 {
      FailUpTo(config, Limit(config) - 1);
    } else {
      CrashUpTo(config, r - 1);
      CrashOnce(config, Limit(config) - 1 + (r - 1), r - 1);
    }
  }

  /** A run with exactly `recoveries` recoveries of the job leaves its row with `tries` tries. */
  ghost predicate Claimed(config: Config, run: seq<Action>, key: JobKey, recoveries: nat, tries: int) {
    && CanRun(config, Initial(), run) && Recoveries(config, Initial(), run, key) == recoveries
    && key in After(config, Initial(), run).world.jobs && After(config, Initial(), run).world.jobs[key].tries == tries
  }

  ghost predicate CanBeClaimed(config: Config, recoveries: nat, tries: int) {
    exists run :: Claimed(config, run, KEY, recoveries, tries)
  }

  lemma LastClaim(config: Config, n: nat, r: nat)
    requires Attainable(config, n, r)
    ensures CanBeClaimed(config, r, n + 1)
  {
    var run :| Reaches(config, run, n, r);
    var s := After(config, Initial(), run);
    RunOne(config, s, ClaimNext(0, KEY), []);
    assert [ClaimNext(0, KEY)] + [] == [ClaimNext(0, KEY)];
    assert After(config, s, [ClaimNext(0, KEY)]).world.jobs[KEY].tries == n + 1;
    NoRecoveries(config, s, [ClaimNext(0, KEY)], KEY);
    hide Do, Enabled, After, CanRun, Recoveries;
    RunJoin(config, Initial(), run, [ClaimNext(0, KEY)]);
    RecoveriesAdd(config, Initial(), run, [ClaimNext(0, KEY)], KEY);
    assert Claimed(config, run + [ClaimNext(0, KEY)], KEY, r, n + 1);
  }

  /** For every number of recoveries some run reaches the bound. */
  lemma BoundIsReached(config: Config, recoveries: nat)
    ensures CanBeClaimed(config, recoveries, Limit(config) + recoveries)
  {
    CrashUpTo(config, recoveries);
    LastClaim(config, Limit(config) - 1 + recoveries, recoveries);
  }

  /** Every run with so many recoveries of a job keeps its tries within the bound. */
  ghost predicate Bounds(config: Config, recoveries: nat, bound: int) {
    forall run, key, tries :: Claimed(config, run, key, recoveries, tries) ==> tries <= bound
  }

  /**
   A bound on the claims of a job holds for all runs with a given number of recoveries of it if and
   only if it is at least the retry limit, or one, plus that number.  So the limit itself holds
   exactly for the runs that recover the job not even once.
   */
  lemma TriesBoundIsExact(config: Config, recoveries: nat, bound: int)
    ensures Bounds(config, recoveries, bound) <==> bound >= Limit(config) + recoveries
    ensures config.maxTries >= 1 ==> (Bounds(config, recoveries, config.maxTries) <==> recoveries == 0)
  {
    BoundIsReached(config, recoveries);
    var run :| Claimed(config, run, KEY, recoveries, Limit(config) + recoveries);
    hide CanRun, After, Recoveries;
    forall run, key, tries | Claimed(config, run, key, recoveries, tries) ensures tries <= Limit(config) + recoveries {
      TriesAreBounded(config, run, key);
    }
    hide Claimed;
  }
}
