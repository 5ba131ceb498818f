/**
 The per-model gate of the GenAI client (app/gemini_client.py): a concurrency semaphore, a
 sliding 60-second window of call starts, and the retry loop that runs under both.

 Times are exact reals; the clock never runs backwards and a sleep lasts at least as long as asked.
 */
module RateGate {
  import opened Wrappers

  const WINDOW := 60.0
  const SLACK := 0.001

  // --------------------------------------------------------- the window as a value

  /** All call starts so far, the part of them still in the deque, and the last clock reading. */
  datatype Gate = Gate(starts: seq<real>, deque: seq<real>, now: real)

  /** The clock readings of one acquisition: on entry, after a possible sleep, and for the stamp. */
  datatype Readings = Readings(entered: real, woken: real, stamped: real)

  function Prune(deque: seq<real>, now: real): seq<real> {
    if deque == [] || now - deque[0] < WINDOW then deque else Prune(deque[1..], now)
  }

  /** How long a full window makes the caller wait. */
  function WaitFor(oldest: real, now: real): real {
    var wait := WINDOW - (now - oldest) + SLACK;
    if wait < 0.0 then 0.0 else wait
  }

  /** The clock readings an acquisition can see. */
  predicate Possible(g: Gate, rpm: nat, r: Readings) {
    var pruned := Prune(g.deque, r.entered);
    && g.now <= r.entered
    && (if pruned != [] && |pruned| >= rpm then r.entered + WaitFor(pruned[0], r.entered) <= r.woken else r.entered == r.woken)
    && r.woken <= r.stamped
  }

  function Acquired(g: Gate, rpm: nat, r: Readings): Gate {
    var pruned := Prune(g.deque, r.entered);
    var ready := if |pruned| >= rpm then Prune(pruned, r.woken) else pruned;
    Gate(g.starts + [r.stamped], ready + [r.stamped], r.stamped)
  }

  /** Any `rpm` consecutive starts are followed by a pause: the next one is a full window after the first. */
  ghost predicate RateBounded(starts: seq<real>, rpm: nat) {
    forall i, j :: 0 <= i && j == i + rpm && j < |starts| ==> starts[j] - starts[i] >= WINDOW
  }

  ghost predicate Sorted(times: seq<real>) {
    forall i, j :: 0 <= i < j < |times| ==> times[i] <= times[j]
  }

  ghost predicate GateOk(g: Gate, rpm: nat) {
    && |g.deque| <= |g.starts| && g.deque == g.starts[|g.starts| - |g.deque|..]
    && |g.deque| <= rpm
    && Sorted(g.starts)
    && (forall i :: 0 <= i < |g.starts| ==> g.starts[i] <= g.now)
    && (forall i :: 0 <= i < |g.starts| - |g.deque| ==> g.now - g.starts[i] >= WINDOW)
    && RateBounded(g.starts, rpm)
  }

  /** Pruning drops exactly a prefix of starts that are a full window old. */
  lemma {:induction false} PruneDrops(deque: seq<real>, now: real) returns (k: nat)
    ensures k <= |deque| && Prune(deque, now) == deque[k..]
    ensures forall i :: 0 <= i < k ==> now - deque[i] >= WINDOW
    ensures k < |deque| ==> now - deque[k] < WINDOW
  {
    if deque == [] || now - deque[0] < WINDOW {
      k := 0;
    } else {
      var rest := PruneDrops(deque[1..], now);
      k := rest + 1;
      forall i | 0 <= i < k ensures now - deque[i] >= WINDOW {
        if i > 0 {
          assert deque[i] == deque[1..][i - 1];
        }
      }
      assert deque[1..][rest..] == deque[k..];
    }
  }

  /** One pruned suffix of the starts: the part behind it is old, at this reading and later. */
  ghost predicate Suffix(starts: seq<real>, deque: seq<real>, now: real) {
    && |deque| <= |starts| && deque == starts[|starts| - |deque|..]
    && forall i :: 0 <= i < |starts| - |deque| ==> now - starts[i] >= WINDOW
  }

  lemma PruneSuffix(starts: seq<real>, deque: seq<real>, before: real, now: real)
    requires Suffix(starts, deque, before) && before <= now
    ensures Suffix(starts, Prune(deque, now), now)
    ensures Prune(deque, now) != [] ==> now - Prune(deque, now)[0] < WINDOW
    ensures |Prune(deque, now)| <= |deque|
  {
    var k := PruneDrops(deque, now);
    var d := |starts| - |deque|;
    assert deque[k..] == starts[d + k..];
    forall i | 0 <= i < d + k ensures now - starts[i] >= WINDOW {
      if i >= d {
        assert starts[i] == deque[i - d];
      }
    }
  }

  /** After the wait the window has room: at least its oldest start is dropped. */
  lemma WaitMakesRoom(deque: seq<real>, entered: real, woken: real)
    requires deque != [] && entered + WaitFor(deque[0], entered) <= woken
    ensures |Prune(deque, woken)| < |deque|
  {
    var k := PruneDrops(deque, woken);
  }

  /** A full window makes a caller wait until one millisecond after its oldest start is a minute old, and no longer. */
  lemma WaitIsExact(oldest: real, entered: real)
    requires entered - oldest < 60.0
    ensures entered + WaitFor(oldest, entered) == oldest + 60.001
  {
  }

  lemma AcquireKeepsGate(g: Gate, rpm: nat, r: Readings)
    requires GateOk(g, rpm) && rpm >= 1 && Possible(g, rpm, r)
    ensures GateOk(Acquired(g, rpm, r), rpm)
  {
    var pruned := Prune(g.deque, r.entered);
    PruneSuffix(g.starts, g.deque, g.now, r.entered);
    var ready := if |pruned| >= rpm then Prune(pruned, r.woken) else pruned;
    if |pruned| >= rpm {
      WaitMakesRoom(pruned, r.entered, r.woken);
      PruneSuffix(g.starts, pruned, r.entered, r.woken);
    }
    StampKeepsGate(g.starts, ready, rpm, r.woken, r.stamped);
    assert forall i :: 0 <= i < |g.starts| ==> g.starts[i] <= g.now;
  }

  lemma StampKeepsGate(starts: seq<real>, ready: seq<real>, rpm: nat, woken: real, stamped: real)
    requires Suffix(starts, ready, woken) && |ready| < rpm && woken <= stamped
    requires Sorted(starts) && RateBounded(starts, rpm)
    requires forall i :: 0 <= i < |starts| ==> starts[i] <= woken
    ensures GateOk(Gate(starts + [stamped], ready + [stamped], stamped), rpm)
  {
    var after := starts + [stamped];
    forall i, j | 0 <= i && j == i + rpm && j < |after| ensures after[j] - after[i] >= WINDOW {
      if j == |starts| {
        assert i < |starts| - |ready|;
      }
    }
  }

  lemma TimePasses(g: Gate, rpm: nat, later: real)
    requires GateOk(g, rpm) && g.now <= later
    ensures GateOk(g.(now := later), rpm)
  {
  }

  /** The gate after a whole run of acquisitions. */
  function AcquireAll(g: Gate, rpm: nat, run: seq<Readings>): Gate {
    if run == [] then g else Acquired(AcquireAll(g, rpm, run[..|run| - 1]), rpm, run[|run| - 1])
  }

  ghost predicate PossibleRun(g: Gate, rpm: nat, run: seq<Readings>) {
    forall k :: 0 <= k < |run| ==> Possible(AcquireAll(g, rpm, run[..k]), rpm, run[k])
  }

  /** Over any run from an idle gate, starts s_i and s_{i+rpm} are at least a window apart and the deque holds at most rpm. */
  lemma {:induction false} RunIsRateBounded(rpm: nat, start: real, run: seq<Readings>)
    requires rpm >= 1 && PossibleRun(Gate([], [], start), rpm, run)
    ensures GateOk(AcquireAll(Gate([], [], start), rpm, run), rpm)
    ensures RateBounded(AcquireAll(Gate([], [], start), rpm, run).starts, rpm)
    ensures |AcquireAll(Gate([], [], start), rpm, run).starts| == |run|
    ensures var starts := AcquireAll(Gate([], [], start), rpm, run).starts;
            forall i, j :: 0 <= i && j == i + rpm && j < |starts| ==> starts[j] - starts[i] >= 60.0
  {
    if run != [] {
      var before := run[..|run| - 1];
      forall k | 0 <= k < |before| ensures Possible(AcquireAll(Gate([], [], start), rpm, before[..k]), rpm, before[k]) {
        assert before[..k] == run[..k];
      }
      RunIsRateBounded(rpm, start, before);
      AcquireKeepsGate(AcquireAll(Gate([], [], start), rpm, before), rpm, run[|run| - 1]);
    }
  }

  // --------------------------------------------------------------- the gate object

  class Clock {
    var now: real

    constructor (now: real)
      ensures this.now == now
    {
      this.now := now;
    }

    method Monotonic() returns (t: real)
      modifies this
      ensures t == now >= old(now)
    {
      t := *;
      if t < now {
        t := now;
      }
      now := t;
    }

    method Sleep(duration: real)
      modifies this
      ensures now >= old(now) && now >= old(now) + duration
    {
      var oversleep: real := *;
      if duration > 0.0 {
        now := now + duration;
      }
      if oversleep > 0.0 {
        now := now + oversleep;
      }
    }
  }

  class ModelGate {
    const limit: nat
    const rpm: nat
    var permits: nat
    var timestamps: seq<real>
    ghost var starts: seq<real>

    /** Permits in use are `limit - permits`: never more than the limit, never negative. */
    ghost predicate Valid(clock: Clock)
      reads this, clock
    {
      limit >= 1 && rpm >= 1 && permits <= limit && GateOk(Gate(starts, timestamps, clock.now), rpm)
    }

    constructor (maxConcurrency: int, rpm: int)
      ensures forall clock: Clock :: Valid(clock)
      ensures limit == (if maxConcurrency < 1 then 1 else maxConcurrency) && permits == limit
      ensures this.rpm == (if rpm < 1 then 1 else rpm) && starts == []
    {
      limit := if maxConcurrency < 1 then 1 else maxConcurrency;
      this.rpm := if rpm < 1 then 1 else rpm;
      permits := if maxConcurrency < 1 then 1 else maxConcurrency;
      timestamps, starts := [], [];
    }

    /** Pops every start that is a full window old. */
    method DropOld(now: real)
      modifies this`timestamps
      ensures timestamps == Prune(old(timestamps), now)
    {
      while timestamps != [] && now - timestamps[0] >= WINDOW
        invariant Prune(timestamps, now) == Prune(old(timestamps), now)
        decreases |timestamps|
      {
        timestamps := timestamps[1..];
      }
    }

    /** Waits for a permit (the caller is suspended while there is none) and for room in the window. */
    method Acquire(clock: Clock) returns (ghost r: Readings)
      requires Valid(clock) && permits > 0
      modifies this, clock
      ensures Valid(clock) && permits == old(permits) - 1
      ensures Possible(old(Gate(starts, timestamps, clock.now)), rpm, r)
      ensures Gate(starts, timestamps, clock.now) == Acquired(old(Gate(starts, timestamps, clock.now)), rpm, r)
      ensures |starts| == |old(starts)| + 1 && old(starts) <= starts
      ensures old(clock.now) <= starts[|old(starts)|] == clock.now
    {
      ghost var before := Gate(starts, timestamps, clock.now);
      permits := permits - 1;
      var now := clock.Monotonic();
      ghost var entered := now;
      DropOld(now);
      ghost var pruned := timestamps;
      if |timestamps| >= rpm {
        var sleepFor := WINDOW - (now - timestamps[0]) + SLACK;
        clock.Sleep(if sleepFor > 0.0 then sleepFor else 0.0);
        now := clock.Monotonic();
        DropOld(now);
      }
      var stamp := clock.Monotonic();
      timestamps := timestamps + [stamp];
      starts := starts + [stamp];
      r := Readings(entered, now, stamp);
      AcquireKeepsGate(before, rpm, r);
    }

    method Release(clock: Clock)
      requires Valid(clock) && permits < limit
      modifies this`permits
      ensures Valid(clock) && permits == old(permits) + 1
    {
      permits := permits + 1;
    }
  }

  // ---------------------------------------------------------------- retry policy

  /** What one transport attempt does. */
  datatype Outcome = Success(value: nat) | Transient | Permanent

  datatype Failure = LastError(outcome: Outcome) | NoAttempt

  datatype Entry = Entry(attempt: nat, ok: bool)

  /** The attempt that ends the loop: the first that is not transient, or the last allowed one. */
  function LastAttempt(call: nat -> Outcome, attempt: nat, maxAttempts: int): (last: nat)
    requires attempt <= maxAttempts
    ensures attempt <= last <= maxAttempts
    ensures last == maxAttempts || !call(last).Transient?
    ensures forall k :: attempt <= k < last ==> call(k).Transient?
    decreases maxAttempts - attempt
  {
    if !call(attempt).Transient? || attempt == maxAttempts then attempt
    else LastAttempt(call, attempt + 1, maxAttempts)
  }

  /** One row for each of the attempts 1..last. */
  function Entries(call: nat -> Outcome, last: nat): seq<Entry> {
    if last == 0 then [] else Entries(call, last - 1) + [Entry(last, call(last).Success?)]
  }

  function Power2(n: nat): nat {
    if n == 0 then 1 else 2 * Power2(n - 1)
  }

  /** So the n-th power doubles with every attempt. */
  lemma {:induction false} Power2Multiplies(a: nat, b: nat)
    ensures Power2(a + b) == Power2(a) * Power2(b)
    ensures Power2(0) == 1 && Power2(1) == 2
  {
    if a == 0 {
      assert Power2(0 + b) == Power2(b);
    } else {
      Power2Multiplies(a - 1, b);
      assert Power2(a + b) == 2 * Power2(a - 1 + b);
      assert 2 * (Power2(a - 1) * Power2(b)) == (2 * Power2(a - 1)) * Power2(b);
    }
  }

  /** The row of each attempt is in its place, with its number and its success. */
  lemma {:induction false} EntriesMean(call: nat -> Outcome, last: nat)
    ensures |Entries(call, last)| == last
    ensures forall k :: 0 <= k < last ==> Entries(call, last)[k] == Entry(k + 1, call(k + 1).Success?)
  {
    if last > 0 {
      EntriesMean(call, last - 1);
    }
  }

  /** Exponential backoff with a cap and a jitter factor in [0.5, 1.5). */
  function Backoff(base: real, cap: real, attempt: nat, jitter: real): real
    requires attempt >= 1
  {
    var delay := base * Power2(attempt - 1) as real;
    (if delay < cap then delay else cap) * (0.5 + jitter)
  }

  /** The shortest pause after this attempt: half of the doubled base delay, or of the cap. */
  function ShortestPause(base: real, cap: real, attempt: nat): real
    requires attempt >= 1
  {
    (if base * Power2(attempt - 1) as real < cap then base * Power2(attempt - 1) as real else cap) / 2.0
  }

  lemma PauseIsLongEnough(base: real, cap: real, attempt: nat, jitter: real)
    requires attempt >= 1 && jitter >= 0.0
    ensures Backoff(base, cap, attempt, jitter) >= ShortestPause(base, cap, attempt) || ShortestPause(base, cap, attempt) < 0.0
  {
    var delay := 2.0 * ShortestPause(base, cap, attempt);
    assert Backoff(base, cap, attempt, jitter) == delay * (0.5 + jitter);
    if delay >= 0.0 {
      assert delay * jitter >= 0.0;
    }
  }

  /** Consecutive starts of one caller, the first of them at `from`, keep the pauses apart. */
  ghost predicate Paused(starts: seq<real>, from: nat, attempts: nat, base: real, cap: real) {
    forall k: nat :: 1 <= k < attempts && from + k < |starts| ==>
      starts[from + k] - starts[from + k - 1] >= ShortestPause(base, cap, k)
  }

  /** Half a pause has passed since the last start, if there was one. */
  ghost predicate Rested(starts: seq<real>, from: nat, attempts: nat, now: real, base: real, cap: real) {
    attempts > 0 && |starts| == from + attempts ==> now - starts[|starts| - 1] >= ShortestPause(base, cap, attempts)
  }

  lemma StartAfterRest(starts: seq<real>, after: seq<real>, from: nat, attempts: nat, now: real, base: real, cap: real)
    requires |starts| == from + attempts && starts <= after && |after| == |starts| + 1 && now <= after[|starts|]
    requires Paused(starts, from, attempts, base, cap) && Rested(starts, from, attempts, now, base, cap)
    ensures Paused(after, from, attempts + 1, base, cap)
  {
    hide ShortestPause;
    assert after == starts + [after[|starts|]];
  }

  /** Provided the jitter is never negative, the starts are paused and the caller has rested. */
  ghost predicate Paced(jitter: nat -> real, starts: seq<real>, from: nat, attempts: nat, now: real, base: real, cap: real) {
    (forall k: nat :: jitter(k) >= 0.0) ==> Paused(starts, from, attempts, base, cap) && Rested(starts, from, attempts, now, base, cap)
  }

  lemma NothingPaused(jitter: nat -> real, starts: seq<real>, now: real, base: real, cap: real)
    ensures Paced(jitter, starts, |starts|, 0, now, base, cap)
  {
  }

  lemma StartIsPaced(jitter: nat -> real, starts: seq<real>, after: seq<real>, from: nat, attempts: nat, now: real, base: real, cap: real)
    requires |starts| == from + attempts && starts <= after && |after| == |starts| + 1 && now <= after[|starts|]
    requires Paced(jitter, starts, from, attempts, now, base, cap)
    ensures (forall k: nat :: jitter(k) >= 0.0) ==> Paused(after, from, attempts + 1, base, cap)
  {
    if forall k: nat :: jitter(k) >= 0.0 {
      StartAfterRest(starts, after, from, attempts, now, base, cap);
    }
  }

  lemma SleepIsPaced(jitter: nat -> real, starts: seq<real>, from: nat, attempts: nat, started: real, now: real, base: real, cap: real)
    requires attempts >= 1 && |starts| == from + attempts
    requires starts[|starts| - 1] == started <= now && started + Backoff(base, cap, attempts, jitter(attempts)) <= now
    requires (forall k: nat :: jitter(k) >= 0.0) ==> Paused(starts, from, attempts, base, cap)
    ensures Paced(jitter, starts, from, attempts, now, base, cap)
  {
    hide Backoff, ShortestPause, Paused;
    if forall k: nat :: jitter(k) >= 0.0 {
      PauseIsLongEnough(base, cap, attempts, jitter(attempts));
    }
  }

  class Recorder {
    var entries: seq<Entry>

    constructor ()
      ensures entries == []
    {
      entries := [];
    }

    method Record(entry: Entry)
      modifies this
      ensures entries == old(entries) + [entry]
    {
      entries := entries + [entry];
    }
  }

  /** One attempt: a permit and a stamped start, the transport call, and its row. */
  method Attempt(gate: ModelGate, clock: Clock, recorder: Recorder, call: nat -> Outcome, attempt: nat) returns (outcome: Outcome)
    requires gate.Valid(clock) && gate.permits > 0
    modifies gate, clock, recorder
    ensures gate.Valid(clock) && gate.permits == old(gate.permits) - 1
    ensures outcome == call(attempt) && recorder.entries == old(recorder.entries) + [Entry(attempt, outcome.Success?)]
    ensures |gate.starts| == |old(gate.starts)| + 1 && old(gate.starts) <= gate.starts
    ensures old(clock.now) <= gate.starts[|old(gate.starts)|] == clock.now
  {
    hide GateOk, Acquired, Possible;
    ghost var r := gate.Acquire(clock);
    outcome := call(attempt);
    recorder.Record(Entry(attempt, outcome.Success?));
  }

  /** The pause before a retry; the permit is given back only after it. */
  method BackOff(gate: ModelGate, clock: Clock, duration: real)
    requires gate.Valid(clock) && gate.permits < gate.limit
    modifies gate`permits, clock
    ensures gate.Valid(clock) && gate.permits == old(gate.permits) + 1
    ensures clock.now >= old(clock.now) && clock.now >= old(clock.now) + duration
  {
    hide GateOk;
    ghost var held := Gate(gate.starts, gate.timestamps, clock.now);
    clock.Sleep(duration);
    TimePasses(held, gate.rpm, clock.now);
    gate.Release(clock);
  }

  /**
   Runs `call` under the gate with retries.  Every exit gives the permit back (it is kept during
   backoff), records one row an attempt, and stamps one start an attempt.
   */
  method RunWithPolicy(gate: ModelGate, clock: Clock, recorder: Recorder, call: nat -> Outcome, jitter: nat -> real,
                       maxRetries: int, base: real, cap: real)
    returns (result: Result<nat, Failure>, attempts: nat)
    requires gate.Valid(clock) && gate.permits > 0
    modifies gate, clock, recorder
    ensures gate.Valid(clock) && gate.permits == old(gate.permits)
    ensures maxRetries < 0 ==> attempts == 0 && result == Err(NoAttempt)
    ensures maxRetries >= 0 ==>
              && attempts == LastAttempt(call, 1, maxRetries + 1)
              && result == (if call(attempts).Success? then Ok(call(attempts).value) else Err(LastError(call(attempts))))
              && recorder.entries == old(recorder.entries) + Entries(call, attempts)
    ensures maxRetries < 0 ==> recorder.entries == old(recorder.entries)
    ensures |gate.starts| == |old(gate.starts)| + attempts && old(gate.starts) <= gate.starts
    ensures (forall k: nat :: jitter(k) >= 0.0) ==> Paused(gate.starts, |old(gate.starts)|, attempts, base, cap)
  {
    hide GateOk, Acquired, Possible, Backoff, Paced, Paused;
    var maxAttempts := maxRetries + 1;
    ghost var n := |gate.starts|;
    NothingPaused(jitter, gate.starts, clock.now, base, cap);
    attempts := 0;
    result := Err(NoAttempt);
    if maxAttempts < 1 {
      return;
    }
    ghost var last := LastAttempt(call, 1, maxAttempts);
    while attempts < maxAttempts
      invariant 0 <= attempts < last
      invariant gate.Valid(clock) && gate.permits == old(gate.permits)
      invariant LastAttempt(call, attempts + 1, maxAttempts) == last
      invariant recorder.entries == old(recorder.entries) + Entries(call, attempts)
      invariant |gate.starts| == n + attempts && old(gate.starts) <= gate.starts
      invariant Paced(jitter, gate.starts, n, attempts, clock.now, base, cap)
      decreases maxAttempts - attempts
    {
      ghost var before, now := gate.starts, clock.now;
      attempts := attempts + 1;
      var outcome := Attempt(gate, clock, recorder, call, attempts);
      StartIsPaced(jitter, before, gate.starts, n, attempts - 1, now, base, cap);
      if outcome.Success? {
        gate.Release(clock);
        result := Ok(outcome.value);
        return;
      }
      result := Err(LastError(outcome));
      if !outcome.Transient? || attempts >= maxAttempts {
        gate.Release(clock);
        return;
      }
      ghost var started := clock.now;
      BackOff(gate, clock, Backoff(base, cap, attempts, jitter(attempts)));
      SleepIsPaced(jitter, gate.starts, n, attempts, started, clock.now, base, cap);
    }
  }
}
