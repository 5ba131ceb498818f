/**
 The append-only corpus: numbered shard files of JSON lines that rotate when full
 (worker/corpus.py).  The specification is a sequence of shards whose concatenation is
 the log; `CorpusWriter` keeps the files themselves.  One append is atomic.
 */
module Corpus {
  import opened Wrappers
  import opened Records

  type Shards = seq<seq<Golden>>

  datatype AppendError = MissingUtterance

  // ------------------------------------------------------------ specification

  /** The flat log: every line in append order. */
  function Flatten(shards: Shards): seq<Golden> {
    if shards == [] then [] else Flatten(shards[..|shards| - 1]) + shards[|shards| - 1]
  }

  predicate Carries(lines: seq<Golden>, id: TurnId) {
    exists i :: 0 <= i < |lines| && lines[i].utterance == Some(id)
  }

  /** The line of `golden` is in the shard with this number (numbers start at 1). */
  predicate InShard(shards: Shards, number: ShardNumber, golden: Golden) {
    1 <= number <= |shards| && golden in shards[number - 1]
  }

  /** The lowest-numbered shard that carries an utterance. */
  function Find(shards: Shards, id: TurnId): (found: Option<ShardNumber>)
    ensures found.Some? ==> 1 <= found.value <= |shards| && Carries(shards[found.value - 1], id)
    ensures found.None? ==> forall i :: 0 <= i < |shards| ==> !Carries(shards[i], id)
  {
    if shards == [] then None
    else
      var before := Find(shards[..|shards| - 1], id);
      if before.Some? then before
      else if Carries(shards[|shards| - 1], id) then Some(|shards|)
      else None
  }

  /** Number of the shard that takes the next line. */
  function Current(shards: Shards, limit: int): ShardNumber {
    if |shards| == 0 then 1
    else if |shards[|shards| - 1]| >= limit then |shards| + 1
    else |shards|
  }

  function Put(shards: Shards, limit: int, golden: Golden): Shards {
    if Current(shards, limit) == |shards| + 1 then shards + [[golden]]
    else shards[|shards| - 1 := shards[|shards| - 1] + [golden]]
  }

  /** One `append` call: reject a record without an id, reuse an existing line, or add one. */
  function AppendLine(shards: Shards, limit: int, golden: Golden): (Shards, Result<ShardNumber, AppendError>) {
    match golden.utterance
    case None => (shards, Err(MissingUtterance))
    case Some(id) =>
      match Find(shards, id)
      case Some(number) => (shards, Ok(number))
      case None => (Put(shards, limit, golden), Ok(Current(shards, limit)))
  }

  /** No utterance id is on two lines. */
  ghost predicate Distinct(log: seq<Golden>) {
    forall i, j :: 0 <= i < j < |log| ==> log[i].utterance != log[j].utterance
  }

  /** Old content is never rewritten: shards only gain lines at their ends. */
  ghost predicate Extends(before: Shards, after: Shards) {
    |before| <= |after| && forall i :: 0 <= i < |before| ==> before[i] <= after[i]
  }

  /** A configured limit below one behaves as one line a shard. */
  function Capacity(limit: int): (capacity: nat)
    ensures capacity >= 1
  {
    if limit < 1 then 1 else limit
  }

  /** The layout that a flat log must have: full shards followed by one non-empty remainder. */
  ghost function Chunks(log: seq<Golden>, capacity: nat): (shards: Shards)
    requires capacity >= 1
    decreases |log|
  {
    if log == [] then []
    else if |log| <= capacity then [log]
    else [log[..capacity]] + Chunks(log[capacity..], capacity)
  }

  // ------------------------------------------------------------------- lemmas

  lemma {:induction false} FlattenIndex(shards: Shards, number: ShardNumber, j: nat) returns (k: nat)
    requires 1 <= number <= |shards| && j < |shards[number - 1]|
    ensures k == |Flatten(shards[..number - 1])| + j
    ensures k < |Flatten(shards)| && Flatten(shards)[k] == shards[number - 1][j]
  {
    var rest := shards[..|shards| - 1];
    assert rest[..number - 1] == shards[..number - 1];
    if number == |shards| {
      k := |Flatten(rest)| + j;
    } else {
      k := FlattenIndex(rest, number, j);
    }
  }

  lemma {:induction false} FlattenLocate(shards: Shards, k: nat) returns (number: ShardNumber, j: nat)
    requires k < |Flatten(shards)|
    ensures 1 <= number <= |shards| && j < |shards[number - 1]| && shards[number - 1][j] == Flatten(shards)[k]
  {
    var rest := shards[..|shards| - 1];
    if k < |Flatten(rest)| {
      number, j := FlattenLocate(rest, k);
    } else {
      number, j := |shards|, k - |Flatten(rest)|;
    }
  }

  /** Scanning shard by shard finds an utterance exactly when the flat log carries it. */
  lemma FindAgreesWithLog(shards: Shards, id: TurnId)
    ensures Find(shards, id).Some? <==> Carries(Flatten(shards), id)
  {
    var found := Find(shards, id);
    if found.Some? {
      var j :| 0 <= j < |shards[found.value - 1]| && shards[found.value - 1][j].utterance == Some(id);
      var k := FlattenIndex(shards, found.value, j);
    }
    if Carries(Flatten(shards), id) {
      var k :| 0 <= k < |Flatten(shards)| && Flatten(shards)[k].utterance == Some(id);
      var number, j := FlattenLocate(shards, k);
      assert Carries(shards[number - 1], id);
    }
  }

  lemma PutAppends(shards: Shards, limit: int, golden: Golden)
    ensures Flatten(Put(shards, limit, golden)) == Flatten(shards) + [golden]
    ensures Extends(shards, Put(shards, limit, golden))
    ensures InShard(Put(shards, limit, golden), Current(shards, limit), golden)
  {
    var after := Put(shards, limit, golden);
    assert after[..|after| - 1] == if Current(shards, limit) == |shards| + 1 then shards else shards[..|shards| - 1];
  }

  /** An append adds its line exactly when the log does not carry the id; otherwise nothing changes. */
  lemma AppendEffect(shards: Shards, limit: int, golden: Golden)
    requires golden.utterance.Some?
    ensures var (after, result) := AppendLine(shards, limit, golden);
            && result.Ok? && Extends(shards, after)
            && Flatten(after) == (if Carries(Flatten(shards), golden.utterance.value) then Flatten(shards)
                                  else Flatten(shards) + [golden])
            && 1 <= result.value <= |after| && Carries(after[result.value - 1], golden.utterance.value)
  {
    FindAgreesWithLog(shards, golden.utterance.value);
    PutAppends(shards, limit, golden);
  }

  lemma {:induction false} TwoShardsRepeat(shards: Shards, id: TurnId, a: ShardNumber, b: ShardNumber)
    requires 1 <= a < b <= |shards|
    requires Carries(shards[a - 1], id) && Carries(shards[b - 1], id)
    ensures !Distinct(Flatten(shards))
  {
    var rest := shards[..|shards| - 1];
    var log := Flatten(shards);
    if b < |shards| {
      TwoShardsRepeat(rest, id, a, b);
      var i, j :| 0 <= i < j < |Flatten(rest)| && Flatten(rest)[i].utterance == Flatten(rest)[j].utterance;
      assert log[i].utterance == log[j].utterance;
    } else {
      var i :| 0 <= i < |rest[a - 1]| && rest[a - 1][i].utterance == Some(id);
      var k := FlattenIndex(rest, a, i);
      var j :| 0 <= j < |shards[b - 1]| && shards[b - 1][j].utterance == Some(id);
      assert log[k].utterance == log[|Flatten(rest)| + j].utterance;
    }
  }

  /** The shard that carries an utterance is unique, whatever order the files are scanned in. */
  lemma OnlyOneShard(shards: Shards, id: TurnId, a: ShardNumber, b: ShardNumber)
    requires Distinct(Flatten(shards))
    requires 1 <= a <= |shards| && Carries(shards[a - 1], id)
    requires 1 <= b <= |shards| && Carries(shards[b - 1], id)
    ensures a == b
  {
    if a < b {
      TwoShardsRepeat(shards, id, a, b);
    } else if b < a {
      TwoShardsRepeat(shards, id, b, a);
    }
  }

  /** A line is found at one place only: equal ids mean the same shard and the same position in it. */
  lemma OnlyOneLine(shards: Shards, a: ShardNumber, i: nat, b: ShardNumber, j: nat)
    requires Distinct(Flatten(shards))
    requires 1 <= a <= |shards| && i < |shards[a - 1]| && shards[a - 1][i].utterance.Some?
    requires 1 <= b <= |shards| && j < |shards[b - 1]| && shards[a - 1][i].utterance == shards[b - 1][j].utterance
    ensures a == b && i == j
  {
    OnlyOneShard(shards, shards[a - 1][i].utterance.value, a, b);
    var k := FlattenIndex(shards, a, i);
    var l := FlattenIndex(shards, b, j);
  }

  lemma {:induction false} ChunksShape(log: seq<Golden>, capacity: nat)
    requires capacity >= 1
    ensures var shards := Chunks(log, capacity);
            && (shards == [] <==> log == [])
            && (forall i :: 0 <= i < |shards| ==> 1 <= |shards[i]| <= capacity)
            && (forall i :: 0 <= i < |shards| - 1 ==> |shards[i]| == capacity)
    decreases |log|
  {
    if |log| > capacity {
      ChunksShape(log[capacity..], capacity);
    }
  }

  lemma {:induction false} FlattenCons(first: seq<Golden>, rest: Shards)
    ensures Flatten([first] + rest) == first + Flatten(rest)
  {
    var all := [first] + rest;
    if rest == [] {
      assert all[..0] == [];
    } else {
      FlattenCons(first, rest[..|rest| - 1]);
      assert all[..|all| - 1] == [first] + rest[..|rest| - 1];
    }
  }

  lemma {:induction false} FlattenChunks(log: seq<Golden>, capacity: nat)
    requires capacity >= 1
    ensures Flatten(Chunks(log, capacity)) == log
    decreases |log|
  {
    if log == [] {
    } else if |log| <= capacity {
      assert [log][..0] == [];
    } else {
      FlattenChunks(log[capacity..], capacity);
      FlattenCons(log[..capacity], Chunks(log[capacity..], capacity));
    }
  }

  lemma {:induction false} PutKeepsChunks(log: seq<Golden>, limit: int, golden: Golden)
    ensures Put(Chunks(log, Capacity(limit)), limit, golden) == Chunks(log + [golden], Capacity(limit))
    decreases |log|
  {
    var capacity := Capacity(limit);
    var longer := log + [golden];
    ChunksShape(log, capacity);
    if log == [] {
      assert longer == [golden];
    } else if |log| < capacity {
      assert Chunks(log, capacity) == [log];
    } else if |log| == capacity {
      assert Chunks(log, capacity) == [log];
      assert longer[..capacity] == log && longer[capacity..] == [golden];
    } else {
      var tail := log[capacity..];
      PutKeepsChunks(tail, limit, golden);
      ChunksShape(tail, capacity);
      assert longer[..capacity] == log[..capacity] && longer[capacity..] == tail + [golden];
      PutUnderCons(log[..capacity], Chunks(tail, capacity), limit, golden);
    }
  }

  lemma PutUnderCons(first: seq<Golden>, rest: Shards, limit: int, golden: Golden)
    requires rest != []
    ensures Put([first] + rest, limit, golden) == [first] + Put(rest, limit, golden)
  {
    var all := [first] + rest;
    assert all[|all| - 1] == rest[|rest| - 1];
  }

  // ---------------------------------------------------------------- whole runs

  /** The corpus after a sequence of append calls on an empty directory. */
  function AppendAll(goldens: seq<Golden>, limit: int): Shards {
    if goldens == [] then []
    else AppendLine(AppendAll(goldens[..|goldens| - 1], limit), limit, goldens[|goldens| - 1]).0
  }

  /** First occurrences only; records without an id are dropped. */
  function FirstCopies(goldens: seq<Golden>): (kept: seq<Golden>)
    ensures Distinct(kept)
    ensures forall i :: 0 <= i < |kept| ==> kept[i].utterance.Some?
  {
    if goldens == [] then []
    else
      var before := FirstCopies(goldens[..|goldens| - 1]);
      var golden := goldens[|goldens| - 1];
      if golden.utterance.None? || Carries(before, golden.utterance.value) then before else before + [golden]
  }

  /**
   Every run of appends, rejected and repeated ones included, leaves exactly the first
   copies in order, laid out in full shards of the configured size and one remainder.
   */
  lemma {:induction false} LogRefinement(goldens: seq<Golden>, limit: int)
    ensures AppendAll(goldens, limit) == Chunks(FirstCopies(goldens), Capacity(limit))
    ensures Flatten(AppendAll(goldens, limit)) == FirstCopies(goldens)
    ensures var shards, size := AppendAll(goldens, limit), if limit < 1 then 1 else limit;
            && (forall i :: 0 <= i < |shards| - 1 ==> |shards[i]| == size)
            && (shards != [] ==> 1 <= |shards[|shards| - 1]| <= size)
  {
    ChunksShape(FirstCopies(goldens), Capacity(limit));
    if goldens != [] {
      var before := goldens[..|goldens| - 1];
      var golden := goldens[|goldens| - 1];
      LogRefinement(before, limit);
      if golden.utterance.Some? {
        FindAgreesWithLog(AppendAll(before, limit), golden.utterance.value);
        PutKeepsChunks(FirstCopies(before), limit, golden);
      }
    }
    FlattenChunks(FirstCopies(goldens), Capacity(limit));
  }

  // ------------------------------------------------------------------- writer

  /** The files as a sequence: shard n at index n - 1. */
  ghost function Layout(files: map<ShardNumber, seq<Golden>>): Shards {
    seq(|files|, i requires 0 <= i < |files| => if i + 1 in files then files[i + 1] else [])
  }

  ghost predicate Numbered(files: map<ShardNumber, seq<Golden>>) {
    forall n :: n in files <==> 1 <= n <= |files|
  }

  lemma LayoutGrows(files: map<ShardNumber, seq<Golden>>, lines: seq<Golden>)
    requires Numbered(files)
    ensures var after := files[|files| + 1 := lines];
            Numbered(after) && Layout(after) == Layout(files) + [lines]
  {
    var after := files[|files| + 1 := lines];
    assert |files| + 1 !in files;
    assert after.Keys == files.Keys + {|files| + 1};
    assert |after| == |after.Keys| && |files| == |files.Keys|;
    forall i | 0 <= i < |files| ensures Layout(after)[i] == Layout(files)[i] {
      assert i + 1 in files;
    }
  }

  lemma LayoutReplaced(files: map<ShardNumber, seq<Golden>>, number: ShardNumber, lines: seq<Golden>)
    requires Numbered(files) && number in files
    ensures var after := files[number := lines];
            Numbered(after) && Layout(after) == Layout(files)[number - 1 := lines]
  {
    var after := files[number := lines];
    assert after.Keys == files.Keys;
    assert |after| == |after.Keys| && |files| == |files.Keys|;
    forall i | 0 <= i < |files| ensures Layout(after)[i] == Layout(files)[number - 1 := lines][i] {
      assert i + 1 in files;
    }
  }

  lemma WriteIsPut(files: map<ShardNumber, seq<Golden>>, limit: int, golden: Golden)
    requires Numbered(files)
    ensures var number := Current(Layout(files), limit);
            var after := files[number := (if number in files then files[number] else []) + [golden]];
            Numbered(after) && Layout(after) == Put(Layout(files), limit, golden)
  {
    var number := Current(Layout(files), limit);
    if number in files {
      LayoutReplaced(files, number, files[number] + [golden]);
    } else {
      assert number == |files| + 1;
      assert [] + [golden] == [golden];
      LayoutGrows(files, [golden]);
    }
  }

  lemma AppendKeepsLayout(shards: Shards, limit: int, golden: Golden)
    requires Distinct(Flatten(shards)) && shards == Chunks(Flatten(shards), Capacity(limit))
    ensures var (after, _) := AppendLine(shards, limit, golden);
            Distinct(Flatten(after)) && after == Chunks(Flatten(after), Capacity(limit))
  {
    hide Distinct, Flatten, Chunks, Put, Find, Current;
    if golden.utterance.Some? {
      AppendEffect(shards, limit, golden);
      FindAgreesWithLog(shards, golden.utterance.value);
      PutKeepsChunks(Flatten(shards), limit, golden);
      DistinctAppend(Flatten(shards), golden);
    }
  }

  lemma DistinctAppend(log: seq<Golden>, golden: Golden)
    requires Distinct(log) && golden.utterance.Some?
    ensures Carries(log, golden.utterance.value) || Distinct(log + [golden])
  {
  }

  /** The shard files as the writer finds them on disk. */
  class CorpusWriter {
    var files: map<ShardNumber, seq<Golden>>
    const limit: int

    ghost predicate Valid()
      reads this
    {
      && Numbered(files)
      && Distinct(Flatten(Shards()))
      && Shards() == Chunks(Flatten(Shards()), Capacity(limit))
    }

    ghost function Shards(): Shards
      reads this
    {
      Layout(files)
    }

    constructor (limit: int)
      ensures Valid() && Shards() == [] && this.limit == limit
    {
      this.limit := limit;
      files := map[];
    }

    /** Whether any line of one shard carries the utterance. */
    static method ShardContains(lines: seq<Golden>, id: TurnId) returns (found: bool)
      ensures found <==> Carries(lines, id)
    {
      for i := 0 to |lines|
        invariant forall j :: 0 <= j < i ==> lines[j].utterance != Some(id)
      {
        if lines[i].utterance == Some(id) {
          return true;
        }
      }
      return false;
    }

    method FindUtterance(id: TurnId) returns (found: Option<ShardNumber>)
      requires Valid()
      ensures found == Find(Shards(), id)
      ensures found.Some? <==> Carries(Flatten(Shards()), id)
    {
      FindAgreesWithLog(Shards(), id);
      var number := 1;
      while number <= |files|
        invariant 1 <= number <= |files| + 1
        invariant forall n :: 1 <= n < number ==> !Carries(files[n], id)
      {
        var here := ShardContains(files[number], id);
        if here {
          FindIsFirst(Shards(), id, number);
          return Some(number);
        }
        number := number + 1;
      }
      assert forall i :: 0 <= i < |files| ==> !Carries(Shards()[i], id);
      return None;
    }

    /** The highest existing shard, or the next one when that is full. */
    method CurrentShard() returns (number: ShardNumber)
      requires Valid()
      ensures number == Current(Shards(), limit)
    {
      number := 1;
      var rest := files.Keys;
      ghost var seen: set<ShardNumber> := {};
      while rest != {}
        invariant rest + seen == files.Keys
        invariant forall n :: n in seen ==> n <= number
        invariant number == 1 || number in seen
        decreases rest
      {
        var n :| n in rest;
        if n > number {
          number := n;
        }
        rest, seen := rest - {n}, seen + {n};
      }
      if |files| > 0 {
        assert |files| in seen;
      }
      assert |files| > 0 ==> number == |files|;
      if number in files && |files[number]| >= limit {
        number := number + 1;
      }
    }

    method Append(golden: Golden) returns (result: Result<ShardNumber, AppendError>)
      requires Valid()
      modifies this
      ensures Valid()
      ensures (Shards(), result) == AppendLine(old(Shards()), limit, golden)
      ensures Flatten(Shards()) ==
              if golden.utterance.None? || Carries(old(Flatten(Shards())), golden.utterance.value)
              then old(Flatten(Shards())) else old(Flatten(Shards())) + [golden]
    {
      AppendKeepsLayout(Shards(), limit, golden);
      if golden.utterance.None? {
        return Err(MissingUtterance);
      }
      AppendEffect(Shards(), limit, golden);
      var existing := FindUtterance(golden.utterance.value);
      if existing.Some? {
        return Ok(existing.value);
      }
      var number := CurrentShard();
      WriteIsPut(files, limit, golden);
      files := files[number := (if number in files then files[number] else []) + [golden]];
      return Ok(number);
    }
  }

  lemma {:induction false} FindIsFirst(shards: Shards, id: TurnId, number: ShardNumber)
    requires 1 <= number <= |shards| && Carries(shards[number - 1], id)
    requires forall i :: 0 <= i < number - 1 ==> !Carries(shards[i], id)
    ensures Find(shards, id) == Some(number)
  {
    if number < |shards| {
      FindIsFirst(shards[..|shards| - 1], id, number);
    }
  }
}
