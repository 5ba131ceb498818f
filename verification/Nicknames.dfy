/**
 Case-insensitive nickname reservation (app/game/nicknames.py) and the player table that uses it.

 White space and case folding are Unicode tables: `space` classifies a character and `fold`
 gives the full case folding of one character, which may be longer than one.
 */
module Nicknames {
  import opened Wrappers
  import opened Sequences

  const MAX_LENGTH := 32

  datatype Unicode = Unicode(space: char -> bool, fold: char -> string)

  /** Decimal digits and the number sign are their own foldings. */
  ghost predicate Sane(unicode: Unicode) {
    unicode.fold('#') == "#" && forall c :: IsDigit(c) ==> unicode.fold(c) == [c]
  }

  predicate IsDigit(c: char) {
    '0' <= c <= '9'
  }

  function Fold(unicode: Unicode, s: string): string {
    if s == "" then "" else Fold(unicode, s[..|s| - 1]) + unicode.fold(s[|s| - 1])
  }

  // --------------------------------------------------------------- candidates

  function Rstrip(unicode: Unicode, s: string): (r: string)
    ensures |r| <= |s|
  {
    if s != "" && unicode.space(s[|s| - 1]) then Rstrip(unicode, s[..|s| - 1]) else s
  }

  function Lstrip(unicode: Unicode, s: string): string {
    if s != "" && unicode.space(s[0]) then Lstrip(unicode, s[1..]) else s
  }

  function Take(s: string, n: nat): (r: string)
    ensures |r| <= n && |r| <= |s|
    ensures |s| <= n ==> r == s
    ensures n > 0 && s != "" ==> r != ""
  {
    if |s| <= n then s else s[..n]
  }

  function Decimal(n: nat): (digits: string)
    ensures digits != "" && forall c :: c in digits ==> IsDigit(c)
  {
    if n < 10 then ["0123456789"[n]] else Decimal(n / 10) + ["0123456789"[n % 10]]
  }

  function Suffix(attempt: nat): string {
    "#" + Decimal(attempt + 1)
  }

  function Base(unicode: Unicode, requested: string): (base: string)
    ensures 1 <= |base| <= MAX_LENGTH
  {
    var stripped := Rstrip(unicode, Lstrip(unicode, requested));
    Take(if stripped == "" then "player" else stripped, MAX_LENGTH)
  }

  /** The part of the base kept in front of a suffix of this length. */
  function Trimmed(unicode: Unicode, requested: string, room: nat): (trimmed: string)
    requires room >= 1
    ensures 1 <= |trimmed| <= room
  {
    var cut := Rstrip(unicode, Take(Base(unicode, requested), room));
    if cut == "" then "p" else cut
  }

  /** The name proposed at this attempt; its length is always legal. */
  function Candidate(unicode: Unicode, requested: string, attempt: int): (name: string)
    ensures 1 <= |name| <= MAX_LENGTH
  {
    if attempt <= 0 then Base(unicode, requested)
    else
      var suffix := Suffix(attempt);
      if |suffix| > MAX_LENGTH - 1 then suffix[if |suffix| > MAX_LENGTH then |suffix| - MAX_LENGTH else 0..]
      else Trimmed(unicode, requested, MAX_LENGTH - |suffix|) + suffix
  }

  // ------------------------------------------------------------ in plain terms

  /** Nothing but white space. */
  predicate Blank(unicode: Unicode, s: string) {
    forall i :: 0 <= i < |s| ==> unicode.space(s[i])
  }

  /** No white space at either end. */
  predicate Bare(unicode: Unicode, s: string) {
    s != "" ==> !unicode.space(s[0]) && !unicode.space(s[|s| - 1])
  }

  lemma {:induction false} LstripDropsFront(unicode: Unicode, front: string, rest: string)
    requires Blank(unicode, front) && (rest != "" ==> !unicode.space(rest[0]))
    ensures Lstrip(unicode, front + rest) == rest
  {
    if front == "" {
      assert front + rest == rest;
    } else {
      LstripDropsFront(unicode, front[1..], rest);
      assert (front + rest)[1..] == front[1..] + rest;
    }
  }

  lemma {:induction false} RstripDropsBack(unicode: Unicode, rest: string, back: string)
    requires Blank(unicode, back) && (rest != "" ==> !unicode.space(rest[|rest| - 1]))
    ensures Rstrip(unicode, rest + back) == rest
  {
    if back == "" {
      assert rest + back == rest;
    } else {
      var k := |back| - 1;
      RstripDropsBack(unicode, rest, back[..k]);
      assert (rest + back)[..|rest| + k] == rest + back[..k];
    }
  }

  /** White space around the request is dropped, an empty request becomes "player", and 32 characters are kept. */
  lemma BaseMeans(unicode: Unicode, front: string, core: string, back: string)
    requires Blank(unicode, front) && Blank(unicode, back) && Bare(unicode, core)
    ensures Base(unicode, front + core + back) == if core == "" then "player" else if |core| <= 32 then core else core[..32]
  {
    if core == "" {
      assert front + core + back == (front + back) + "";
      LstripDropsFront(unicode, front + back, "");
    } else {
      assert front + core + back == front + (core + back);
      LstripDropsFront(unicode, front, core + back);
      RstripDropsBack(unicode, core, back);
    }
  }

  /** Trailing white space cut off. */
  predicate CutTo(unicode: Unicode, s: string, kept: string) {
    kept <= s && Blank(unicode, s[|kept|..]) && (kept != "" ==> !unicode.space(kept[|kept| - 1]))
  }

  lemma {:induction false} RstripCuts(unicode: Unicode, s: string)
    ensures CutTo(unicode, s, Rstrip(unicode, s))
  {
    if s != "" && unicode.space(s[|s| - 1]) {
      var front := s[..|s| - 1];
      RstripCuts(unicode, front);
      var kept := Rstrip(unicode, front);
      assert s[|kept|..] == front[|kept|..] + [s[|s| - 1]];
    }
  }

  /**
   A retry whose number leaves room: as much of the base as fits in front of the suffix, without
   trailing white space and never empty, then a number sign and one more than the attempt.
   */
  lemma RetryMeans(unicode: Unicode, requested: string, attempt: nat) returns (kept: string)
    requires attempt >= 1 && |Decimal(attempt + 1)| <= 30
    ensures var base, room := Base(unicode, requested), 31 - |Decimal(attempt + 1)|;
            && CutTo(unicode, if |base| <= room then base else base[..room], kept)
            && Candidate(unicode, requested, attempt) == (if kept == "" then "p" else kept) + "#" + Decimal(attempt + 1)
  {
    hide Decimal, Base, Rstrip;
    var base, room := Base(unicode, requested), 31 - |Decimal(attempt + 1)|;
    var cut := Take(base, room);
    RstripCuts(unicode, cut);
    kept := Rstrip(unicode, cut);
    assert cut == if |base| <= room then base else base[..room];
    assert Candidate(unicode, requested, attempt) == (if kept == "" then "p" else kept) + ("#" + Decimal(attempt + 1));
  }

  /** The number that decimal digits stand for. */
  function NumberOf(digits: string): int {
    if digits == "" then 0 else 10 * NumberOf(digits[..|digits| - 1]) + (digits[|digits| - 1] as int - '0' as int)
  }

  /** Decimal notation reads back as the number, without leading zeros. */
  lemma {:induction false} DecimalReads(n: nat)
    ensures NumberOf(Decimal(n)) == n && (n >= 1 ==> Decimal(n)[0] != '0')
  {
    var last := "0123456789"[n % 10];
    assert last as int - '0' as int == n % 10;
    if n < 10 {
      assert Decimal(n)[..0] == "";
    } else {
      DecimalReads(n / 10);
      var front := Decimal(n / 10);
      assert Decimal(n) == front + [last] && (front + [last])[..|front|] == front;
    }
  }

  // --------------------------------------------------------------- distinctness

  /** Folding goes character by character, by the given table. */
  lemma {:induction false} FoldJoin(unicode: Unicode, s: string, t: string)
    ensures Fold(unicode, s + t) == Fold(unicode, s) + Fold(unicode, t)
    ensures forall c :: Fold(unicode, [c]) == unicode.fold(c)
  {
    forall c ensures Fold(unicode, [c]) == unicode.fold(c) {
      assert [c][..0] == "";
    }
    if t == "" {
      assert s + t == s;
    } else {
      var front := t[..|t| - 1];
      FoldJoin(unicode, s, front);
      assert (s + t)[..|s + t| - 1] == s + front;
    }
  }

  lemma {:induction false} FoldPlain(unicode: Unicode, s: string)
    requires Sane(unicode) && forall c :: c in s ==> IsDigit(c) || c == '#'
    ensures Fold(unicode, s) == s
  {
    if s != "" {
      var front := s[..|s| - 1];
      assert s == front + [s[|s| - 1]];
      assert s[|s| - 1] in s;
      forall c | c in front ensures IsDigit(c) || c == '#' {
        assert c in s;
      }
      FoldPlain(unicode, front);
    }
  }

  /** What follows the last number sign is unique. */
  lemma {:induction false} AfterLastHash(p: string, d: string, q: string, e: string)
    requires '#' !in d && '#' !in e && p + "#" + d == q + "#" + e
    ensures d == e
    decreases |d|
  {
    var s := p + "#" + d;
    assert s == q + "#" + e;
    var last := s[|s| - 1];
    assert if d == "" then last == '#' else last == d[|d| - 1];
    assert if e == "" then last == '#' else last == e[|e| - 1];
    if d != "" && e != "" {
      assert s[..|s| - 1] == p + "#" + d[..|d| - 1] == q + "#" + e[..|e| - 1];
      AfterLastHash(p, d[..|d| - 1], q, e[..|e| - 1]);
      assert d == d[..|d| - 1] + [last] && e == e[..|e| - 1] + [last];
    }
  }

  lemma DigitInjective(a: nat, b: nat)
    requires a < 10 && b < 10 && "0123456789"[a] == "0123456789"[b]
    ensures a == b
  {
  }

  lemma {:induction false} DecimalInjective(m: nat, n: nat)
    requires Decimal(m) == Decimal(n)
    ensures m == n
  {
    var s := Decimal(m);
    assert s[|s| - 1] == "0123456789"[m % 10];
    assert s[|s| - 1] == "0123456789"[n % 10];
    DigitInjective(m % 10, n % 10);
    assert m >= 10 ==> s[..|s| - 1] == Decimal(m / 10);
    assert n >= 10 ==> s[..|s| - 1] == Decimal(n / 10);
    assert m >= 10 <==> |s| > 1;
    assert n >= 10 <==> |s| > 1;
    if m >= 10 {
      DecimalInjective(m / 10, n / 10);
    }
  }

  /** The suffix still fits the name whole. */
  predicate Fits(attempt: nat) {
    |Suffix(attempt)| <= MAX_LENGTH
  }

  lemma FoldedCandidate(unicode: Unicode, requested: string, attempt: nat) returns (front: string)
    requires Sane(unicode) && attempt >= 1 && Fits(attempt)
    ensures Fold(unicode, Candidate(unicode, requested, attempt)) == front + "#" + Decimal(attempt + 1)
  {
    hide Fold, Decimal, Trimmed, Base;
    var suffix := Suffix(attempt);
    FoldPlain(unicode, suffix);
    if |suffix| > MAX_LENGTH - 1 {
      front := "";
      assert suffix[0..] == suffix;
      assert front + suffix == suffix;
    } else {
      var trimmed := Trimmed(unicode, requested, MAX_LENGTH - |suffix|);
      FoldJoin(unicode, trimmed, suffix);
      front := Fold(unicode, trimmed);
    }
    assert front + "#" + Decimal(attempt + 1) == front + suffix;
  }

  lemma OverlongCandidate(unicode: Unicode, requested: string, attempt: nat)
    requires Sane(unicode) && attempt >= 1 && !Fits(attempt)
    ensures var digits := Decimal(attempt + 1);
            && |digits| >= MAX_LENGTH
            && Candidate(unicode, requested, attempt) == LastDigits(attempt + 1, MAX_LENGTH)
            && Fold(unicode, Candidate(unicode, requested, attempt)) == LastDigits(attempt + 1, MAX_LENGTH)
            && forall c :: c in LastDigits(attempt + 1, MAX_LENGTH) ==> IsDigit(c)
  {
    var digits := Decimal(attempt + 1);
    var suffix := Suffix(attempt);
    assert suffix[|suffix| - MAX_LENGTH..] == digits[|digits| - MAX_LENGTH..];
    FoldPlain(unicode, digits[|digits| - MAX_LENGTH..]);
  }

  function Pow10(k: nat): (power: nat)
    ensures power >= 1
  {
    if k == 0 then 1 else 10 * Pow10(k - 1)
  }

  lemma ModByTen(n: nat, p: nat)
    requires p >= 1
    ensures n % (10 * p) == n / 10 % p * 10 + n % 10
  {
    var q, r := n / 10 / p, n / 10 % p;
    assert n == 10 * (n / 10) + n % 10;
    assert n / 10 == p * q + r;
    assert 10 * (p * q) == (10 * p) * q;
    assert n == (10 * p) * q + (r * 10 + n % 10);
    DivisionIsUnique(n, 10 * p, q, r * 10 + n % 10);
  }

  lemma DivisionIsUnique(n: nat, d: nat, q: nat, r: nat)
    requires d >= 1 && n == d * q + r && r < d
    ensures n % d == r
  {
    var k := n / d - q;
    assert d * (n / d) == d * q + d * k;
    assert k >= 1 ==> d * k >= d;
    assert k <= -1 ==> d * k <= -(d as int);
  }

  /** A number has more than `k` digits exactly from `10^k` on. */
  lemma {:induction false} DecimalLongerThan(n: nat, k: nat)
    requires k >= 1
    ensures |Decimal(n)| > k <==> n >= Pow10(k)
  {
    if k == 1 {
      assert Pow10(1) == 10;
    } else if n >= 10 {
      DecimalLongerThan(n / 10, k - 1);
    }
  }

  function LastDigits(n: nat, k: nat): string
    requires |Decimal(n)| >= k
  {
    Decimal(n)[|Decimal(n)| - k..]
  }

  lemma ResidueStep(m: nat, n: nat, k: nat)
    requires k >= 1
    ensures m % Pow10(k) == n % Pow10(k) <==> m / 10 % Pow10(k - 1) == n / 10 % Pow10(k - 1) && m % 10 == n % 10
  {
    ModByTen(m, Pow10(k - 1));
    ModByTen(n, Pow10(k - 1));
  }

  lemma DecimalStep(n: nat)
    requires |Decimal(n)| >= 2
    ensures Decimal(n) == Decimal(n / 10) + ["0123456789"[n % 10]]
  {
  }

  lemma LastDigitsStep(n: nat, k: nat)
    requires 2 <= k <= |Decimal(n)|
    ensures |Decimal(n / 10)| >= k - 1
    ensures LastDigits(n, k) == LastDigits(n / 10, k - 1) + ["0123456789"[n % 10]]
  {
    hide Decimal;
    var front, last := Decimal(n / 10), "0123456789"[n % 10];
    DecimalStep(n);
    TailOfJoin(front, last, k - 1);
  }

  lemma TailOfJoin(front: string, last: char, k: nat)
    requires k <= |front|
    ensures (front + [last])[|front| - k..] == front[|front| - k..] + [last]
  {
  }

  lemma LastDigit(n: nat)
    ensures LastDigits(n, 1) == ["0123456789"[n % 10]]
  {
    var s := Decimal(n);
    assert s[|s| - 1] == "0123456789"[n % 10];
  }

  /** Two numbers end in the same `k` digits exactly when they agree modulo `10^k`. */
  lemma {:induction false} SameLastDigits(m: nat, n: nat, k: nat)
    requires k >= 1 && |Decimal(m)| >= k && |Decimal(n)| >= k
    ensures LastDigits(m, k) == LastDigits(n, k) <==> m % Pow10(k) == n % Pow10(k)
  {
    var x, y := "0123456789"[m % 10], "0123456789"[n % 10];
    assert x == y <==> m % 10 == n % 10 by {
      if x == y {
        DigitInjective(m % 10, n % 10);
      }
    }
    if k == 1 {
      LastDigit(m);
      LastDigit(n);
      assert Pow10(1) == 10;
    } else {
      hide Decimal, LastDigits, Pow10;
      LastDigitsStep(m, k);
      LastDigitsStep(n, k);
      SameLastDigits(m / 10, n / 10, k - 1);
      ResidueStep(m, n, k);
      SplitEqual(LastDigits(m / 10, k - 1), x, LastDigits(n / 10, k - 1), y);
    }
  }

  lemma SplitEqual(s: string, x: char, t: string, y: char)
    ensures s + [x] == t + [y] <==> s == t && x == y
  {
    var a, b := s + [x], t + [y];
    assert a[..|a| - 1] == s && b[..|b| - 1] == t;
    assert a[|a| - 1] == x && b[|b| - 1] == y;
  }

  /**
   Two retries collide up to case exactly when they are the same attempt, or both numbers are so
   long that the 32-character cap cuts them to the same last 32 digits.
   */
  lemma CandidatesCollide(unicode: Unicode, requested: string, i: nat, j: nat)
    requires Sane(unicode) && i >= 1 && j >= 1
    ensures Fold(unicode, Candidate(unicode, requested, i)) == Fold(unicode, Candidate(unicode, requested, j))
       <==> i == j || (!Fits(i) && !Fits(j) && (i + 1) % Pow10(MAX_LENGTH) == (j + 1) % Pow10(MAX_LENGTH))
    ensures Fits(i) <==> i + 1 < Pow10(MAX_LENGTH - 1)
  {
    var a := Fold(unicode, Candidate(unicode, requested, i));
    var b := Fold(unicode, Candidate(unicode, requested, j));
    hide Pow10, LastDigits, Decimal, Candidate;
    DecimalLongerThan(i + 1, MAX_LENGTH - 1);
    if Fits(i) {
      var front := FoldedCandidate(unicode, requested, i);
      if Fits(j) {
        var other := FoldedCandidate(unicode, requested, j);
        if a == b {
          AfterLastHash(front, Decimal(i + 1), other, Decimal(j + 1));
          DecimalInjective(i + 1, j + 1);
        }
      } else {
        OverlongCandidate(unicode, requested, j);
        HasHash(front, Decimal(i + 1), b);
      }
    } else {
      OverlongCandidate(unicode, requested, i);
      if Fits(j) {
        var front := FoldedCandidate(unicode, requested, j);
        HasHash(front, Decimal(j + 1), a);
      } else {
        OverlongCandidate(unicode, requested, j);
        SameLastDigits(i + 1, j + 1, MAX_LENGTH);
      }
    }
  }

  lemma HasHash(front: string, digits: string, plain: string)
    requires forall c :: c in plain ==> IsDigit(c)
    ensures front + "#" + digits != plain
  {
    var s := front + "#" + digits;
    assert s[|front|] == '#';
    assert '#' in s;
  }

  // ----------------------------------------------------------------- allocation

  predicate Taken(unicode: Unicode, requested: string, taken: set<string>, attempt: nat) {
    Fold(unicode, Candidate(unicode, requested, attempt)) in taken
  }

  lemma {:induction false} DecimalLength(m: nat, n: nat)
    requires m <= n
    ensures |Decimal(m)| <= |Decimal(n)|
  {
    if m >= 10 {
      DecimalLength(m / 10, n / 10);
    }
  }

  /** Pigeonhole: `k` taken retries use up `k` different taken names. */
  lemma {:induction false} TakenRetriesCount(unicode: Unicode, requested: string, taken: set<string>, k: nat) returns (used: set<string>)
    requires Sane(unicode) && Fits(k)
    requires forall attempt :: 1 <= attempt <= k ==> Taken(unicode, requested, taken, attempt)
    ensures used <= taken && |used| == k
    ensures forall name :: name in used ==> exists attempt :: 1 <= attempt <= k && name == Fold(unicode, Candidate(unicode, requested, attempt))
  {
    if k == 0 {
      used := {};
    } else {
      DecimalLength(k, k + 1);
      var before := TakenRetriesCount(unicode, requested, taken, k - 1);
      var name := Fold(unicode, Candidate(unicode, requested, k));
      forall attempt | 1 <= attempt <= k - 1 ensures name != Fold(unicode, Candidate(unicode, requested, attempt)) {
        CandidatesCollide(unicode, requested, attempt, k);
      }
      assert Taken(unicode, requested, taken, k);
      used := before + {name};
    }
  }

  /** With fewer than `maxAttempts - 1` names in use, some attempt is free. */
  lemma SomeAttemptIsFree(unicode: Unicode, requested: string, taken: set<string>, maxAttempts: nat)
    requires Sane(unicode) && maxAttempts >= 1 && Fits(maxAttempts - 1)
    requires |taken| < maxAttempts - 1
    ensures exists attempt: nat :: attempt < maxAttempts && !Taken(unicode, requested, taken, attempt)
  {
    if forall attempt: nat :: attempt < maxAttempts ==> Taken(unicode, requested, taken, attempt) {
      var used := TakenRetriesCount(unicode, requested, taken, maxAttempts - 1);
      SubsetSize(used, taken);
      assert false;
    }
  }

  datatype AllocationError = Exhausted

  /** The names as the uniqueness check sees them. */
  function FoldedSet(unicode: Unicode, names: seq<string>): (folded: set<string>)
    ensures |folded| <= |names|
  {
    if names == [] then {}
    else FoldedSet(unicode, names[..|names| - 1]) + {Fold(unicode, names[|names| - 1])}
  }

  lemma {:induction false} InFoldedSet(unicode: Unicode, names: seq<string>, folded: string)
    ensures folded in FoldedSet(unicode, names) <==> exists i :: 0 <= i < |names| && Fold(unicode, names[i]) == folded
  {
    if names != [] {
      var front := names[..|names| - 1];
      InFoldedSet(unicode, front, folded);
      assert forall i :: 0 <= i < |front| ==> front[i] == names[i];
      assert Fold(unicode, names[|names| - 1]) == folded ==>
             exists i :: 0 <= i < |names| && Fold(unicode, names[i]) == folded;
    }
  }

  /** Legal names, pairwise different up to case. */
  ghost predicate NamesOk(unicode: Unicode, names: seq<string>) {
    && (forall i :: 0 <= i < |names| ==> 1 <= |names[i]| <= 32)
    && (forall i, j :: 0 <= i < j < |names| ==> Fold(unicode, names[i]) != Fold(unicode, names[j]))
  }

  lemma FreeNameJoins(unicode: Unicode, names: seq<string>, name: string)
    requires NamesOk(unicode, names) && 1 <= |name| <= 32 && Fold(unicode, name) !in FoldedSet(unicode, names)
    ensures NamesOk(unicode, names + [name])
  {
    hide Fold;
    InFoldedSet(unicode, names, Fold(unicode, name));
  }

  /** Legal as it stands, and free up to case. */
  ghost predicate Wanted(unicode: Unicode, names: seq<string>, requested: string) {
    && 1 <= |requested| <= 32 && !unicode.space(requested[0]) && !unicode.space(requested[|requested| - 1])
    && forall i :: 0 <= i < |names| ==> Fold(unicode, names[i]) != Fold(unicode, requested)
  }

  lemma WantedIsFirst(unicode: Unicode, names: seq<string>, requested: string)
    requires Wanted(unicode, names, requested)
    ensures Base(unicode, requested) == requested && Candidate(unicode, requested, 0) == requested
    ensures !Taken(unicode, requested, FoldedSet(unicode, names), 0)
  {
    BaseMeans(unicode, "", requested, "");
    assert "" + requested + "" == requested;
    InFoldedSet(unicode, names, Fold(unicode, requested));
  }

  /** The players' display names, in joining order. */
  class PlayerTable {
    const unicode: Unicode
    var names: seq<string>

    ghost function Folded(): set<string>
      reads this
    {
      FoldedSet(unicode, names)
    }

    ghost predicate Valid()
      reads this
    {
      NamesOk(unicode, names)
    }

    constructor (unicode: Unicode)
      ensures Valid() && names == [] && this.unicode == unicode
    {
      this.unicode := unicode;
      names := [];
    }

    method NicknameTaken(candidate: string) returns (taken: bool)
      ensures taken <==> Fold(unicode, candidate) in Folded()
    {
      var needle := Fold(unicode, candidate);
      InFoldedSet(unicode, names, needle);
      for i := 0 to |names|
        invariant forall j :: 0 <= j < i ==> Fold(unicode, names[j]) != needle
      {
        if Fold(unicode, names[i]) == needle {
          return true;
        }
      }
      return false;
    }

    /** Probes the candidates in order and stops at the first free one. */
    method NextFreeNickname(requested: string, maxAttempts: int) returns (name: Result<string, AllocationError>)
      ensures name.Ok? ==>
                exists attempt: nat ::
                  && attempt < maxAttempts && name.value == Candidate(unicode, requested, attempt)
                  && !Taken(unicode, requested, Folded(), attempt)
                  && forall k: nat :: k < attempt ==> Taken(unicode, requested, Folded(), k)
      ensures name.Err? <==> forall k: nat :: k < maxAttempts ==> Taken(unicode, requested, Folded(), k)
    {
      hide Candidate, Fold, FoldedSet;
      var attempt := 0;
      while attempt < maxAttempts
        invariant 0 <= attempt
        invariant forall k: nat :: k < attempt ==> Taken(unicode, requested, Folded(), k)
      {
        var candidate := Candidate(unicode, requested, attempt);
        var taken := NicknameTaken(candidate);
        if !taken {
          assert !Taken(unicode, requested, Folded(), attempt);
          return Ok(candidate);
        }
        attempt := attempt + 1;
      }
      return Err(Exhausted);
    }

    /** Joins a player under the first free name, and cannot fail while fewer than `maxAttempts - 1` players exist. */
    method CreatePlayer(requested: string, maxAttempts: int) returns (name: Result<string, AllocationError>)
      requires Valid() && Sane(unicode)
      modifies this
      ensures Valid()
      ensures name.Ok? ==> names == old(names) + [name.value]
      ensures name.Err? ==> names == old(names)
      ensures maxAttempts >= 1 && Fits(maxAttempts - 1) && |old(names)| < maxAttempts - 1 ==> name.Ok?
      ensures name.Ok? && !Taken(unicode, requested, old(Folded()), 0) && maxAttempts >= 1 ==>
                name.value == Base(unicode, requested)
      ensures maxAttempts >= 1 && Wanted(unicode, old(names), requested) ==> names == old(names) + [requested]
    {
      assert Candidate(unicode, requested, 0) == Base(unicode, requested);
      hide Fold, FoldedSet, Base, Candidate, Decimal, NamesOk, Wanted;
      if Wanted(unicode, names, requested) {
        WantedIsFirst(unicode, names, requested);
      }
      ghost var folded := Folded();
      ghost var room := maxAttempts >= 1 && Fits(maxAttempts - 1) && |names| < maxAttempts - 1;
      if room {
        SomeAttemptIsFree(unicode, requested, folded, maxAttempts);
      }
      name := NextFreeNickname(requested, maxAttempts);
      assert Folded() == folded;
      assert room ==> name.Ok?;
      if name.Ok? {
        FreeNameJoins(unicode, names, name.value);
        names := names + [name.value];
      }
    }
  }
}
