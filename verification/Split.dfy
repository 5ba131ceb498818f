/**
 The deterministic stratified train/holdout split (tune/prepare.py): group rows by native
 language, apportion the holdout by largest remainder, and order everything by hashes.

 SHA-256 digests under the configured seed are the numbers `rowRank` and `langRank`;
 where a result needs them to be collision-free it says so.
 */
module Split {
  import opened Sorting
  import opened Apportion

  datatype Row = Row(id: string, lang: string, content: nat)

  datatype SplitConfig = SplitConfig(fraction: real, rowRank: string -> nat, langRank: string -> nat)

  // ------------------------------------------------------------ specification

  function Group(rows: seq<Row>, lang: string): seq<Row> {
    if rows == [] then []
    else
      var before := Group(rows[..|rows| - 1], lang);
      var row := rows[|rows| - 1];
      if row.lang == lang then before + [row] else before
  }

  /** Languages in order of first appearance. */
  function Langs(rows: seq<Row>): seq<string> {
    if rows == [] then []
    else
      var before := Langs(rows[..|rows| - 1]);
      var row := rows[|rows| - 1];
      if row.lang in before then before else before + [row.lang]
  }

  ghost predicate AllDifferent(s: seq<string>) {
    forall i, j :: 0 <= i < j < |s| ==> s[i] != s[j]
  }

  lemma {:induction false} LangsDistinct(rows: seq<Row>)
    ensures AllDifferent(Langs(rows))
  {
    if rows != [] {
      LangsDistinct(rows[..|rows| - 1]);
    }
  }

  lemma {:induction false} LangsCover(rows: seq<Row>, row: Row)
    requires row in rows
    ensures row.lang in Langs(rows)
  {
    if row != rows[|rows| - 1] {
      LangsCover(rows[..|rows| - 1], row);
    }
  }

  lemma {:induction false} LangsOccur(rows: seq<Row>, lang: string) returns (row: Row)
    requires lang in Langs(rows)
    ensures row in rows && row.lang == lang
  {
    row := rows[|rows| - 1];
    if row.lang != lang {
      row := LangsOccur(rows[..|rows| - 1], lang);
    }
  }

  function Sizes(rows: seq<Row>): map<string, nat> {
    map lang | lang in Langs(rows) :: |Group(rows, lang)|
  }

  /** The exact holdout share of `n` rows. */
  function Share(n: nat, fraction: real): real {
    n as real * fraction
  }

  function Exact(sizes: map<string, nat>, fraction: real, lang: string): real {
    if lang in sizes then Share(sizes[lang], fraction) else 0.0
  }

  /** Larger fractional part first, hash order among equals. */
  function RankLe(sizes: map<string, nat>, config: SplitConfig): (string, string) -> bool {
    (a: string, b: string) =>
      var ra, rb := Remainder(Exact(sizes, config.fraction, a)), Remainder(Exact(sizes, config.fraction, b));
      ra > rb || (ra == rb && config.langRank(a) <= config.langRank(b))
  }

  function RowLe(config: SplitConfig): (Row, Row) -> bool {
    (a: Row, b: Row) => config.rowRank(a.id) <= config.rowRank(b.id)
  }

  function Ranked(rows: seq<Row>, config: SplitConfig): seq<string> {
    Sort(Langs(rows), RankLe(Sizes(rows), config))
  }

  /** Exact holdout shares in ranking order. */
  function Shares(ranked: seq<string>, sizes: map<string, nat>, fraction: real): seq<real> {
    seq(|ranked|, i requires 0 <= i < |ranked| => Exact(sizes, fraction, ranked[i]))
  }

  /** The number of languages whose quota is rounded up. */
  function Extra(rows: seq<Row>, config: SplitConfig): int {
    Remaining(Shares(Ranked(rows, config), Sizes(rows), config.fraction), Round(Share(|rows|, config.fraction)))
  }

  function QuotaOf(rows: seq<Row>, config: SplitConfig, lang: string): int {
    var ranked := Ranked(rows, config);
    Exact(Sizes(rows), config.fraction, lang).Floor
    + (if exists i :: 0 <= i < |ranked| && i < Extra(rows, config) && ranked[i] == lang then 1 else 0)
  }

  /** `ordered[:quota]` and `ordered[quota:]` over the languages, quotas clamped to the group. */
  function Clamp(quota: int, size: nat): (k: nat)
    ensures k <= size
  {
    if quota < 0 then 0 else if quota > size then size else quota
  }

  function Taken(order: seq<string>, rows: seq<Row>, config: SplitConfig, held: bool): seq<Row> {
    if order == [] then []
    else
      var lang := order[|order| - 1];
      var group := Sort(Group(rows, lang), RowLe(config));
      var k := Clamp(QuotaOf(rows, config, lang), |group|);
      Taken(order[..|order| - 1], rows, config, held) + (if held then group[..k] else group[k..])
  }

  function TrainHoldout(rows: seq<Row>, config: SplitConfig): (seq<Row>, seq<Row>) {
    var order := Sort(Langs(rows), StringLe);
    (Taken(order, rows, config, false), Taken(order, rows, config, true))
  }

  // ----------------------------------------------------------------- orders

  lemma RankTotal(sizes: map<string, nat>, config: SplitConfig)
    ensures Total(RankLe(sizes, config))
  {
  }

  lemma RowTotal(config: SplitConfig)
    ensures Total(RowLe(config))
  {
  }

  /** The ranking lists each language once, by falling remainder. */
  lemma RankedFacts(rows: seq<Row>, config: SplitConfig)
    ensures var ranked := Ranked(rows, config);
            && multiset(ranked) == multiset(Langs(rows)) && AllDifferent(ranked)
            && (forall lang :: lang in ranked <==> lang in Langs(rows))
            && FallingRemainders(Shares(ranked, Sizes(rows), config.fraction))
  {
    var sizes := Sizes(rows);
    var ranked := Ranked(rows, config);
    RankTotal(sizes, config);
    SortSorts(Langs(rows), RankLe(sizes, config));
    LangsDistinct(rows);
    DistinctFromMultiset(Langs(rows), ranked);
    var shares := Shares(ranked, sizes, config.fraction);
    forall i, j | 0 <= i < j < |shares| ensures Remainder(shares[i]) >= Remainder(shares[j]) {
      assert RankLe(sizes, config)(ranked[i], ranked[j]);
    }
  }

  // ------------------------------------------------------------- group totals

  function Collect(order: seq<string>, rows: seq<Row>): seq<Row> {
    if order == [] then [] else Collect(order[..|order| - 1], rows) + Group(rows, order[|order| - 1])
  }

  lemma {:induction false} CollectGrows(order: seq<string>, rows: seq<Row>, row: Row)
    requires AllDifferent(order)
    ensures multiset(Collect(order, rows + [row]))
         == multiset(Collect(order, rows)) + (if row.lang in order then multiset{row} else multiset{})
  {
    if order != [] {
      var rest := order[..|order| - 1];
      var lang := order[|order| - 1];
      CollectGrows(rest, rows, row);
      assert (rows + [row])[..|rows|] == rows;
      assert order == rest + [lang];
    }
  }

  /** Gathering the groups of distinct languages that cover the rows rearranges the rows. */
  lemma {:induction false} CollectAll(order: seq<string>, rows: seq<Row>)
    requires AllDifferent(order)
    requires forall row :: row in rows ==> row.lang in order
    ensures multiset(Collect(order, rows)) == multiset(rows)
    ensures |Collect(order, rows)| == |rows|
  {
    if rows == [] {
      CollectNothing(order);
    } else {
      var before := rows[..|rows| - 1];
      var row := rows[|rows| - 1];
      assert rows == before + [row];
      assert row in rows;
      CollectAll(order, before);
      CollectGrows(order, before, row);
    }
    assert |multiset(Collect(order, rows))| == |Collect(order, rows)| && |multiset(rows)| == |rows|;
  }

  lemma {:induction false} CollectNothing(order: seq<string>)
    ensures Collect(order, []) == []
  {
    if order != [] {
      CollectNothing(order[..|order| - 1]);
    }
  }

  /** Exact shares add up to the fraction of all gathered rows. */
  lemma {:induction false} SharesTotal(order: seq<string>, rows: seq<Row>, fraction: real)
    requires forall i :: 0 <= i < |order| ==> order[i] in Langs(rows)
    ensures SumReal(Shares(order, Sizes(rows), fraction)) == Share(|Collect(order, rows)|, fraction)
  {
    hide Share, Remainder;
    if order == [] {
      NoShare(fraction);
    } else {
      var rest := order[..|order| - 1];
      var lang := order[|order| - 1];
      SharesTotal(rest, rows, fraction);
      var shares := Shares(order, Sizes(rows), fraction);
      assert shares[..|shares| - 1] == Shares(rest, Sizes(rows), fraction);
      assert shares[|shares| - 1] == Share(|Group(rows, lang)|, fraction);
      SpreadProduct(|Collect(rest, rows)|, |Group(rows, lang)|, fraction);
    }
  }

  lemma NoShare(fraction: real)
    ensures Share(0, fraction) == 0.0
  {
  }

  lemma SpreadProduct(a: nat, b: nat, fraction: real)
    ensures Share(a + b, fraction) == Share(a, fraction) + Share(b, fraction)
  {
  }

  lemma DistinctFromMultiset(s: seq<string>, t: seq<string>)
    requires multiset(s) == multiset(t)
    requires AllDifferent(s)
    ensures AllDifferent(t)
    ensures forall x :: x in s <==> x in t
  {
    forall x ensures x in s <==> x in t {
      SameElements(s, t, x);
    }
    forall i, j | 0 <= i < j < |t| ensures t[i] != t[j] {
      if t[i] == t[j] {
        RepeatCounts(t, i, j);
        DistinctCounts(s, t[i]);
      }
    }
  }

  lemma RepeatCounts(t: seq<string>, i: nat, j: nat)
    requires i < j < |t| && t[i] == t[j]
    ensures multiset(t)[t[i]] >= 2
  {
    assert t == t[..j] + t[j..];
    assert t[i] in t[..j] && t[j] in t[j..];
  }

  lemma {:induction false} DistinctCounts(s: seq<string>, x: string)
    requires AllDifferent(s)
    ensures multiset(s)[x] <= 1
  {
    if s != [] {
      var rest := s[..|s| - 1];
      assert s == rest + [s[|s| - 1]];
      DistinctCounts(rest, x);
      assert x == s[|s| - 1] ==> x !in rest;
    }
  }

  // ------------------------------------------------------------ main results

  /** The seats to hand out by remainder are between none and one a language with a remainder. */
  lemma ExtraInRange(rows: seq<Row>, config: SplitConfig)
    ensures var ranked := Ranked(rows, config);
            var shares := Shares(ranked, Sizes(rows), config.fraction);
            && 0 <= Extra(rows, config) <= |ranked|
            && (forall i :: 0 <= i < Extra(rows, config) ==> Remainder(shares[i]) > 0.0)
            && SumReal(shares) == Share(|rows|, config.fraction)
            && FallingRemainders(shares)
  {
    hide Share, Remainder, Round, Exact, RankLe, Sort;
    var ranked := Ranked(rows, config);
    RankedFacts(rows, config);
    forall row | row in rows ensures row.lang in ranked {
      LangsCover(rows, row);
    }
    CollectAll(ranked, rows);
    SharesTotal(ranked, rows, config.fraction);
    RemainingInRange(Shares(ranked, Sizes(rows), config.fraction));
  }

  /** Quotas listed by rank are the largest-remainder quotas. */
  lemma QuotaByRank(rows: seq<Row>, config: SplitConfig, i: nat)
    requires i < |Ranked(rows, config)|
    ensures var ranked := Ranked(rows, config);
            QuotaOf(rows, config, ranked[i]) ==
            Quotas(Shares(ranked, Sizes(rows), config.fraction), Extra(rows, config))[i]
  {
    RankedFacts(rows, config);
  }

  function AllQuotas(rows: seq<Row>, config: SplitConfig): seq<int> {
    var ranked := Ranked(rows, config);
    seq(|ranked|, i requires 0 <= i < |ranked| => QuotaOf(rows, config, ranked[i]))
  }

  lemma AllQuotasAreLargestRemainder(rows: seq<Row>, config: SplitConfig)
    ensures AllQuotas(rows, config)
         == Quotas(Shares(Ranked(rows, config), Sizes(rows), config.fraction), Extra(rows, config))
  {
    forall i | 0 <= i < |Ranked(rows, config)|
      ensures AllQuotas(rows, config)[i]
           == Quotas(Shares(Ranked(rows, config), Sizes(rows), config.fraction), Extra(rows, config))[i] {
      QuotaByRank(rows, config, i);
    }
  }

  /** The whole number next to this fraction of `n`; halves go up. */
  ghost predicate NearestTo(k: int, n: nat, fraction: real) {
    n as real * fraction - 0.5 < k as real <= n as real * fraction + 0.5
  }

  lemma RoundsToNearest(n: nat, fraction: real)
    ensures NearestTo(Round(Share(n, fraction)), n, fraction)
  {
  }

  /**
   Apportionment: the quotas add up to the rounded holdout size, and no other whole-number
   allocation with that total is closer to the exact shares.
   */
  lemma QuotasAreOptimal(rows: seq<Row>, config: SplitConfig, allocation: seq<int>)
    requires |allocation| == |Ranked(rows, config)|
    ensures SumInt(AllQuotas(rows, config)) == Round(Share(|rows|, config.fraction))
    ensures SumInt(allocation) == SumInt(AllQuotas(rows, config)) ==>
              var shares := Shares(Ranked(rows, config), Sizes(rows), config.fraction);
              Deviation(AllQuotas(rows, config), shares) <= Deviation(allocation, shares)
  {
    hide Share, Remainder, Round, Exact, RankLe, Sort, Quotas, Deviation;
    var shares := Shares(Ranked(rows, config), Sizes(rows), config.fraction);
    ExtraInRange(rows, config);
    AllQuotasAreLargestRemainder(rows, config);
    QuotaTotal(shares, Extra(rows, config));
    if SumInt(allocation) == SumInt(AllQuotas(rows, config)) {
      LargestRemainderIsOptimal(shares, Extra(rows, config), allocation);
    }
  }

  /** Each quota is its exact share rounded down or up, and fits the group. */
  lemma QuotaBounds(rows: seq<Row>, config: SplitConfig, lang: string)
    requires 0.0 < config.fraction < 1.0 && lang in Langs(rows)
    ensures var exact := Share(|Group(rows, lang)|, config.fraction);
            var quota := QuotaOf(rows, config, lang);
            quota as real - 1.0 < exact < quota as real + 1.0
    ensures 0 <= QuotaOf(rows, config, lang) <= |Group(rows, lang)|
  {
    hide Share, Round, RankLe, Sort, SumInt, SumReal;
    var ranked := Ranked(rows, config);
    RankedFacts(rows, config);
    var i :| 0 <= i < |ranked| && ranked[i] == lang;
    ExtraInRange(rows, config);
    QuotaByRank(rows, config, i);
    var n := |Group(rows, lang)|;
    assert Exact(Sizes(rows), config.fraction, lang) == Share(n, config.fraction);
    LangHasRows(rows, lang);
    FractionBelow(n, config.fraction);
  }

  lemma FractionBelow(n: nat, fraction: real)
    requires n > 0 && 0.0 < fraction < 1.0
    ensures 0.0 < Share(n, fraction) < n as real
  {
  }

  lemma {:induction false} LangHasRows(rows: seq<Row>, lang: string)
    requires lang in Langs(rows)
    ensures |Group(rows, lang)| > 0
  {
    var before := rows[..|rows| - 1];
    if rows[|rows| - 1].lang != lang {
      LangHasRows(before, lang);
    }
  }

  lemma {:induction false} TakenIsCollected(order: seq<string>, rows: seq<Row>, config: SplitConfig)
    ensures multiset(Taken(order, rows, config, false)) + multiset(Taken(order, rows, config, true))
         == multiset(Collect(order, rows))
  {
    if order != [] {
      var rest := order[..|order| - 1];
      var lang := order[|order| - 1];
      TakenIsCollected(rest, rows, config);
      RowTotal(config);
      SortSorts(Group(rows, lang), RowLe(config));
      var group := Sort(Group(rows, lang), RowLe(config));
      var k := Clamp(QuotaOf(rows, config, lang), |group|);
      assert group == group[..k] + group[k..];
    }
  }

  /** Train and holdout partition the input: every row lands in exactly one of them, as often as it occurs. */
  lemma SplitPartitions(rows: seq<Row>, config: SplitConfig)
    ensures var (train, holdout) := TrainHoldout(rows, config);
            multiset(train) + multiset(holdout) == multiset(rows)
  {
    var order := Sort(Langs(rows), StringLe);
    StringOrder();
    SortSorts(Langs(rows), StringLe);
    LangsDistinct(rows);
    DistinctFromMultiset(Langs(rows), order);
    forall row | row in rows ensures row.lang in order {
      LangsCover(rows, row);
    }
    CollectAll(order, rows);
    TakenIsCollected(order, rows, config);
  }

  // ------------------------------------------------------------- determinism

  lemma {:induction false} GroupCounts(rows: seq<Row>, lang: string, row: Row)
    ensures multiset(Group(rows, lang))[row] == if row.lang == lang then multiset(rows)[row] else 0
  {
    if rows != [] {
      GroupCounts(rows[..|rows| - 1], lang, row);
      assert rows == rows[..|rows| - 1] + [rows[|rows| - 1]];
    }
  }

  lemma SameGroups(rows: seq<Row>, other: seq<Row>, lang: string)
    requires multiset(rows) == multiset(other)
    ensures multiset(Group(rows, lang)) == multiset(Group(other, lang))
    ensures |Group(rows, lang)| == |Group(other, lang)|
  {
    forall row ensures multiset(Group(rows, lang))[row] == multiset(Group(other, lang))[row] {
      GroupCounts(rows, lang, row);
      GroupCounts(other, lang, row);
    }
    assert |multiset(Group(rows, lang))| == |Group(rows, lang)|;
    assert |multiset(Group(other, lang))| == |Group(other, lang)|;
  }

  lemma DistinctMultiset(s: seq<string>, t: seq<string>)
    requires AllDifferent(s)
    requires AllDifferent(t)
    requires forall x :: x in s <==> x in t
    ensures multiset(s) == multiset(t)
  {
    forall x ensures multiset(s)[x] == multiset(t)[x] {
      DistinctCounts(s, x);
      DistinctCounts(t, x);
      assert x in s <==> x in multiset(s);
      assert x in t <==> x in multiset(t);
    }
  }

  lemma SameLangs(rows: seq<Row>, other: seq<Row>)
    requires multiset(rows) == multiset(other)
    ensures multiset(Langs(rows)) == multiset(Langs(other)) && Sizes(rows) == Sizes(other)
  {
    forall lang ensures lang in Langs(rows) <==> lang in Langs(other) {
      if lang in Langs(rows) {
        var row := LangsOccur(rows, lang);
        SameElements(rows, other, row);
        LangsCover(other, row);
      }
      if lang in Langs(other) {
        var row := LangsOccur(other, lang);
        SameElements(other, rows, row);
        LangsCover(rows, row);
      }
    }
    LangsDistinct(rows);
    LangsDistinct(other);
    DistinctMultiset(Langs(rows), Langs(other));
    forall lang | lang in Langs(rows) ensures |Group(rows, lang)| == |Group(other, lang)| {
      SameGroups(rows, other, lang);
    }
  }

  ghost predicate Injective(rank: string -> nat) {
    forall a, b :: rank(a) == rank(b) ==> a == b
  }

  /** Rows are determined by their ids. */
  ghost predicate DistinctIds(rows: seq<Row>) {
    forall a, b :: a in rows && b in rows && a.id == b.id ==> a == b
  }

  lemma SameQuota(rows: seq<Row>, other: seq<Row>, config: SplitConfig, lang: string)
    requires multiset(rows) == multiset(other) && Injective(config.langRank)
    ensures QuotaOf(rows, config, lang) == QuotaOf(other, config, lang)
  {
    hide Share, Remainder, Round, Exact, Sort;
    SameLangs(rows, other);
    SameElements(rows, other, Row("", "", 0));
    RankTotal(Sizes(rows), config);
    SortForgetsOrder(Langs(rows), Langs(other), RankLe(Sizes(rows), config));
    assert Ranked(rows, config) == Ranked(other, config);
    assert Extra(rows, config) == Extra(other, config);
  }

  lemma SameSortedGroup(rows: seq<Row>, other: seq<Row>, config: SplitConfig, lang: string)
    requires multiset(rows) == multiset(other) && Injective(config.rowRank) && DistinctIds(rows)
    ensures Sort(Group(rows, lang), RowLe(config)) == Sort(Group(other, lang), RowLe(config))
  {
    SameGroups(rows, other, lang);
    RowTotal(config);
    forall x | x in Group(rows, lang) ensures x in rows {
      GroupCounts(rows, lang, x);
      assert x in multiset(Group(rows, lang));
      assert x in multiset(rows);
    }
    SortForgetsOrder(Group(rows, lang), Group(other, lang), RowLe(config));
  }

  lemma {:induction false} SameTaken(order: seq<string>, rows: seq<Row>, other: seq<Row>, config: SplitConfig, held: bool)
    requires multiset(rows) == multiset(other) && DistinctIds(rows)
    requires Injective(config.rowRank) && Injective(config.langRank)
    ensures Taken(order, rows, config, held) == Taken(order, other, config, held)
  {
    if order != [] {
      var lang := order[|order| - 1];
      SameTaken(order[..|order| - 1], rows, other, config, held);
      SameSortedGroup(rows, other, config, lang);
      SameQuota(rows, other, config, lang);
    }
  }

  /** The split is a function of the set of rows: shuffling the input changes neither sequence. */
  lemma SplitForgetsOrder(rows: seq<Row>, other: seq<Row>, config: SplitConfig)
    requires multiset(rows) == multiset(other) && DistinctIds(rows)
    requires Injective(config.rowRank) && Injective(config.langRank)
    ensures TrainHoldout(rows, config) == TrainHoldout(other, config)
  {
    hide Sort, StringLe, Taken;
    SameLangs(rows, other);
    StringOrder();
    SortForgetsOrder(Langs(rows), Langs(other), StringLe);
    var order := Sort(Langs(rows), StringLe);
    SameTaken(order, rows, other, config, false);
    SameTaken(order, rows, other, config, true);
  }

  // ------------------------------------------------------------- the loops

  function SumBy(order: seq<string>, value: string -> int): int {
    if order == [] then 0 else SumBy(order[..|order| - 1], value) + value(order[|order| - 1])
  }

  /** A sum over languages does not depend on their order. */
  lemma {:induction false} SumByPermutes(s: seq<string>, t: seq<string>, value: string -> int)
    requires multiset(s) == multiset(t)
    ensures SumBy(s, value) == SumBy(t, value)
    decreases |s|
  {
    assert |multiset(s)| == |s| && |multiset(t)| == |t|;
    if s != [] {
      var last := s[|s| - 1];
      SameElements(s, t, last);
      var j :| 0 <= j < |t| && t[j] == last;
      var rest := t[..j] + t[j + 1..];
      assert t == t[..j] + [last] + t[j + 1..];
      DropLast(s);
      SumByPermutes(s[..|s| - 1], rest, value);
      SumByWithout(t, j, value);
    }
  }

  lemma {:induction false} SumByWithout(t: seq<string>, j: nat, value: string -> int)
    requires j < |t|
    ensures SumBy(t, value) == SumBy(t[..j] + t[j + 1..], value) + value(t[j])
    decreases |t|
  {
    var rest := t[..j] + t[j + 1..];
    if j == |t| - 1 {
      assert rest == t[..j];
    } else {
      var front := t[..|t| - 1];
      SumByWithout(front, j, value);
      WithoutThenFront(t, j);
    }
  }

  lemma WithoutThenFront(t: seq<string>, j: nat)
    requires j < |t| - 1
    ensures var rest := t[..j] + t[j + 1..];
            var front := t[..|t| - 1];
            && rest[..|rest| - 1] == front[..j] + front[j + 1..] && rest[|rest| - 1] == t[|t| - 1]
  {
    var front := t[..|t| - 1];
    assert t[j + 1..] == front[j + 1..] + [t[|t| - 1]];
  }

  function FloorOf(sizes: map<string, nat>, fraction: real): string -> int {
    (lang: string) => Exact(sizes, fraction, lang).Floor
  }

  lemma {:induction false} FloorSumIsSumBy(order: seq<string>, sizes: map<string, nat>, fraction: real)
    ensures SumInt(Floors(Shares(order, sizes, fraction))) == SumBy(order, FloorOf(sizes, fraction))
  {
    hide Exact;
    if order != [] {
      FloorSumIsSumBy(order[..|order| - 1], sizes, fraction);
      FloorSumSnoc(order, sizes, fraction);
    }
  }

  lemma FloorSumPermutes(s: seq<string>, t: seq<string>, sizes: map<string, nat>, fraction: real)
    requires multiset(s) == multiset(t)
    ensures SumInt(Floors(Shares(s, sizes, fraction))) == SumInt(Floors(Shares(t, sizes, fraction)))
  {
    hide SumInt, Floors, Shares;
    FloorSumIsSumBy(s, sizes, fraction);
    FloorSumIsSumBy(t, sizes, fraction);
    SumByPermutes(s, t, FloorOf(sizes, fraction));
  }

  lemma FloorSumSnoc(s: seq<string>, sizes: map<string, nat>, fraction: real)
    requires s != []
    ensures SumInt(Floors(Shares(s, sizes, fraction)))
         == SumInt(Floors(Shares(s[..|s| - 1], sizes, fraction))) + Exact(sizes, fraction, s[|s| - 1]).Floor
  {
    hide Exact;
    var floors := Floors(Shares(s, sizes, fraction));
    assert floors[..|floors| - 1] == Floors(Shares(s[..|s| - 1], sizes, fraction));
  }

  // ---------------------------------------------------------- the holdout in numbers

  function QuotaOver(rows: seq<Row>, config: SplitConfig): string -> int {
    (lang: string) => QuotaOf(rows, config, lang)
  }

  lemma {:induction false} TakenSize(order: seq<string>, rows: seq<Row>, config: SplitConfig)
    requires 0.0 < config.fraction < 1.0 && forall lang :: lang in order ==> lang in Langs(rows)
    ensures |Taken(order, rows, config, true)| == SumBy(order, QuotaOver(rows, config))
  {
    hide QuotaOf, RowLe;
    if order != [] {
      var lang := order[|order| - 1];
      TakenSize(order[..|order| - 1], rows, config);
      RowTotal(config);
      SortSorts(Group(rows, lang), RowLe(config));
      assert lang in order;
      QuotaBounds(rows, config, lang);
    }
  }

  lemma {:induction false} SumIntIsSumBy(order: seq<string>, values: seq<int>, value: string -> int)
    requires |values| == |order| && forall i :: 0 <= i < |order| ==> values[i] == value(order[i])
    ensures SumInt(values) == SumBy(order, value)
  {
    if order != [] {
      SumIntIsSumBy(order[..|order| - 1], values[..|values| - 1], value);
    }
  }

  /**
   The holdout takes the configured fraction of all rows, rounded to the nearest whole row (halves
   up), and that is what the quotas of all languages add up to.
   */
  lemma HoldoutIsRoundedFraction(rows: seq<Row>, config: SplitConfig)
    requires 0.0 < config.fraction < 1.0
    ensures NearestTo(|TrainHoldout(rows, config).1|, |rows|, config.fraction)
    ensures |TrainHoldout(rows, config).1| == SumInt(AllQuotas(rows, config))
  {
    HoldoutIsQuotas(rows, config);
    QuotasAreOptimal(rows, config, AllQuotas(rows, config));
    hide TrainHoldout, AllQuotas, SumInt, Round, Share, NearestTo, Deviation;
    RoundsToNearest(|rows|, config.fraction);
  }

  lemma HoldoutIsQuotas(rows: seq<Row>, config: SplitConfig)
    requires 0.0 < config.fraction < 1.0
    ensures |TrainHoldout(rows, config).1| == SumInt(AllQuotas(rows, config))
  {
    hide Taken, QuotaOf, SumInt, Sort, StringLe, Langs, RankLe;
    var order, ranked := Sort(Langs(rows), StringLe), Ranked(rows, config);
    StringOrder();
    SortSorts(Langs(rows), StringLe);
    LangsDistinct(rows);
    DistinctFromMultiset(Langs(rows), order);
    RankedFacts(rows, config);
    TakenSize(order, rows, config);
    SumByPermutes(order, ranked, QuotaOver(rows, config));
    SumIntIsSumBy(ranked, AllQuotas(rows, config), QuotaOver(rows, config));
  }

  // -------------------------------------------------------- who is held out, and the order

  lemma InGroup(rows: seq<Row>, lang: string, row: Row)
    ensures row in Group(rows, lang) <==> row in rows && row.lang == lang
  {
    GroupCounts(rows, lang, row);
    assert row in multiset(Group(rows, lang)) <==> row in Group(rows, lang);
    assert row in multiset(rows) <==> row in rows;
  }

  /** A language's rows by falling claim to the holdout: lowest hash first. */
  lemma GroupByHash(rows: seq<Row>, config: SplitConfig, lang: string)
    ensures var group := Sort(Group(rows, lang), RowLe(config));
            && (forall x :: x in group ==> x.lang == lang)
            && forall i, j :: 0 <= i < j < |group| ==> config.rowRank(group[i].id) <= config.rowRank(group[j].id)
  {
    var group := Sort(Group(rows, lang), RowLe(config));
    RowTotal(config);
    SortSorts(Group(rows, lang), RowLe(config));
    forall x | x in group ensures x.lang == lang {
      SameElements(Group(rows, lang), group, x);
      InGroup(rows, lang, x);
    }
    forall i, j | 0 <= i < j < |group| ensures config.rowRank(group[i].id) <= config.rowRank(group[j].id) {
      assert RowLe(config)(group[i], group[j]);
    }
  }

  lemma {:induction false} TakenLangs(order: seq<string>, rows: seq<Row>, config: SplitConfig, held: bool, row: Row)
    requires row in Taken(order, rows, config, held)
    ensures row.lang in order
  {
    hide QuotaOf, Clamp, RowLe;
    var lang := order[|order| - 1];
    var rest := Taken(order[..|order| - 1], rows, config, held);
    if row in rest {
      TakenLangs(order[..|order| - 1], rows, config, held, row);
    } else {
      GroupByHash(rows, config, lang);
      assert row in Sort(Group(rows, lang), RowLe(config));
    }
  }

  /** No row left for training has a lower hash than a held-out row of its language. */
  lemma {:induction false} HeldOutFirst(order: seq<string>, rows: seq<Row>, config: SplitConfig, h: Row, r: Row)
    requires AllDifferent(order) && h in Taken(order, rows, config, true) && r in Taken(order, rows, config, false) && h.lang == r.lang
    ensures config.rowRank(h.id) <= config.rowRank(r.id)
  {
    hide QuotaOf, RowLe;
    var k := |order| - 1;
    var group := Sort(Group(rows, order[k]), RowLe(config));
    var cut := Clamp(QuotaOf(rows, config, order[k]), |group|);
    GroupByHash(rows, config, order[k]);
    if h in Taken(order[..k], rows, config, true) {
      TakenLangs(order[..k], rows, config, true, h);
      assert r !in group[cut..];
      HeldOutFirst(order[..k], rows, config, h, r);
    } else {
      var i :| 0 <= i < cut && group[i] == h;
      if r in Taken(order[..k], rows, config, false) {
        TakenLangs(order[..k], rows, config, false, r);
      }
      var j :| 0 <= j < |group| - cut && group[cut..][j] == r;
      assert group[cut + j] == r;
    }
  }

  /** Languages in alphabetical order, rows of one language by rising hash. */
  ghost predicate InOutputOrder(out: seq<Row>, config: SplitConfig) {
    forall i, j :: 0 <= i < j < |out| ==>
      if out[i].lang == out[j].lang then config.rowRank(out[i].id) <= config.rowRank(out[j].id)
      else StringLe(out[i].lang, out[j].lang)
  }

  lemma JoinInOrder(before: seq<Row>, more: seq<Row>, config: SplitConfig, lang: string)
    requires InOutputOrder(before, config)
    requires forall x :: x in before ==> x.lang != lang && StringLe(x.lang, lang)
    requires forall x :: x in more ==> x.lang == lang
    requires forall i, j :: 0 <= i < j < |more| ==> config.rowRank(more[i].id) <= config.rowRank(more[j].id)
    ensures InOutputOrder(before + more, config)
  {
    hide StringLe;
    var out := before + more;
    forall i, j | 0 <= i < j < |out|
      ensures if out[i].lang == out[j].lang then config.rowRank(out[i].id) <= config.rowRank(out[j].id) else StringLe(out[i].lang, out[j].lang)
    {
      if i < |before| <= j {
        assert out[i] in before && out[j] in more;
      } else if |before| <= i {
        assert out[i] in more && out[j] in more;
      }
    }
  }

  lemma {:induction false} TakenInOrder(order: seq<string>, rows: seq<Row>, config: SplitConfig, held: bool)
    requires AllDifferent(order) && Ordered(order, StringLe)
    ensures InOutputOrder(Taken(order, rows, config, held), config)
  {
    hide QuotaOf, RowLe, StringLe;
    if order != [] {
      var k := |order| - 1;
      TakenInOrder(order[..k], rows, config, held);
      hide InOutputOrder;
      var group := Sort(Group(rows, order[k]), RowLe(config));
      var cut := Clamp(QuotaOf(rows, config, order[k]), |group|);
      var before, more := Taken(order[..k], rows, config, held), if held then group[..cut] else group[cut..];
      GroupByHash(rows, config, order[k]);
      forall x | x in more ensures x.lang == order[k] {
        assert x in group;
      }
      forall x | x in before ensures x.lang != order[k] && StringLe(x.lang, order[k]) {
        TakenLangs(order[..k], rows, config, held, x);
        var l :| 0 <= l < k && order[l] == x.lang;
      }
      JoinInOrder(before, more, config, order[k]);
    }
  }

  /**
   Which rows are held out: of each language those with the lowest hashes.  Both outputs list the
   languages alphabetically and each language's rows by rising hash.
   */
  lemma SplitByHash(rows: seq<Row>, config: SplitConfig)
    ensures var (train, holdout) := TrainHoldout(rows, config);
            && (forall h, r :: h in holdout && r in train && h.lang == r.lang ==> config.rowRank(h.id) <= config.rowRank(r.id))
            && InOutputOrder(train, config) && InOutputOrder(holdout, config)
  {
    hide Taken, StringLe, Sort, InOutputOrder;
    var order := Sort(Langs(rows), StringLe);
    StringOrder();
    SortSorts(Langs(rows), StringLe);
    LangsDistinct(rows);
    DistinctFromMultiset(Langs(rows), order);
    TakenInOrder(order, rows, config, false);
    TakenInOrder(order, rows, config, true);
    var (train, holdout) := TrainHoldout(rows, config);
    forall h, r | h in holdout && r in train && h.lang == r.lang ensures config.rowRank(h.id) <= config.rowRank(r.id) {
      HeldOutFirst(order, rows, config, h, r);
    }
  }

  lemma RankedSeats(rows: seq<Row>, config: SplitConfig, up: string, down: string)
    requires up in Langs(rows) && down in Langs(rows)
    requires QuotaOf(rows, config, up) > Exact(Sizes(rows), config.fraction, up).Floor
    requires QuotaOf(rows, config, down) == Exact(Sizes(rows), config.fraction, down).Floor
    ensures RankLe(Sizes(rows), config)(up, down)
  {
    hide Sort, Langs, Extra, Sizes, Exact, Remainder;
    RankedFacts(rows, config);
    RankTotal(Sizes(rows), config);
    SortSorts(Langs(rows), RankLe(Sizes(rows), config));
    var ranked := Ranked(rows, config);
    hide RankLe;
    var i :| 0 <= i < |ranked| && i < Extra(rows, config) && ranked[i] == up;
    var j :| 0 <= j < |ranked| && ranked[j] == down;
    assert j >= Extra(rows, config);
  }

  lemma ExactIsShare(rows: seq<Row>, fraction: real, lang: string)
    requires lang in Langs(rows)
    ensures Exact(Sizes(rows), fraction, lang) == Share(|Group(rows, lang)|, fraction)
  {
  }

  /**
   Who gets the seats left over: a language rounded up has a larger fractional part than one that is
   not, or the same and the lower hash.
   */
  lemma SeatsByRemainder(rows: seq<Row>, config: SplitConfig, up: string, down: string)
    requires up in Langs(rows) && down in Langs(rows)
    requires QuotaOf(rows, config, up) > Share(|Group(rows, up)|, config.fraction).Floor
    requires QuotaOf(rows, config, down) == Share(|Group(rows, down)|, config.fraction).Floor
    ensures var a, b := Share(|Group(rows, up)|, config.fraction), Share(|Group(rows, down)|, config.fraction);
            || a - a.Floor as real > b - b.Floor as real
            || (a - a.Floor as real == b - b.Floor as real && config.langRank(up) <= config.langRank(down))
  {
    ExactIsShare(rows, config.fraction, up);
    ExactIsShare(rows, config.fraction, down);
    hide QuotaOf, Exact, Sizes, Langs, Group, Share;
    RankedSeats(rows, config, up, down);
  }

  lemma NextRow(rows: seq<Row>, i: nat)
    requires i < |rows|
    ensures var row := rows[i];
            && Langs(rows[..i + 1]) == (if row.lang in Langs(rows[..i]) then Langs(rows[..i]) else Langs(rows[..i]) + [row.lang])
            && forall lang :: Group(rows[..i + 1], lang) ==
                              (if row.lang == lang then Group(rows[..i], lang) + [row] else Group(rows[..i], lang))
  {
    assert rows[..i + 1][..i] == rows[..i];
  }

  lemma NoRows(rows: seq<Row>)
    ensures Langs(rows[..0]) == [] && forall lang :: Group(rows[..0], lang) == []
  {
  }

  lemma {:induction false} NoGroup(rows: seq<Row>, lang: string)
    requires lang !in Langs(rows)
    ensures Group(rows, lang) == []
  {
    if rows != [] {
      NoGroup(rows[..|rows| - 1], lang);
    }
  }

  /** `groups` as the loop builds it: rows by language, and the languages in insertion order. */
  method GroupRows(rows: seq<Row>) returns (groups: map<string, seq<Row>>, order: seq<string>)
    ensures order == Langs(rows)
    ensures forall lang :: lang in groups <==> lang in order
    ensures forall lang :: lang in groups ==> groups[lang] == Group(rows, lang)
  {
    hide Langs, Group;
    groups, order := map[], [];
    NoRows(rows);
    for i := 0 to |rows|
      invariant order == Langs(rows[..i])
      invariant forall lang :: lang in groups <==> lang in order
      invariant forall lang :: lang in groups ==> groups[lang] == Group(rows[..i], lang)
    {
      var row := rows[i];
      NextRow(rows, i);
      if row.lang !in groups {
        NoGroup(rows[..i], row.lang);
        groups, order := groups[row.lang := []], order + [row.lang];
      }
      groups := groups[row.lang := groups[row.lang] + [row]];
    }
    assert rows[..|rows|] == rows;
  }

  lemma NoFloors(order: seq<string>, sizes: map<string, nat>, fraction: real)
    ensures SumInt(Floors(Shares(order[..0], sizes, fraction))) == 0
  {
  }

  /** Rounded-down quotas and their sum. */
  method FloorQuotas(order: seq<string>, sizes: map<string, nat>, fraction: real) returns (quotas: map<string, int>, total: int)
    ensures forall lang :: lang in quotas <==> lang in order
    ensures forall lang :: lang in quotas ==> quotas[lang] == Exact(sizes, fraction, lang).Floor
    ensures total == SumInt(Floors(Shares(order, sizes, fraction)))
  {
    hide SumInt, Floors, Shares, Exact;
    quotas, total := map[], 0;
    NoFloors(order, sizes, fraction);
    for i := 0 to |order|
      invariant forall lang :: lang in quotas <==> lang in order[..i]
      invariant forall lang :: lang in quotas ==> quotas[lang] == Exact(sizes, fraction, lang).Floor
      invariant total == SumInt(Floors(Shares(order[..i], sizes, fraction)))
    {
      var floor := Exact(sizes, fraction, order[i]).Floor;
      FloorSumSnoc(order[..i + 1], sizes, fraction);
      assert order[..i + 1][..i] == order[..i];
      quotas, total := quotas[order[i] := floor], total + floor;
    }
    assert order[..|order|] == order;
  }

  /** The language holds one of the first `n` ranks. */
  ghost predicate RankedWithin(ranked: seq<string>, n: int, lang: string) {
    exists i :: 0 <= i < |ranked| && i < n && ranked[i] == lang
  }

  /** One more seat for each of the first `remaining` languages. */
  method BumpQuotas(floors: map<string, int>, ranked: seq<string>, remaining: nat) returns (quotas: map<string, int>)
    requires remaining <= |ranked| && AllDifferent(ranked)
    requires forall lang :: lang in floors <==> lang in ranked
    ensures quotas.Keys == floors.Keys
    ensures forall lang :: lang in quotas ==>
              quotas[lang] == floors[lang] + (if RankedWithin(ranked, remaining, lang) then 1 else 0)
  {
    quotas := floors;
    for i := 0 to remaining
      invariant quotas.Keys == floors.Keys
      invariant forall lang :: lang in quotas ==>
                  quotas[lang] == floors[lang] + (if RankedWithin(ranked, i, lang) then 1 else 0)
    {
      var language := ranked[i];
      assert language in floors;
      forall lang | lang in floors
        ensures RankedWithin(ranked, i + 1, lang) <==> RankedWithin(ranked, i, lang) || lang == language {
        if lang == language {
          assert ranked[i] == lang;
        }
      }
      assert !RankedWithin(ranked, i, language);
      quotas := quotas[language := quotas[language] + 1];
    }
  }

  method TakeGroups(order: seq<string>, groups: map<string, seq<Row>>, quotas: map<string, int>, rows: seq<Row>, config: SplitConfig)
    returns (train: seq<Row>, holdout: seq<Row>)
    requires forall lang :: lang in order ==>
               && lang in groups && lang in quotas && groups[lang] == Group(rows, lang)
               && quotas[lang] == QuotaOf(rows, config, lang) && 0 <= quotas[lang] <= |groups[lang]|
    ensures train == Taken(order, rows, config, false) && holdout == Taken(order, rows, config, true)
  {
    hide QuotaOf, Group;
    train, holdout := [], [];
    RowTotal(config);
    for i := 0 to |order|
      invariant train == Taken(order[..i], rows, config, false) && holdout == Taken(order[..i], rows, config, true)
    {
      var lang := order[i];
      var ordered := Sort(groups[lang], RowLe(config));
      SortSorts(groups[lang], RowLe(config));
      assert order[..i + 1][..i] == order[..i];
      holdout := holdout + ordered[..quotas[lang]];
      train := train + ordered[quotas[lang]..];
    }
    assert order[..|order|] == order;
  }

  /** The split as its loops compute it; the configuration check guarantees a fraction between 0 and 1. */
  method DeterministicStratifiedSplit(rows: seq<Row>, config: SplitConfig) returns (train: seq<Row>, holdout: seq<Row>)
    requires 0.0 < config.fraction < 1.0
    ensures (train, holdout) == TrainHoldout(rows, config)
    ensures multiset(train) + multiset(holdout) == multiset(rows)
    ensures NearestTo(|holdout|, |rows|, config.fraction)
  {
    hide NearestTo, Sort, StringLe, RankLe, Exact, Share, Remainder, Taken, Group, Langs, Floors, SumInt, Shares;
    var groups, order := GroupRows(rows);
    var sizes := map lang | lang in groups :: |groups[lang]|;
    assert sizes == Sizes(rows);
    var floors, total := FloorQuotas(order, sizes, config.fraction);
    var remaining := Round(Share(|rows|, config.fraction)) - total;
    var ranked := Sort(order, RankLe(sizes, config));
    RankedFacts(rows, config);
    FloorSumPermutes(order, ranked, sizes, config.fraction);
    ExtraInRange(rows, config);
    assert remaining == Extra(rows, config);
    var quotas := BumpQuotas(floors, ranked, remaining);
    var alphabetical := Sort(order, StringLe);
    StringOrder();
    SortSorts(order, StringLe);
    forall lang | lang in alphabetical
      ensures lang in order && quotas[lang] == QuotaOf(rows, config, lang) && 0 <= quotas[lang] <= |groups[lang]| {
      SameElements(order, alphabetical, lang);
      QuotaBounds(rows, config, lang);
      assert RankedWithin(ranked, remaining, lang) <==>
             exists i :: 0 <= i < |ranked| && i < Extra(rows, config) && ranked[i] == lang;
    }
    train, holdout := TakeGroups(alphabetical, groups, quotas, rows, config);
    SplitPartitions(rows, config);
    HoldoutIsRoundedFraction(rows, config);
  }
}
