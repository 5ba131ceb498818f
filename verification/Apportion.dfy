/**
 Largest-remainder apportionment (the quota part of tune/prepare.py): whole seats for real
 shares listed by falling remainder.
 */
module Apportion {
  function SumInt(xs: seq<int>): int {
    if xs == [] then 0 else SumInt(xs[..|xs| - 1]) + xs[|xs| - 1]
  }

  function SumReal(xs: seq<real>): real {
    if xs == [] then 0.0 else SumReal(xs[..|xs| - 1]) + xs[|xs| - 1]
  }

  function Floors(shares: seq<real>): seq<int> {
    seq(|shares|, i requires 0 <= i < |shares| => shares[i].Floor)
  }

  function Remainder(x: real): (r: real)
    ensures 0.0 <= r < 1.0
  {
    x - x.Floor as real
  }

  /** Rounding half up: `int(x + 0.5)` for a non-negative x. */
  function Round(x: real): int {
    (x + 0.5).Floor
  }

  /** Seats left over once every share is rounded down. */
  function Remaining(shares: seq<real>, target: int): int {
    target - SumInt(Floors(shares))
  }

  /** The first `extra` shares get one seat more than their floor. */
  function Quotas(shares: seq<real>, extra: int): (quotas: seq<int>)
    ensures |quotas| == |shares|
  {
    seq(|shares|, i requires 0 <= i < |shares| => shares[i].Floor + (if i < extra then 1 else 0))
  }

  ghost predicate FallingRemainders(shares: seq<real>) {
    forall i, j :: 0 <= i < j < |shares| ==> Remainder(shares[i]) >= Remainder(shares[j])
  }

  function Distance(x: int, share: real): (d: real)
    ensures d >= 0.0
  {
    if x as real < share then share - x as real else x as real - share
  }

  /** Sum of absolute deviations of an allocation from the exact shares. */
  function Deviation(allocation: seq<int>, shares: seq<real>): real
    requires |allocation| == |shares|
  {
    if shares == [] then 0.0
    else
      Deviation(allocation[..|shares| - 1], shares[..|shares| - 1])
      + Distance(allocation[|shares| - 1], shares[|shares| - 1])
  }

  // ------------------------------------------------------- how many seats remain

  lemma {:induction false} FloorGap(shares: seq<real>)
    ensures SumInt(Floors(shares)) as real <= SumReal(shares)
    ensures shares != [] ==> SumReal(shares) < SumInt(Floors(shares)) as real + |shares| as real
  {
    if shares != [] {
      var rest := shares[..|shares| - 1];
      FloorGap(rest);
      assert Floors(shares)[..|shares| - 1] == Floors(rest);
    }
  }

  /** If all remainders from position m on are zero, the fractional parts add up to less than m (or to zero). */
  lemma {:induction false} FloorGapUpTo(shares: seq<real>, m: nat)
    requires m <= |shares| && forall i :: m <= i < |shares| ==> Remainder(shares[i]) == 0.0
    ensures SumReal(shares) <= SumInt(Floors(shares)) as real + m as real
    ensures m > 0 ==> SumReal(shares) < SumInt(Floors(shares)) as real + m as real
  {
    if m == |shares| {
      FloorGap(shares);
    } else {
      var rest := shares[..|shares| - 1];
      FloorGapUpTo(rest, m);
      assert Floors(shares)[..|shares| - 1] == Floors(rest);
      assert Remainder(shares[|shares| - 1]) == 0.0;
    }
  }

  /** The rounded total leaves between zero and one seat per share, and only for shares with a remainder. */
  lemma RemainingInRange(shares: seq<real>)
    requires FallingRemainders(shares)
    ensures var extra := Remaining(shares, Round(SumReal(shares)));
            && 0 <= extra <= |shares|
            && forall i :: 0 <= i < extra ==> Remainder(shares[i]) > 0.0
  {
    var extra := Remaining(shares, Round(SumReal(shares)));
    FloorGap(shares);
    forall i | 0 <= i < extra && i < |shares| ensures Remainder(shares[i]) > 0.0 {
      if Remainder(shares[i]) == 0.0 {
        FloorGapUpTo(shares, i);
      }
    }
  }

  lemma {:induction false} QuotaTotal(shares: seq<real>, extra: int)
    requires 0 <= extra <= |shares|
    ensures SumInt(Quotas(shares, extra)) == SumInt(Floors(shares)) + extra
  {
    if shares != [] {
      var rest := shares[..|shares| - 1];
      var less := if extra == |shares| then extra - 1 else extra;
      QuotaTotal(rest, less);
      assert Quotas(shares, extra)[..|shares| - 1] == Quotas(rest, less);
      assert Floors(shares)[..|shares| - 1] == Floors(rest);
    }
  }

  // ---------------------------------------------------------------- optimality

  /** What `seats` seats cost at a price. */
  ghost function Cost(price: real, seats: int): real {
    price * seats as real
  }

  lemma CostAdds(price: real, a: int, b: int)
    ensures Cost(price, a + b) == Cost(price, a) + Cost(price, b)
  {
  }

  lemma Distribute(price: real, a: int, b: int)
    ensures price * (a + b) as real == price * a as real + price * b as real
  {
  }

  lemma Scale(k: nat, low: real, high: real)
    requires low <= high
    ensures low * k as real <= high * k as real
  {
  }

  /**
   With every seat priced at `price`, the quota is the cheapest seat count for its share:
   one over the floor when the remainder is worth it, the floor when it is not.
   */
  lemma QuotaIsCheapest(x: int, share: real, bumped: bool, price: real)
    requires -1.0 <= price <= 1.0
    requires bumped ==> price >= 1.0 - 2.0 * Remainder(share)
    requires !bumped ==> price <= 1.0 - 2.0 * Remainder(share)
    ensures var q := share.Floor + (if bumped then 1 else 0);
            Distance(x, share) - Distance(q, share) >= Cost(price, x - q)
  {
    var q := share.Floor + (if bumped then 1 else 0);
    if x > q {
      MoreSeats(x - q, bumped, price, Remainder(share));
    } else if x < q {
      FewerSeats(q - x, bumped, price, Remainder(share));
      Distribute(price, x - q, q - x);
    }
  }

  lemma MoreSeats(k: nat, bumped: bool, price: real, r: real)
    requires k >= 1 && price <= 1.0 && (!bumped ==> price <= 1.0 - 2.0 * r)
    ensures price * k as real <= if bumped then k as real else k as real - 2.0 * r
  {
    Scale(k - 1, price, 1.0);
    Distribute(price, k - 1, 1);
  }

  lemma FewerSeats(k: nat, bumped: bool, price: real, r: real)
    requires k >= 1 && -1.0 <= price && (bumped ==> price >= 1.0 - 2.0 * r)
    ensures price * k as real >= if bumped then 2.0 - 2.0 * r - k as real else -(k as real)
  {
    Scale(k - 1, -1.0, price);
    Distribute(price, k - 1, 1);
  }

  lemma {:induction false} DeviationGap(allocation: seq<int>, shares: seq<real>, extra: int, price: real)
    requires |allocation| == |shares| && 0 <= extra
    requires -1.0 <= price <= 1.0
    requires forall i :: 0 <= i < |shares| ==> if i < extra then price >= 1.0 - 2.0 * Remainder(shares[i])
                                                else price <= 1.0 - 2.0 * Remainder(shares[i])
    ensures Deviation(allocation, shares) - Deviation(Quotas(shares, extra), shares)
         >= Cost(price, SumInt(allocation) - SumInt(Quotas(shares, extra)))
  {
    hide Cost, Remainder, Distance;
    if shares == [] {
      NothingIsFree(price);
    } else {
      var k := |shares| - 1;
      var quotas := Quotas(shares, extra);
      DeviationGap(allocation[..k], shares[..k], extra, price);
      assert quotas[..k] == Quotas(shares[..k], extra);
      QuotaIsCheapest(allocation[k], shares[k], k < extra, price);
      CostAdds(price, SumInt(allocation[..k]) - SumInt(quotas[..k]), allocation[k] - quotas[k]);
      assert SumInt(allocation) - SumInt(quotas) ==
             (SumInt(allocation[..k]) - SumInt(quotas[..k])) + (allocation[k] - quotas[k]);
    }
  }

  lemma NothingIsFree(price: real)
    ensures Cost(price, 0) == 0.0
  {
  }

  /** The price at which exactly the first `extra` shares buy a seat above their floor. */
  ghost function SeatPrice(shares: seq<real>, extra: int): real
    requires 0 <= extra <= |shares|
  {
    if extra == 0 then -1.0 else 1.0 - 2.0 * Remainder(shares[extra - 1])
  }

  /** No other allocation with the same total deviates less from the exact shares. */
  lemma LargestRemainderIsOptimal(shares: seq<real>, extra: int, allocation: seq<int>)
    requires FallingRemainders(shares) && 0 <= extra <= |shares|
    requires |allocation| == |shares| && SumInt(allocation) == SumInt(Quotas(shares, extra))
    ensures Deviation(Quotas(shares, extra), shares) <= Deviation(allocation, shares)
  {
    var price := SeatPrice(shares, extra);
    DeviationGap(allocation, shares, extra, price);
    NothingIsFree(price);
  }
}
