/**
 * A station and its chargers (class `Station` in main.cpp).
 *
 * A station keeps its chargers in the order they were declared.  A report for a
 * charger id goes to the first charger with that id and is dropped when there is
 * none; the station's uptime is the mean of its chargers' percentages.
 */
module Stations {
  import opened CInts
  import opened Chargers

  /** The value of a station's fields. */
  datatype StationView = StationView(id: int, chargers: seq<ChargerState>)

  /**
   * The chargers after a report for `chargerId`: the first charger with that id
   * takes the report, every other charger stays as it was.
   */
  function Routed(cs: seq<ChargerState>, chargerId: int, start: int, end: int, up: bool): seq<ChargerState>
    decreases |cs|
  {
    if cs == [] then []
    else if cs[0].id == chargerId then [AfterReport(cs[0], start, end, up)] + cs[1..]
    else [cs[0]] + Routed(cs[1..], chargerId, start, end, up)
  }

  /** A report for an id no charger has leaves the chargers unchanged. */
  lemma {:induction false} RoutedUnknown(cs: seq<ChargerState>, chargerId: int, start: int, end: int, up: bool)
    requires forall k :: 0 <= k < |cs| ==> cs[k].id != chargerId
    decreases |cs|
    ensures Routed(cs, chargerId, start, end, up) == cs
  {
    if cs != [] {
      RoutedUnknown(cs[1..], chargerId, start, end, up);
    }
  }

  /** A report goes to the first charger with its id, and only to that one. */
  lemma {:induction false} RoutedFirstMatch(cs: seq<ChargerState>, chargerId: int, start: int, end: int, up: bool, i: nat)
    requires i < |cs| && cs[i].id == chargerId
    requires forall k :: 0 <= k < i ==> cs[k].id != chargerId
    decreases i
    ensures Routed(cs, chargerId, start, end, up) == cs[i := AfterReport(cs[i], start, end, up)]
  {
    if i > 0 {
      RoutedFirstMatch(cs[1..], chargerId, start, end, up, i - 1);
      assert [cs[0]] + cs[1..][i - 1 := AfterReport(cs[i], start, end, up)]
          == cs[i := AfterReport(cs[i], start, end, up)];
    }
  }

  /** Routing a report keeps the number, the order and the ids of the chargers. */
  lemma {:induction false} RoutedKeepsIds(cs: seq<ChargerState>, chargerId: int, start: int, end: int, up: bool)
    decreases |cs|
    ensures |Routed(cs, chargerId, start, end, up)| == |cs|
    ensures forall k :: 0 <= k < |cs| ==> Routed(cs, chargerId, start, end, up)[k].id == cs[k].id
  {
    if cs != [] && cs[0].id != chargerId {
      RoutedKeepsIds(cs[1..], chargerId, start, end, up);
    }
  }

  /** Every charger has recorded some time, so every charger's percentage is defined. */
  predicate AllHaveTime(cs: seq<ChargerState>)
  {
    forall k :: 0 <= k < |cs| ==> HasTime(cs[k])
  }

  /** The sum of the chargers' percentages, accumulated from the first charger on. */
  function SumPercents(cs: seq<ChargerState>): int
    requires AllHaveTime(cs)
    decreases |cs|
  {
    if cs == [] then 0 else SumPercents(cs[..|cs| - 1]) + Percent(cs[|cs| - 1])
  }

  /** The sum of the percentages is bounded by the bounds of its terms. */
  lemma {:induction false} SumPercentsBounds(cs: seq<ChargerState>, lo: int, hi: int)
    requires AllHaveTime(cs)
    requires forall k :: 0 <= k < |cs| ==> lo <= Percent(cs[k]) <= hi
    decreases |cs|
    ensures lo * |cs| <= SumPercents(cs) <= hi * |cs|
  {
    if cs != [] {
      SumPercentsBounds(cs[..|cs| - 1], lo, hi);
      assert lo * |cs| == lo * (|cs| - 1) + lo;
      assert hi * |cs| == hi * (|cs| - 1) + hi;
    }
  }

  /**
   * The station's percentage: the sum of its chargers' percentages divided by
   * their number, truncated toward zero as C++'s signed division does.  A
   * station whose chargers are all at 100 is at 100, all at 0 is at 0, and all
   * within `[0, 100]` is within `[0, 100]`.
   */
  function MeanPercent(cs: seq<ChargerState>): (m: int)
    requires |cs| > 0 && AllHaveTime(cs)
    ensures (forall k :: 0 <= k < |cs| ==> Percent(cs[k]) == 100) ==> m == 100
    ensures (forall k :: 0 <= k < |cs| ==> Percent(cs[k]) == 0) ==> m == 0
    ensures (forall k :: 0 <= k < |cs| ==> 0 <= Percent(cs[k]) <= 100) ==> 0 <= m <= 100
    ensures 0 <= SumPercents(cs) < TWO_31 ==> m == AsWrittenMean(SumPercents(cs), |cs|)
  {
    MeanBounds(cs);
    TruncDiv(SumPercents(cs), |cs|)
  }

  lemma MeanBounds(cs: seq<ChargerState>)
    requires |cs| > 0 && AllHaveTime(cs)
    ensures (forall k :: 0 <= k < |cs| ==> Percent(cs[k]) == 100) ==> TruncDiv(SumPercents(cs), |cs|) == 100
    ensures (forall k :: 0 <= k < |cs| ==> Percent(cs[k]) == 0) ==> TruncDiv(SumPercents(cs), |cs|) == 0
    ensures (forall k :: 0 <= k < |cs| ==> 0 <= Percent(cs[k]) <= 100) ==> 0 <= TruncDiv(SumPercents(cs), |cs|) <= 100
    ensures 0 <= SumPercents(cs) < TWO_31 ==> TruncDiv(SumPercents(cs), |cs|) == AsWrittenMean(SumPercents(cs), |cs|)
  {
    if 0 <= SumPercents(cs) < TWO_31 {
      AsWrittenMeanAgrees(SumPercents(cs), |cs|);
    }
    if forall k :: 0 <= k < |cs| ==> Percent(cs[k]) == 100 {
      AllAtMean(cs, 100);
    }
    if forall k :: 0 <= k < |cs| ==> Percent(cs[k]) == 0 {
      AllAtMean(cs, 0);
    }
    if forall k :: 0 <= k < |cs| ==> 0 <= Percent(cs[k]) <= 100 {
      MeanInRange(cs);
    }
  }

  /** Chargers whose percentages all lie in `[0, 100]` have a mean in `[0, 100]`. */
  lemma MeanInRange(cs: seq<ChargerState>)
    requires |cs| > 0 && AllHaveTime(cs)
    requires forall k :: 0 <= k < |cs| ==> 0 <= Percent(cs[k]) <= 100
    ensures 0 <= TruncDiv(SumPercents(cs), |cs|) <= 100
  {
    var sum, n := SumPercents(cs), |cs|;
    SumPercentsBounds(cs, 0, 100);
    assert 0 <= sum <= 100 * n;
    DivAtMost(sum, n, 100);
    DivNonNegative(sum, n);
  }

  /** Chargers that all have the same non-negative percentage have that percentage as their mean. */
  lemma AllAtMean(cs: seq<ChargerState>, v: nat)
    requires |cs| > 0 && AllHaveTime(cs)
    requires forall k :: 0 <= k < |cs| ==> Percent(cs[k]) == v
    ensures TruncDiv(SumPercents(cs), |cs|) == v
  {
    SumPercentsBounds(cs, v, v);
    MulDivCancel(v, |cs|);
  }

  /** A station whose chargers never recorded negative time has a percentage in `[0, 100]`. */
  lemma StationPercentInRange(cs: seq<ChargerState>)
    requires |cs| > 0 && AllHaveTime(cs)
    requires forall k :: 0 <= k < |cs| ==> 0 <= cs[k].upTime && 0 <= cs[k].downTime
    ensures 0 <= MeanPercent(cs) <= 100
  {
  }

  /**
   * `sum / chargers.size()` as main.cpp evaluates it: the `int` sum is converted
   * to the unsigned 64-bit type of `size()`, divided, and the quotient converted
   * back to the `int` the method returns.
   */
  function AsWrittenMean(sum: int, n: int): int
    requires n > 0
  {
    ToInt32(ToUnsigned64(sum) / n)
  }

  /** For a non-negative `int` sum the unsigned division gives the intended mean. */
  lemma AsWrittenMeanAgrees(sum: int, n: int)
    requires 0 <= sum < TWO_31 && n > 0
    ensures AsWrittenMean(sum, n) == TruncDiv(sum, n)
  {
    assert ToUnsigned64(sum) == sum;
    MulAtLeast(n, sum + 1);
    DivAtMost(sum, n, sum);
    var q := sum / n;
    assert 0 <= q < TWO_31;
    assert ToInt32(q) == q;
  }

  /**
   * A station of three chargers, the first of which received a report whose end
   * lies before its start: its percentage is -140, the sum is -140, and the
   * unsigned division returns 1431655718 where the signed mean is -46.
   */
  lemma AsWrittenMeanOfNegativeSum()
    ensures var cs := [ Replay(NewCharger(1), [Period(0, 10, false), Period(12, 5, true)]),
                        Replay(NewCharger(2), [Period(0, 10, false)]),
                        Replay(NewCharger(3), [Period(0, 10, false)]) ];
            AllHaveTime(cs) && SumPercents(cs) == -140
            && AsWrittenMean(SumPercents(cs), |cs|) == 1431655718
            && MeanPercent(cs) == -46
  {
    var c1 := Replay(NewCharger(1), [Period(0, 10, false), Period(12, 5, true)]);
    assert c1 == ChargerState(1, -7, 12, 5);
    var c2 := Replay(NewCharger(2), [Period(0, 10, false)]);
    assert c2 == ChargerState(2, 0, 10, 10);
    var c3 := Replay(NewCharger(3), [Period(0, 10, false)]);
    assert c3 == ChargerState(3, 0, 10, 10);
    var cs := [c1, c2, c3];
    assert Percent(c1) == -140;
    assert [c1][..0] == [];
    assert SumPercents([c1]) == -140;
    assert [c1, c2][..1] == [c1];
    assert SumPercents([c1, c2]) == -140;
    assert cs[..2] == [c1, c2];
  }

  /** A station object; its vector of chargers changes in place. */
  class Station {
    const stationId: int
    var chargers: seq<ChargerState>

    /** The current values of the fields. */
    function View(): StationView
      reads this
    {
      StationView(stationId, chargers)
    }

    constructor (id: int)
      ensures View() == StationView(id, [])
    {
      stationId := id;
      chargers := [];
    }

    /** Appends a fresh charger; the chargers already there keep their place and state. */
    method AddNewCharger(chargerId: int)
      modifies this
      ensures chargers == old(chargers) + [NewCharger(chargerId)]
    {
      chargers := chargers + [NewCharger(chargerId)];
    }

    /** Gives the report to the first charger with id `chargerId`; does nothing when there is none. */
    method AddTimeToCharger(chargerId: int, start: int, end: int, up: bool)
      modifies this
      ensures chargers == Routed(old(chargers), chargerId, start, end, up)
    {
      var i := 0;
      while i < |chargers|
        invariant 0 <= i <= |chargers|
        invariant chargers == old(chargers)
        invariant forall k :: 0 <= k < i ==> chargers[k].id != chargerId
      {
        if chargers[i].id == chargerId {
          RoutedFirstMatch(chargers, chargerId, start, end, up, i);
          chargers := chargers[i := AfterReport(chargers[i], start, end, up)];
          return;
        }
        i := i + 1;
      }
      RoutedUnknown(chargers, chargerId, start, end, up);
    }

    method GetStationId() returns (id: int)
      ensures id == View().id
    {
      id := stationId;
    }

    /** The mean of the chargers' percentages; there must be at least one charger, each with some time recorded. */
    method GetPercentUptime() returns (p: int)
      requires |chargers| > 0 && AllHaveTime(chargers)
      ensures p == MeanPercent(chargers)
      ensures 0 <= SumPercents(chargers) < TWO_31 ==> p == AsWrittenMean(SumPercents(chargers), |chargers|)
    {
      var sum := 0;
      var i := 0;
      while i < |chargers|
        invariant 0 <= i <= |chargers|
        invariant sum == SumPercents(chargers[..i])
      {
        assert chargers[..i + 1][..i] == chargers[..i];
        sum := sum + Percent(chargers[i]);
        i := i + 1;
      }
      assert chargers[..i] == chargers;
      p := TruncDiv(sum, |chargers|);
    }
  }
}
