/**
 * A charger's uptime bookkeeping (class `Charger` in main.cpp).
 *
 * A charger keeps the time it was reported up, the time it was reported down and
 * the end of its latest report; `-1` marks a charger that has had no report yet.
 * Any gap between the end of one report and the start of the next is counted as
 * down time.  Times are `long` in the source and unbounded integers here.
 */
module Chargers {
  import opened CInts

  /** The value of a charger's fields; `vector<Charger>` in a station holds these by value. */
  datatype ChargerState = ChargerState(id: int, upTime: int, downTime: int, lastKnownTime: int)

  /** One availability report as `addTime` receives it. */
  datatype Period = Period(start: int, end: int, up: bool)

  /** The charger the constructor builds: nothing recorded, last known time uninitialised. */
  function NewCharger(id: int): ChargerState
  {
    ChargerState(id, 0, 0, -1)
  }

  /** `true` when the charger has had at least one report. */
  predicate Initialised(c: ChargerState)
  {
    c.lastKnownTime >= 0
  }

  /**
   * The charger after `addTime(start, end, up)`: the gap since the last known time
   * is charged as down time (there is none on the first report), then the report's
   * own length `end - start` is charged as up or down time.
   */
  function AfterReport(c: ChargerState, start: int, end: int, up: bool): (r: ChargerState)
    ensures r.id == c.id && r.lastKnownTime == end
    ensures up ==> r.upTime == c.upTime + (end - start)
    ensures !up ==> r.upTime == c.upTime
    ensures !Initialised(c) ==> r.downTime == c.downTime + (if up then 0 else end - start)
    ensures Initialised(c) ==>
      r.downTime == c.downTime + (start - c.lastKnownTime) + (if up then 0 else end - start)
    ensures r.upTime + r.downTime
         == c.upTime + c.downTime + end - (if Initialised(c) then c.lastKnownTime else start)
  {
    var last := if c.lastKnownTime < 0 then start else c.lastKnownTime;
    var down := c.downTime + (start - last);
    var time := end - start;
    if up then c.(upTime := c.upTime + time, downTime := down, lastKnownTime := end)
    else c.(downTime := down + time, lastKnownTime := end)
  }

  /** The charger after a sequence of `addTime` calls, in order. */
  function Replay(c: ChargerState, ps: seq<Period>): ChargerState
    decreases |ps|
  {
    if ps == [] then c else Replay(AfterReport(c, ps[0].start, ps[0].end, ps[0].up), ps[1..])
  }

  /** Every report but the last ends at a non-negative time, so the charger never falls back to "uninitialised". */
  predicate StaysInitialised(ps: seq<Period>)
  {
    forall i :: 0 <= i < |ps| - 1 ==> ps[i].end >= 0
  }

  /**
   * The telescoping sum of `addTime`: over any run of reports during which the
   * charger stays initialised, the recorded up and down time together grow by
   * exactly the time from the first reference point (the last known time, or the
   * first report's start on a fresh charger) to the end of the last report.
   */
  lemma {:induction false} Telescoping(c: ChargerState, ps: seq<Period>)
    requires |ps| > 0 && StaysInitialised(ps)
    decreases |ps|
    ensures Replay(c, ps).lastKnownTime == ps[|ps| - 1].end
    ensures Replay(c, ps).id == c.id
    ensures Replay(c, ps).upTime + Replay(c, ps).downTime
         == c.upTime + c.downTime + ps[|ps| - 1].end
            - (if Initialised(c) then c.lastKnownTime else ps[0].start)
  {
    var c' := AfterReport(c, ps[0].start, ps[0].end, ps[0].up);
    if |ps| > 1 {
      assert StaysInitialised(ps[1..]) by {
        forall i | 0 <= i < |ps[1..]| - 1 ensures ps[1..][i].end >= 0 {
          assert ps[1..][i] == ps[i + 1];
        }
      }
      Telescoping(c', ps[1..]);
    }
  }

  /** For a freshly built charger: up time plus down time is the whole span from the first start to the last end. */
  lemma FreshTelescoping(id: int, ps: seq<Period>)
    requires |ps| > 0 && StaysInitialised(ps)
    ensures Replay(NewCharger(id), ps).upTime + Replay(NewCharger(id), ps).downTime
         == ps[|ps| - 1].end - ps[0].start
  {
    Telescoping(NewCharger(id), ps);
  }

  /**
   * Reports that never run backwards: each ends no earlier than it starts, and each
   * starts no earlier than the charger's last known time.
   */
  predicate Chronological(c: ChargerState, ps: seq<Period>)
  {
    (forall i :: 0 <= i < |ps| ==> ps[i].start <= ps[i].end)
    && (forall i :: 0 < i < |ps| ==> ps[i - 1].end <= ps[i].start)
    && (|ps| > 0 && Initialised(c) ==> c.lastKnownTime <= ps[0].start)
  }

  /** Chronological reports never make the recorded up time or down time negative. */
  lemma {:induction false} ChronologicalKeepsTimesNonNegative(c: ChargerState, ps: seq<Period>)
    requires 0 <= c.upTime && 0 <= c.downTime
    requires Chronological(c, ps)
    decreases |ps|
    ensures 0 <= Replay(c, ps).upTime && 0 <= Replay(c, ps).downTime
  {
    if ps != [] {
      var c' := AfterReport(c, ps[0].start, ps[0].end, ps[0].up);
      assert Chronological(c', ps[1..]) by {
        forall i | 0 < i < |ps[1..]| ensures ps[1..][i - 1].end <= ps[1..][i].start {
          assert ps[1..][i - 1] == ps[i] && ps[1..][i] == ps[i + 1];
        }
      }
      ChronologicalKeepsTimesNonNegative(c', ps[1..]);
    }
  }

  /** `getPercentUptime` is defined only when some time was recorded (otherwise it divides 0 by 0). */
  predicate HasTime(c: ChargerState)
  {
    c.upTime + c.downTime != 0
  }

  /**
   * The charger's uptime percentage: `100 * upTime / (upTime + downTime)`,
   * truncated toward zero as the cast of the source's float to `int` does.
   */
  function Percent(c: ChargerState): (p: int)
    requires HasTime(c)
    ensures c.downTime == 0 ==> p == 100
    ensures c.upTime == 0 ==> p == 0
    ensures 0 <= c.upTime && 0 <= c.downTime ==> 0 <= p <= 100
  {
    var total := c.upTime + c.downTime;
    if c.downTime == 0 then
      MulDivCancel(100, Abs(total));
      assert Abs(100 * c.upTime) == 100 * Abs(total);
      TruncDiv(100 * c.upTime, total)
    else if 0 <= c.upTime && 0 <= c.downTime then
      DivAtMost(100 * c.upTime, total, 100);
      TruncDiv(100 * c.upTime, total)
    else
      TruncDiv(100 * c.upTime, total)
  }

  /** A charger whose reports never run backwards and that has recorded some time has a percentage in `[0, 100]`. */
  lemma ChronologicalPercentInRange(id: int, ps: seq<Period>)
    requires Chronological(NewCharger(id), ps) && HasTime(Replay(NewCharger(id), ps))
    ensures 0 <= Percent(Replay(NewCharger(id), ps)) <= 100
  {
    ChronologicalKeepsTimesNonNegative(NewCharger(id), ps);
  }

  /** A charger object; `upTime`, `downTime` and `lastKnownTime` change in place. */
  class Charger {
    const chargerId: int
    var upTime: int
    var downTime: int
    var lastKnownTime: int

    /** The current values of the fields. */
    function State(): ChargerState
      reads this
    {
      ChargerState(chargerId, upTime, downTime, lastKnownTime)
    }

    constructor (chargerId: int)
      ensures State() == NewCharger(chargerId)
    {
      this.chargerId := chargerId;
      upTime := 0;
      downTime := 0;
      lastKnownTime := -1;
    }

    /** Records the report `[start, end]`, up or down. */
    method AddTime(start: int, end: int, up: bool)
      modifies this
      ensures State() == AfterReport(old(State()), start, end, up)
    {
      if lastKnownTime < 0 {
        lastKnownTime := start;
      }
      downTime := downTime + (start - lastKnownTime);
      lastKnownTime := end;

      var time := end - start;

      if up {
        upTime := upTime + time;
      } else {
        downTime := downTime + time;
      }
    }

    method GetChargerId() returns (id: int)
      ensures id == State().id
    {
      id := chargerId;
    }

    method GetPercentUptime() returns (p: int)
      requires HasTime(State())
      ensures p == Percent(State())
    {
      p := TruncDiv(100 * upTime, upTime + downTime);
    }
  }
}
