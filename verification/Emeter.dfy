/**
 Energy as values: how a raw meter reading is normalised, and what a power strip publishes for
 a list of outlet outcomes (kasa/iot.go). The heap side is in module Iot.
 */
module Emeter {
  import opened Wrappers

  datatype EnergyValue = EnergyValue(power: Option<real>, voltage: Option<real>, current: Option<real>,
      total: Option<real>)

  const NOTHING := EnergyValue(None, None, None, None)

  /** A raw reading, with both spellings of every quantity. */
  datatype RawReading = RawReading(
    currentMA: Option<real>, current: Option<real>, voltageMV: Option<real>, voltage: Option<real>,
    powerMW: Option<real>, power: Option<real>, totalWH: Option<real>, total: Option<real>,
    energyWH: Option<real>, energy: Option<real>, errCode: Option<int>)

  datatype ModuleReply = ModuleReply(realtime: Option<RawReading>, errCode: Option<int>)

  predicate Errs(code: Option<int>) {
    code.Some? && code.value != 0
  }

  /** `realtime`: the reading a module answered with, if any. */
  function Realtime(m: Option<ModuleReply>): Option<RawReading> {
    if m.None? || Errs(m.value.errCode) then None else m.value.realtime
  }

  function Milli(thousandths: Option<real>, otherwise: Option<real>): Option<real> {
    if thousandths.Some? then Some(thousandths.value / 1000.0) else otherwise
  }

  /** `energy`: the reading in SI units, or nothing when it is an error or holds no quantity. */
  function Normalise(raw: Option<RawReading>): (e: Option<EnergyValue>)
    ensures e.Some? ==> e.value != NOTHING
  {
    if raw.None? || Errs(raw.value.errCode) then None
    else
      var r := raw.value;
      var e := EnergyValue(Milli(r.powerMW, r.power), Milli(r.voltageMV, r.voltage), Milli(r.currentMA, r.current),
                           Milli(r.totalWH, if r.total.Some? then r.total else Milli(r.energyWH, r.energy)));
      if e == NOTHING then None else Some(e)
  }

  const BLANK := RawReading(None, None, None, None, None, None, None, None, None, None, None)

  function Thousandths(v: Option<real>): Option<real> {
    if v.Some? then Some(v.value * 1000.0) else None
  }

  /**
   Every spelling of one reading normalises to it: in thousandths or in whole units, the counter
   as a total or as an energy, and never with two quantities exchanged.
   */
  lemma SpellingsAgree(v: EnergyValue)
    requires v != NOTHING
    ensures Normalise(Some(BLANK.(powerMW := Thousandths(v.power), voltageMV := Thousandths(v.voltage),
                                  currentMA := Thousandths(v.current), totalWH := Thousandths(v.total)))) == Some(v)
    ensures Normalise(Some(BLANK.(power := v.power, voltage := v.voltage, current := v.current,
        total := v.total))) == Some(v)
    ensures Normalise(Some(BLANK.(power := v.power, voltage := v.voltage, current := v.current,
        energyWH := Thousandths(v.total)))) == Some(v)
    ensures Normalise(Some(BLANK.(power := v.power, voltage := v.voltage, current := v.current,
        energy := v.total))) == Some(v)
  {
    forall q: Option<real> | q.Some? ensures q.value * 1000.0 / 1000.0 == q.value {
    }
  }

  /**
   When a quantity comes in several spellings the first one present decides, whatever the later
   ones say, and a quantity's own spellings are all that decide it.
   */
  lemma FirstSpellingDecides(raw: RawReading, other: RawReading)
    requires !Errs(raw.errCode) && !Errs(other.errCode)
    ensures var e, f := Normalise(Some(raw)).GetOr(NOTHING), Normalise(Some(other)).GetOr(NOTHING);
      && (raw.powerMW == other.powerMW && (raw.powerMW.Some? || raw.power == other.power) ==> e.power == f.power)
      && (raw.voltageMV == other.voltageMV && (raw.voltageMV.Some? || raw.voltage == other.voltage) ==>
            e.voltage == f.voltage)
      && (raw.currentMA == other.currentMA && (raw.currentMA.Some? || raw.current == other.current) ==>
            e.current == f.current)
      && (SameTotalSpelling(raw, other) ==> e.total == f.total)
  {
  }

  /** The two agree on every spelling of the counter up to the first one present. */
  predicate SameTotalSpelling(a: RawReading, b: RawReading) {
    && a.totalWH == b.totalWH
    && (a.totalWH.None? ==> a.total == b.total)
    && (a.totalWH.None? && a.total.None? ==> a.energyWH == b.energyWH)
    && (a.totalWH.None? && a.total.None? && a.energyWH.None? ==> a.energy == b.energy)
  }

  // ---------------------------------------------------------------- strip totals

  /** What became of asking one outlet: no answer, an answer with no reading, or a reading. */
  datatype Outcome = Unreachable | Silent | Measured(reading: EnergyValue)

  function Plus(a: Option<real>, b: Option<real>): Option<real> {
    if b.None? then a else if a.None? then b else Some(a.value + b.value)
  }

  /** `addEnergy`. */
  function Accumulate(total: EnergyValue, add: EnergyValue): EnergyValue {
    EnergyValue(Plus(total.power, add.power), if total.voltage.None? then add.voltage else total.voltage,
                Plus(total.current, add.current), Plus(total.total, add.total))
  }

  function AccumulateAll(outcomes: seq<Outcome>): EnergyValue {
    if outcomes == [] then NOTHING
    else
      var before := AccumulateAll(outcomes[..|outcomes| - 1]);
      var last := outcomes[|outcomes| - 1];
      if last.Measured? then Accumulate(before, last.reading) else before
  }

  predicate AnyMeasured(outcomes: seq<Outcome>) {
    exists i :: 0 <= i < |outcomes| && outcomes[i].Measured?
  }

  predicate AllMeasured(outcomes: seq<Outcome>) {
    forall i :: 0 <= i < |outcomes| ==> outcomes[i].Measured?
  }

  predicate AllUnreachable(outcomes: seq<Outcome>) {
    forall i :: 0 <= i < |outcomes| ==> outcomes[i].Unreachable?
  }

  /** What the strip as a whole publishes: its counter only when every outlet was measured. */
  function StripEnergy(outcomes: seq<Outcome>): Option<EnergyValue> {
    if !AnyMeasured(outcomes) then None
    else if AllMeasured(outcomes) then Some(AccumulateAll(outcomes))
    else Some(AccumulateAll(outcomes).(total := None))
  }

  // ---------------------------------------------------------------- what the totals mean

  datatype Quantity = Power | Current | Total

  function Pick(e: EnergyValue, q: Quantity): Option<real> {
    match q case Power => e.power case Current => e.current case Total => e.total
  }

  function Put(e: EnergyValue, q: Quantity, v: Option<real>): EnergyValue {
    match q case Power => e.(power := v) case Current => e.(current := v) case Total => e.(total := v)
  }

  function Reported(o: Outcome, q: Quantity): Option<real> {
    if o.Measured? then Pick(o.reading, q) else None
  }

  /** The sum over the outlets that report a quantity. */
  function SumReported(outcomes: seq<Outcome>, q: Quantity): real {
    if outcomes == [] then 0.0 else Reported(outcomes[0], q).GetOr(0.0) + SumReported(outcomes[1..], q)
  }

  predicate SomeReport(outcomes: seq<Outcome>, q: Quantity) {
    exists i :: 0 <= i < |outcomes| && Reported(outcomes[i], q).Some?
  }

  lemma {:induction false} SumReportedSnoc(outcomes: seq<Outcome>, last: Outcome, q: Quantity)
    ensures SumReported(outcomes + [last], q) == SumReported(outcomes, q) + Reported(last, q).GetOr(0.0)
  {
    hide Reported;
    if outcomes != [] {
      assert (outcomes + [last])[1..] == outcomes[1..] + [last];
      SumReportedSnoc(outcomes[1..], last, q);
    }
  }

  /** Power, current and the counter are the sums over the outlets reporting them, absent iff none does. */
  lemma {:induction false} AccumulatedIsSum(outcomes: seq<Outcome>, q: Quantity)
    ensures Pick(AccumulateAll(outcomes), q) == if SomeReport(outcomes, q) then Some(SumReported(outcomes, q)) else None
  {
    if outcomes == [] {
    } else {
      var front, last := outcomes[..|outcomes| - 1], outcomes[|outcomes| - 1];
      assert front + [last] == outcomes;
      AccumulatedIsSum(front, q);
      LastAccumulated(outcomes, q);
      hide AccumulateAll, SumReported, SomeReport, Reported;
      SumReportedSnoc(front, last, q);
      SomeReportSnoc(front, last, q);
      NothingSumsToZero(front, q);
    }
  }

  lemma LastAccumulated(outcomes: seq<Outcome>, q: Quantity)
    requires outcomes != []
    ensures Pick(AccumulateAll(outcomes), q)
         == Plus(Pick(AccumulateAll(outcomes[..|outcomes| - 1]), q), Reported(outcomes[|outcomes| - 1], q))
  {
  }

  lemma SomeReportSnoc(outcomes: seq<Outcome>, last: Outcome, q: Quantity)
    ensures SomeReport(outcomes + [last], q) <==> SomeReport(outcomes, q) || Reported(last, q).Some?
  {
    var more := outcomes + [last];
    if i :| 0 <= i < |outcomes| && Reported(outcomes[i], q).Some? {
      assert Reported(more[i], q).Some?;
    }
    if Reported(last, q).Some? {
      assert Reported(more[|outcomes|], q).Some?;
    }
  }

  lemma {:induction false} NothingSumsToZero(outcomes: seq<Outcome>, q: Quantity)
    ensures SomeReport(outcomes, q) || SumReported(outcomes, q) == 0.0
  {
    if outcomes != [] && !SomeReport(outcomes, q) {
      assert Reported(outcomes[0], q).None?;
      assert forall i :: 0 <= i < |outcomes[1..]| ==> outcomes[1..][i] == outcomes[i + 1];
      NothingSumsToZero(outcomes[1..], q);
    }
  }

  function Voltage(o: Outcome): Option<real> {
    if o.Measured? then o.reading.voltage else None
  }

  /** Voltage is the first one reported, absent iff no outlet reports any. */
  lemma {:induction false} AccumulatedVoltageIsFirst(outcomes: seq<Outcome>)
    ensures match AccumulateAll(outcomes).voltage
      case None => forall i :: 0 <= i < |outcomes| ==> Voltage(outcomes[i]).None?
      case Some(v) => exists i :: 0 <= i < |outcomes| && Voltage(outcomes[i]) == Some(v)
                                  && forall j :: 0 <= j < i ==> Voltage(outcomes[j]).None?
  {
    if outcomes != [] {
      var front := outcomes[..|outcomes| - 1];
      AccumulatedVoltageIsFirst(front);
      if AccumulateAll(front).voltage.Some? {
        var i :| 0 <= i < |front| && Voltage(front[i]) == AccumulateAll(front).voltage
            && forall j :: 0 <= j < i ==> Voltage(front[j]).None?;
        assert Voltage(outcomes[i]) == AccumulateAll(outcomes).voltage;
        assert forall j :: 0 <= j < i ==> outcomes[j] == front[j];
      } else {
        assert forall j :: 0 <= j < |front| ==> outcomes[j] == front[j];
        assert Voltage(outcomes[|outcomes| - 1]) == AccumulateAll(outcomes).voltage;
      }
    }
  }

  // ---------------------------------------------------------------- the counter across a run

  /** The counter one read publishes for the strip, if it publishes one. */
  function PublishedTotal(outcomes: seq<Outcome>): Option<real> {
    if StripEnergy(outcomes).None? then None else StripEnergy(outcomes).value.total
  }

  /** Wherever two reads both see an outlet's counter, the later value is no smaller. */
  ghost predicate CountersGrow(earlier: seq<Outcome>, later: seq<Outcome>) {
    |earlier| == |later| && forall k :: 0 <= k < |earlier| ==>
      var a, b := Reported(earlier[k], Total), Reported(later[k], Total);
      a.Some? && b.Some? ==> a.value <= b.value
  }

  /** Every outlet that is measured at all reports a counter. */
  ghost predicate ReadingsCarryTotals(outcomes: seq<Outcome>) {
    forall k :: 0 <= k < |outcomes| && outcomes[k].Measured? ==> outcomes[k].reading.total.Some?
  }

  lemma PublishedTotalIsSum(outcomes: seq<Outcome>)
    ensures PublishedTotal(outcomes)
        == if AllMeasured(outcomes) && SomeReport(outcomes, Total) then Some(SumReported(outcomes, Total)) else None
  {
    AccumulatedIsSum(outcomes, Total);
    if AllMeasured(outcomes) && SomeReport(outcomes, Total) {
      var i :| 0 <= i < |outcomes| && Reported(outcomes[i], Total).Some?;
      assert outcomes[i].Measured?;
    }
  }

  /** A quantity published for the strip as a whole. */
  predicate Publishes(outcomes: seq<Outcome>, q: Quantity, x: real) {
    StripEnergy(outcomes).Some? && Pick(StripEnergy(outcomes).value, q) == Some(x)
  }

  /**
   What a strip publishes: nothing unless some outlet was measured, the sums of power and current
   over those that were, and the sum of their counters only if all of them were.
   */
  lemma StripPublishes(outcomes: seq<Outcome>, x: real)
    ensures StripEnergy(outcomes).Some? <==> exists i :: 0 <= i < |outcomes| && outcomes[i].Measured?
    ensures Publishes(outcomes, Power, x) <==> SomeReport(outcomes, Power) && x == SumReported(outcomes, Power)
    ensures Publishes(outcomes, Current, x) <==> SomeReport(outcomes, Current) && x == SumReported(outcomes, Current)
    ensures Publishes(outcomes, Total, x) <==>
      && (forall i :: 0 <= i < |outcomes| ==> outcomes[i].Measured?)
      && SomeReport(outcomes, Total) && x == SumReported(outcomes, Total)
    ensures StripEnergy(outcomes).Some? ==>
      StripEnergy(outcomes).value.voltage == AccumulateAll(outcomes).voltage
  {
    AccumulatedIsSum(outcomes, Power);
    AccumulatedIsSum(outcomes, Current);
    PublishedTotalIsSum(outcomes);
    hide AccumulateAll, SumReported;
    ReportersAreMeasured(outcomes, Power);
    ReportersAreMeasured(outcomes, Current);
    hide SomeReport;
  }

  lemma ReportersAreMeasured(outcomes: seq<Outcome>, q: Quantity)
    ensures SomeReport(outcomes, q) ==> AnyMeasured(outcomes)
  {
  }

  lemma {:induction false} SumsGrow(earlier: seq<Outcome>, later: seq<Outcome>)
    requires |earlier| == |later|
    requires forall k :: 0 <= k < |earlier| ==>
        Reported(earlier[k], Total).GetOr(0.0) <= Reported(later[k], Total).GetOr(0.0)
    ensures SumReported(earlier, Total) <= SumReported(later, Total)
  {
    if earlier != [] {
      assert forall k :: 0 <= k < |earlier[1..]| ==> earlier[1..][k] == earlier[k + 1] && later[1..][k] == later[k + 1];
      SumsGrow(earlier[1..], later[1..]);
    }
  }

  /**
   The strip counter never goes backwards over a run of reads with any outlet failures, as long
   as the outlets' own counters do not and a measured outlet always reports one.
   */
  lemma StripCounterNeverDecreases(run: seq<seq<Outcome>>, i: nat, j: nat)
    requires i < j < |run|
    requires forall a, b :: 0 <= a < b < |run| ==> CountersGrow(run[a], run[b])
    requires forall a :: 0 <= a < |run| ==> ReadingsCarryTotals(run[a])
    requires PublishedTotal(run[i]).Some? && PublishedTotal(run[j]).Some?
    ensures PublishedTotal(run[i]).value <= PublishedTotal(run[j]).value
  {
    PublishedTotalIsSum(run[i]);
    PublishedTotalIsSum(run[j]);
    assert CountersGrow(run[i], run[j]);
    SumsGrow(run[i], run[j]);
  }

  // ---------------------------------------------------------------- exactly when it holds

  /** A fully measured read in which exactly the outlets in `reporting` carry a counter. */
  function ReadOf(n: nat, reporting: set<nat>, counters: nat -> real): (outcomes: seq<Outcome>)
    ensures |outcomes| == n && AllMeasured(outcomes)
    ensures forall k :: 0 <= k < n ==>
        Reported(outcomes[k], Total) == if k in reporting then Some(counters(k)) else None
  {
    seq(n, k => Measured(EnergyValue(Some(0.0), None, None, if k in reporting then Some(counters(k)) else None)))
  }

  /** Whatever non-decreasing counters the outlets have, two published samples are in order. */
  ghost predicate SafeFor(n: nat, before: set<nat>, after: set<nat>) {
    forall c: nat -> real, d: nat -> real ::
      (forall k: nat :: k < n ==> 0.0 <= c(k) <= d(k)) ==>
      var x, y := PublishedTotal(ReadOf(n, before, c)), PublishedTotal(ReadOf(n, after, d));
      x.Some? && y.Some? ==> x.value <= y.value
  }

  lemma {:induction false} SumDominatesTerm(outcomes: seq<Outcome>, k: nat)
    requires k < |outcomes| && forall i :: 0 <= i < |outcomes| ==> Reported(outcomes[i], Total).GetOr(0.0) >= 0.0
    ensures SumReported(outcomes, Total) >= Reported(outcomes[k], Total).GetOr(0.0)
        && SumReported(outcomes, Total) >= 0.0
  {
    var tail := outcomes[1..];
    assert forall i :: 0 <= i < |tail| ==> tail[i] == outcomes[i + 1];
    if k > 0 {
      SumDominatesTerm(tail, k - 1);
    } else if tail != [] {
      SumDominatesTerm(tail, 0);
    }
  }

  lemma {:induction false} ZerosSumToZero(outcomes: seq<Outcome>)
    requires forall i :: 0 <= i < |outcomes| ==> Reported(outcomes[i], Total).GetOr(0.0) == 0.0
    ensures SumReported(outcomes, Total) == 0.0
  {
    if outcomes != [] {
      assert forall i :: 0 <= i < |outcomes[1..]| ==> outcomes[1..][i] == outcomes[i + 1];
      ZerosSumToZero(outcomes[1..]);
    }
  }

  /** No report lost: any growth of the outlets' counters shows as growth of the strip's. */
  lemma {:induction false} SafeWhenNoReportLost(n: nat, before: set<nat>, after: set<nat>)
    requires before <= after || after == {}
    ensures SafeFor(n, before, after)
  {
    forall c: nat -> real, d: nat -> real | forall k: nat :: k < n ==> 0.0 <= c(k) <= d(k)
      ensures var x, y := PublishedTotal(ReadOf(n, before, c)), PublishedTotal(ReadOf(n, after, d));
              x.Some? && y.Some? ==> x.value <= y.value
    {
      var x, y := ReadOf(n, before, c), ReadOf(n, after, d);
      PublishedTotalIsSum(x);
      PublishedTotalIsSum(y);
      if before <= after {
        SumsGrow(x, y);
      }
    }
  }

  /** A report lost: the outlet that lost it held everything the strip had counted. */
  lemma {:induction false} UnsafeWhenReportLost(n: nat, before: set<nat>, after: set<nat>, lost: nat, kept: nat)
    requires lost in before && lost !in after && kept in after && lost < n && kept < n
    ensures !SafeFor(n, before, after)
  {
    var c := (k: nat) => if k == lost then 1.0 else 0.0;
    var x, y := ReadOf(n, before, c), ReadOf(n, after, c);
    assert PublishedTotal(x).Some? && PublishedTotal(y).Some? && PublishedTotal(x).value > PublishedTotal(y).value by {
      PublishedTotalIsSum(x);
      PublishedTotalIsSum(y);
      assert Reported(x[lost], Total) == Some(1.0) && Reported(y[kept], Total).Some?;
      SumDominatesTerm(x, lost);
      ZerosSumToZero(y);
    }
    hide PublishedTotal, ReadOf;
    assert forall k: nat :: k < n ==> 0.0 <= c(k) <= c(k);
  }

  /**
   Between two fully measured reads the published counter is safe for every way the outlets'
   own counters can grow exactly when the second read publishes none, or every outlet that
   carried a counter in the first read carries one in the second: a reading without a total
   counts as measured all the same.
   */
  lemma {:induction false} CounterSafeIffNoReportLost(n: nat, before: set<nat>, after: set<nat>)
    requires forall k :: k in before || k in after ==> k < n
    ensures SafeFor(n, before, after) <==> before <= after || after == {}
  {
    hide SafeFor;
    if before <= after || after == {} {
      SafeWhenNoReportLost(n, before, after);
    } else {
      var lost :| lost in before && lost !in after;
      var kept :| kept in after;
      UnsafeWhenReportLost(n, before, after, lost, kept);
    }
  }

  /** A strip counter that goes backwards although no outlet's did: the second outlet answered without a total. */
  lemma PartialTotalCounterexample()
    ensures var full := [Measured(NOTHING.(total := Some(5.0))), Measured(NOTHING.(total := Some(7.0)))];
            var partial := [Measured(NOTHING.(total := Some(6.0))), Measured(NOTHING.(power := Some(1.0)))];
            CountersGrow(full, partial) && PublishedTotal(full) == Some(12.0) && PublishedTotal(partial) == Some(6.0)
  {
    var full := [Measured(NOTHING.(total := Some(5.0))), Measured(NOTHING.(total := Some(7.0)))];
    var partial := [Measured(NOTHING.(total := Some(6.0))), Measured(NOTHING.(power := Some(1.0)))];
    PublishedTotalIsSum(full);
    PublishedTotalIsSum(partial);
    assert Reported(full[0], Total).Some? && Reported(partial[0], Total).Some?;
    assert SumReported(full, Total) == 5.0 + SumReported([full[1]], Total) by { assert full[1..] == [full[1]]; }
    assert SumReported(partial, Total) == 6.0 + SumReported([partial[1]], Total) by {
      assert partial[1..] == [partial[1]];
    }
  }
}
