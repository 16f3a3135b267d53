/**
 * Per-shift record analysis helpers: shift labels, the time span of a set
 * of records, the record of maximum production and the values reported for
 * it, the look-ahead used to recompute a missing transverse speed, path
 * clean-up, the soil-region lookup and the mapping of a Hualong record onto
 * the vacuum estimate.
 */
module ShiftTools {
  import opened Wrappers
  import opened Text
  import opened SuctionVacuum

  /** The label of shift 1, 2 or 3; every other number is the last shift. */
  function ShiftName(shift: int): (r: string)
    ensures r in ["0-6", "6-12", "12-18", "18-24"]
    ensures shift !in {1, 2, 3} ==> r == "18-24"
  {
    match shift
    case 1 => "0-6"
    case 2 => "6-12"
    case 3 => "12-18"
    case _ => "18-24"
  }

  /** The four shifts have four different labels. */
  lemma ShiftNamesDistinct(a: int, b: int)
    requires 1 <= a <= 4 && 1 <= b <= 4 && a != b
    ensures ShiftName(a) != ShiftName(b)
  {
  }

  /**
   * durationMinutes / durationMinutesHl: scans the record times (epoch
   * milliseconds) and returns (latest, earliest); with no records the two
   * arguments come back unchanged, in swapped order.
   */
  method DurationBounds(minTime: int, maxTime: int, times: seq<int>) returns (latest: int, earliest: int)
    ensures |times| == 0 ==> latest == maxTime && earliest == minTime
    ensures |times| > 0 ==> earliest in times && latest in times
    ensures forall i :: 0 <= i < |times| ==> earliest <= times[i] <= latest
  {
    earliest, latest := minTime, maxTime;
    var i := 0;
    while i < |times|
      invariant 0 <= i <= |times|
      invariant i == 0 ==> earliest == minTime && latest == maxTime
      invariant i > 0 ==> earliest in times[..i] && latest in times[..i]
      invariant forall j :: 0 <= j < i ==> earliest <= times[j] <= latest
    {
      var t := times[i];
      if i == 0 || t < earliest {
        earliest := t;
      }
      if i == 0 || t > latest {
        latest := t;
      }
      i := i + 1;
    }
  }

  /** idx is the first index holding the strictly greatest rate above -1, or 0 when no rate exceeds -1. */
  ghost predicate IsFirstMax(rates: seq<real>, idx: nat)
  {
    && (|rates| > 0 ==> idx < |rates|)
    && ((exists j :: 0 <= j < |rates| && rates[j] > -1.0) ==>
          rates[idx] > -1.0
          && (forall j :: 0 <= j < |rates| ==> rates[j] <= rates[idx])
          && (forall j :: 0 <= j < idx ==> rates[j] < rates[idx]))
    && ((forall j :: 0 <= j < |rates| ==> rates[j] <= -1.0) ==> idx == 0)
  }

  /** At most one index is the first strict maximum. */
  lemma FirstMaxUnique(rates: seq<real>, a: nat, b: nat)
    requires IsFirstMax(rates, a) && IsFirstMax(rates, b)
    ensures a == b
  {
  }

  /** Window of the look-ahead, in milliseconds (3 minutes). */
  const LookAheadWindow: int := 3 * 60 * 1000

  /**
   * next is the record used to recompute the speed of record i: the first
   * later record at least LookAheadWindow later, else the last record when
   * i is not the last one, else none.
   */
  ghost predicate IsLookAhead(times: seq<int>, i: nat, next: Option<nat>)
    requires i < |times|
  {
    && (next.Some? <==> i + 1 < |times|)
    && (next.Some? ==>
          && i < next.value < |times|
          && (forall j :: i < j < next.value ==> times[j] < times[i] + LookAheadWindow)
          && (times[next.value] >= times[i] + LookAheadWindow || next.value == |times| - 1))
  }

  /** The look-ahead choice is determined by the record times. */
  lemma LookAheadUnique(times: seq<int>, i: nat, a: Option<nat>, b: Option<nat>)
    requires i < |times| && IsLookAhead(times, i, a) && IsLookAhead(times, i, b)
    ensures a == b
  {
  }

  /** The inner search of calParams / calParamsHl for record i. */
  method NextRecord(times: seq<int>, i: nat) returns (next: Option<nat>)
    requires i < |times|
    ensures IsLookAhead(times, i, next)
  {
    var target := times[i] + LookAheadWindow;
    next := None;
    var j := i + 1;
    while j < |times|
      invariant i + 1 <= j <= |times|
      invariant forall k :: i < k < j ==> times[k] < target
    {
      if times[j] >= target {
        next := Some(j);
        break;
      }
      j := j + 1;
    }
    if next.None? && |times| > i + 1 {
      next := Some(|times| - 1);
    }
  }

  /** The pump discharge pressure of a Hualong record: mud pump 2, else mud pump 1, else the underwater pump. */
  function PumpPressure(mudPump2: real, mudPump1: real, underwater: real): (p: real)
    ensures p == 0.0 <==> mudPump2 == 0.0 && mudPump1 == 0.0 && underwater == 0.0
    ensures mudPump2 != 0.0 ==> p == mudPump2
    ensures mudPump2 == 0.0 && mudPump1 != 0.0 ==> p == mudPump1
    ensures mudPump2 == 0.0 && mudPump1 == 0.0 ==> p == underwater
  {
    if mudPump2 != 0.0 then mudPump2
    else if mudPump1 != 0.0 then mudPump1
    else underwater
  }

  /**
   * The fields of one record that the maximum-production scan reads: the
   * production rate it maximises, and the flow and pump pressure columns
   * it reports for the best record.
   */
  datatype ScanRecord = ScanRecord(
    recordTime: int,
    outputRate: real,
    transverseSpeed: real,
    flowRate: real,
    pumpPressure: real)

  /** The fields of a cutter-suction record that calParams reads. */
  datatype DatumSample = DatumSample(
    recordTime: int,
    currentShiftOutputRate: real,
    transverseSpeed: real,
    flowRate: real,
    boosterPumpDischargePressure: real)

  /** The fields of a Hualong record that calParamsHl reads. */
  datatype HlSample = HlSample(
    recordTime: int,
    hourlyOutputRate: real,
    transverseSpeed: real,
    flowRate: real,
    mudPump2DischargePressure: real,
    mudPump1DischargePressure: real,
    underwaterPumpDischargePressure: real)

  /** calParams scans the current-shift output rate and reports the booster pump pressure. */
  function DatumScan(d: DatumSample): ScanRecord
  {
    ScanRecord(d.recordTime, d.currentShiftOutputRate, d.transverseSpeed, d.flowRate, d.boosterPumpDischargePressure)
  }

  /** calParamsHl scans the hourly output rate and reports the first non-zero pump pressure. */
  function HlScan(s: HlSample): ScanRecord
  {
    ScanRecord(s.recordTime, s.hourlyOutputRate, s.transverseSpeed, s.flowRate,
               PumpPressure(s.mudPump2DischargePressure, s.mudPump1DischargePressure, s.underwaterPumpDischargePressure))
  }

  /**
   * How the horizontal speed of a record is obtained: recomputed from the
   * cutter track towards a later record, the absolute transverse speed when
   * no later record exists, or never set (left at 0) when the record is not
   * producing or already has a transverse speed.
   */
  datatype SpeedSource = NotSet | FromTrack(next: nat) | AbsTransverse

  /** The values reported for the record of maximum production, before rounding. */
  datatype MaxProduction = MaxProduction(index: nat, optimalTime: int, flow: real, pumpPressure: real)

  function Rates(samples: seq<ScanRecord>): (r: seq<real>)
    ensures |r| == |samples| && forall i :: 0 <= i < |samples| ==> r[i] == samples[i].outputRate
  {
    if samples == [] then [] else [samples[0].outputRate] + Rates(samples[1..])
  }

  function Times(samples: seq<ScanRecord>): (r: seq<int>)
    ensures |r| == |samples| && forall i :: 0 <= i < |samples| ==> r[i] == samples[i].recordTime
  {
    if samples == [] then [] else [samples[0].recordTime] + Times(samples[1..])
  }

  /** After the first i rates: maxIndex/maxRate is the running first strict maximum, starting from (0, -1). */
  ghost predicate MaxSoFar(rates: seq<real>, i: nat, maxIndex: nat, maxRate: real)
    requires i <= |rates|
  {
    && maxIndex < |rates| && maxRate >= -1.0
    && (maxRate == -1.0 ==> maxIndex == 0 && forall k :: 0 <= k < i ==> rates[k] <= -1.0)
    && (maxRate > -1.0 ==>
          && maxIndex < i && rates[maxIndex] == maxRate
          && (forall k :: 0 <= k < i ==> rates[k] <= maxRate)
          && (forall k :: 0 <= k < maxIndex ==> rates[k] < maxRate))
  }

  /** One step of the scan keeps the running maximum. */
  lemma MaxStep(rates: seq<real>, i: nat, maxIndex: nat, maxRate: real)
    requires i < |rates| && MaxSoFar(rates, i, maxIndex, maxRate)
    ensures rates[i] > maxRate ==> MaxSoFar(rates, i + 1, i, rates[i])
    ensures rates[i] <= maxRate ==> MaxSoFar(rates, i + 1, maxIndex, maxRate)
  {
  }

  /** Once every rate is seen, the running maximum is the first strict maximum. */
  lemma MaxSoFarComplete(rates: seq<real>, maxIndex: nat, maxRate: real)
    requires MaxSoFar(rates, |rates|, maxIndex, maxRate)
    ensures IsFirstMax(rates, maxIndex)
  {
  }

  /** How record k's horizontal speed is obtained agrees with its rate, its transverse speed and the look-ahead. */
  ghost predicate SourceFits(samples: seq<ScanRecord>, times: seq<int>, k: nat, source: SpeedSource)
    requires k < |samples| == |times|
  {
    && (source != NotSet <==> samples[k].outputRate > 0.0 && samples[k].transverseSpeed == 0.0)
    && (source != NotSet ==>
          IsLookAhead(times, k, if source.FromTrack? then Some(source.next) else None))
  }

  /** The branch of calParamsHl that decides how record i's horizontal speed is obtained. */
  method SpeedSourceOf(samples: seq<ScanRecord>, times: seq<int>, i: nat) returns (source: SpeedSource)
    requires i < |samples| && times == Times(samples)
    ensures SourceFits(samples, times, i, source)
  {
    source := NotSet;
    var r := samples[i];
    if r.outputRate > 0.0 && r.transverseSpeed == 0.0 {
      var next := NextRecord(times, i);
      source := if next.Some? then FromTrack(next.value) else AbsTransverse;
    }
  }

  /** The first i entries of the flow and pump-pressure columns hold those records' values. */
  ghost predicate ColumnsFilled(samples: seq<ScanRecord>, flows: seq<real>, pumpPressures: seq<real>, i: nat)
    requires i <= |samples| == |flows| == |pumpPressures|
  {
    forall k :: 0 <= k < i ==> flows[k] == samples[k].flowRate && pumpPressures[k] == samples[k].pumpPressure
  }

  lemma ColumnsStep(samples: seq<ScanRecord>, flows: seq<real>, pumpPressures: seq<real>, i: nat)
    requires i < |samples| == |flows| == |pumpPressures| && ColumnsFilled(samples, flows, pumpPressures, i)
    ensures ColumnsFilled(samples, flows[i := samples[i].flowRate],
                          pumpPressures[i := samples[i].pumpPressure], i + 1)
  {
  }

  /** The first i speed sources fit their records. */
  ghost predicate SourcesFit(samples: seq<ScanRecord>, times: seq<int>, sources: seq<SpeedSource>)
    requires |sources| <= |samples| == |times|
  {
    forall k :: 0 <= k < |sources| ==> SourceFits(samples, times, k, sources[k])
  }

  lemma SourcesStep(samples: seq<ScanRecord>, times: seq<int>, sources: seq<SpeedSource>, source: SpeedSource)
    requires |sources| < |samples| == |times| && SourcesFit(samples, times, sources)
    requires SourceFits(samples, times, |sources|, source)
    ensures SourcesFit(samples, times, sources + [source])
  {
    var next := sources + [source];
    assert forall k :: 0 <= k < |sources| ==> next[k] == sources[k];
  }

  /**
   * The loop shared by calParams and calParamsHl: one pass over the records
   * tracking the first strict maximum of the output rate and filling the
   * flow and pump-pressure columns, plus the look-ahead for producing
   * records without a transverse speed. The values reported for the
   * maximum-production record are taken from its own row of each column.
   */
  method CalParams(samples: seq<ScanRecord>) returns (best: MaxProduction, sources: seq<SpeedSource>)
    requires |samples| > 0
    ensures best.index < |samples| && IsFirstMax(Rates(samples), best.index)
    ensures best.optimalTime == samples[best.index].recordTime
    ensures best.flow == samples[best.index].flowRate
    ensures best.pumpPressure == samples[best.index].pumpPressure
    ensures |sources| == |samples| && forall k :: 0 <= k < |samples| ==> SourceFits(samples, Times(samples), k, sources[k])
  {
    var flows := seq(|samples|, _ => 0.0);
    var pumpPressures := seq(|samples|, _ => 0.0);
    var times := Times(samples);
    ghost var rates := Rates(samples);
    var maxOutputRate := -1.0;
    var maxIndex: nat := 0;
    sources := [];
    var i := 0;
    while i < |samples|
      invariant 0 <= i <= |samples| && |sources| == i && |flows| == |pumpPressures| == |samples|
      invariant MaxSoFar(rates, i, maxIndex, maxOutputRate)
      invariant ColumnsFilled(samples, flows, pumpPressures, i)
      invariant SourcesFit(samples, times, sources)
    {
      var r := samples[i];
      MaxStep(rates, i, maxIndex, maxOutputRate);
      if r.outputRate > maxOutputRate {
        maxOutputRate := r.outputRate;
        maxIndex := i;
      }
      ColumnsStep(samples, flows, pumpPressures, i);
      flows := flows[i := r.flowRate];
      pumpPressures := pumpPressures[i := r.pumpPressure];
      var source := SpeedSourceOf(samples, times, i);
      SourcesStep(samples, times, sources, source);
      sources := sources + [source];
      i := i + 1;
    }
    MaxSoFarComplete(rates, maxIndex, maxOutputRate);
    best := MaxProduction(maxIndex, samples[maxIndex].recordTime, flows[maxIndex], pumpPressures[maxIndex]);
  }

  /** calParams over cutter-suction records. */
  method CalParamsDatum(records: seq<DatumSample>) returns (best: MaxProduction, sources: seq<SpeedSource>)
    requires |records| > 0
    ensures var scans := seq(|records|, k requires 0 <= k < |records| => DatumScan(records[k]));
      && best.index < |records| && IsFirstMax(Rates(scans), best.index)
      && best.optimalTime == records[best.index].recordTime
      && best.flow == records[best.index].flowRate
      && best.pumpPressure == records[best.index].boosterPumpDischargePressure
      && |sources| == |records|
      && forall k :: 0 <= k < |records| ==> SourceFits(scans, Times(scans), k, sources[k])
  {
    var scans := seq(|records|, k requires 0 <= k < |records| => DatumScan(records[k]));
    best, sources := CalParams(scans);
  }

  /**
   * calParamsHl over Hualong records, with the pump pressure of the best
   * record read from the pressure column (see ReportedPumpPressureAsWritten).
   */
  method CalParamsHl(records: seq<HlSample>) returns (best: MaxProduction, sources: seq<SpeedSource>)
    requires |records| > 0
    ensures var scans := seq(|records|, k requires 0 <= k < |records| => HlScan(records[k]));
      && best.index < |records| && IsFirstMax(Rates(scans), best.index)
      && best.optimalTime == records[best.index].recordTime
      && best.flow == records[best.index].flowRate
      && best.pumpPressure == PumpPressure(records[best.index].mudPump2DischargePressure,
                                           records[best.index].mudPump1DischargePressure,
                                           records[best.index].underwaterPumpDischargePressure)
      && |sources| == |records|
      && forall k :: 0 <= k < |records| ==> SourceFits(scans, Times(scans), k, sources[k])
  {
    var scans := seq(|records|, k requires 0 <= k < |records| => HlScan(records[k]));
    best, sources := CalParams(scans);
  }

  /**
   * The pump-pressure value calParamsHl reports for the maximum-production
   * record, as written: it reads the flow column, so it is the best
   * record's flow rate.
   */
  function ReportedPumpPressureAsWritten(records: seq<HlSample>, maxIndex: nat): real
    requires maxIndex < |records|
  {
    records[maxIndex].flowRate
  }

  /** One producing record with flow 5 and mud pump 2 at 2: the report says 5, the pressure is 2. */
  lemma ReportedPumpPressureIsFlow()
    ensures var records := [HlSample(0, 1.0, 1.0, 5.0, 2.0, 0.0, 0.0)];
      && IsFirstMax(Rates([HlScan(records[0])]), 0)
      && ReportedPumpPressureAsWritten(records, 0) == 5.0
      && HlScan(records[0]).pumpPressure == 2.0
  {
    var records := [HlSample(0, 1.0, 1.0, 5.0, 2.0, 0.0, 0.0)];
    assert Rates([HlScan(records[0])]) == [1.0];
  }

  /**
   * stripQuotes: trims white space, then at most one leading and one
   * trailing double quote, then at most one leading and one trailing single
   * quote.
   */
  function StripQuotes(s: string): string
  {
    TrimSuffix(TrimPrefix(TrimSuffix(TrimPrefix(TrimSpace(s), "\""), "\""), "'"), "'")
  }

  /** t is a contiguous piece of s. */
  ghost predicate IsInfix(t: string, s: string)
  {
    exists lo, hi :: 0 <= lo <= hi <= |s| && t == s[lo..hi]
  }

  lemma InfixTransitive(u: string, t: string, s: string)
    requires IsInfix(u, t) && IsInfix(t, s)
    ensures IsInfix(u, s)
  {
    var lo, hi :| 0 <= lo <= hi <= |s| && t == s[lo..hi];
    var a, b :| 0 <= a <= b <= |t| && u == t[a..b];
    assert forall k :: 0 <= k < b - a ==> u[k] == s[lo + a + k];
    assert u == s[lo + a..lo + b];
  }

  lemma TrimStepsAreInfixes(s: string, affix: string)
    ensures IsInfix(TrimPrefix(s, affix), s) && IsInfix(TrimSuffix(s, affix), s)
    ensures IsInfix(TrimLeftSpace(s), s) && IsInfix(TrimRightSpace(s), s)
  {
    var p := TrimPrefix(s, affix);
    if HasPrefix(s, affix) {
      assert p == s[|affix|..|s|];
    } else {
      assert p == s[0..|s|];
    }
    var q := TrimSuffix(s, affix);
    if HasSuffix(s, affix) {
      assert q == s[0..|q|];
    } else {
      assert q == s[0..|s|];
    }
    assert TrimLeftSpace(s) == s[|s| - |TrimLeftSpace(s)|..|s|];
    assert TrimRightSpace(s) == s[0..|TrimRightSpace(s)|];
  }

  /** The result is always a contiguous piece of the input. */
  lemma StripQuotesIsInfix(s: string)
    ensures IsInfix(StripQuotes(s), s)
  {
    var a := TrimLeftSpace(s);
    var b := TrimRightSpace(a);
    var c := TrimPrefix(b, "\"");
    var d := TrimSuffix(c, "\"");
    var e := TrimPrefix(d, "'");
    var f := TrimSuffix(e, "'");
    TrimStepsAreInfixes(s, "");
    TrimStepsAreInfixes(a, "");
    TrimStepsAreInfixes(b, "\"");
    TrimStepsAreInfixes(c, "\"");
    TrimStepsAreInfixes(d, "'");
    TrimStepsAreInfixes(e, "'");
    InfixTransitive(b, a, s);
    InfixTransitive(c, b, s);
    InfixTransitive(d, c, s);
    InfixTransitive(e, d, s);
    InfixTransitive(f, e, s);
  }

  /** A path wrapped in single quotes comes back unwrapped, whatever it holds. */
  lemma StripSingleQuotes(p: string)
    ensures StripQuotes("'" + p + "'") == p
  {
    var w := "'" + p + "'";
    assert w[0] == '\'' && w[|w| - 1] == '\'';
    TrimSpaceKeeps(w);
    assert !HasPrefix(w, "\"") && !HasSuffix(w, "\"");
    var e := TrimPrefix(w, "'");
    assert e == p + "'";
    assert TrimSuffix(e, "'") == p;
  }

  /** A path wrapped in double quotes comes back unwrapped unless it itself starts or ends with a single quote. */
  lemma StripDoubleQuotes(p: string)
    requires !HasPrefix(p, "'") && !HasSuffix(p, "'")
    ensures StripQuotes("\"" + p + "\"") == p
  {
    var w := "\"" + p + "\"";
    assert w[0] == '"' && w[|w| - 1] == '"';
    TrimSpaceKeeps(w);
    var c := TrimPrefix(w, "\"");
    assert c == p + "\"";
    var d := TrimSuffix(c, "\"");
    assert d == p;
  }

  /**
   * makeAbsUnder: the empty path stays empty; otherwise the stripped path
   * is cleaned when absolute and joined under dataDir when relative. The
   * platform's path operations are parameters.
   */
  function MakeAbsUnder(p: string, dataDir: string, isAbs: string -> bool, clean: string -> string,
                        join: (string, string) -> string): (r: string)
    ensures p == "" ==> r == ""
    ensures p != "" && isAbs(StripQuotes(p)) ==> r == clean(StripQuotes(p))
    ensures p != "" && !isAbs(StripQuotes(p)) ==> r == clean(join(dataDir, StripQuotes(p)))
  {
    if p == "" then ""
    else
      var q := StripQuotes(p);
      if isAbs(q) then clean(q) else clean(join(dataDir, q))
  }

  /** A soil region: a box in the site's coordinates. */
  datatype SoilRegion = SoilRegion(xMin: real, xMax: real, yMin: real, yMax: real,
                                   zMin: real, zMax: real, soilType: string)

  const UnknownSoil: string := "未知土质"

  /** The cutter's y is compared with the region's x range and its x with the region's y range. */
  predicate InRegion(region: SoilRegion, x: real, y: real, z: real)
  {
    && region.xMin <= y < region.xMax
    && region.yMin <= x < region.yMax
    && region.zMin <= z < region.zMax
  }

  /** Region i contains the point and no earlier region does. */
  predicate FirstContaining(regions: seq<SoilRegion>, i: nat, x: real, y: real, z: real)
    requires i < |regions|
  {
    InRegion(regions[i], x, y, z) && forall j :: 0 <= j < i ==> !InRegion(regions[j], x, y, z)
  }

  /** findSoilType: the soil type of the first region containing the point, else "未知土质". */
  function FindSoilType(x: real, y: real, z: real, regions: seq<SoilRegion>): (r: string)
    ensures (forall i :: 0 <= i < |regions| ==> !InRegion(regions[i], x, y, z)) ==> r == UnknownSoil
    ensures forall i :: 0 <= i < |regions| && FirstContaining(regions, i, x, y, z) ==> r == regions[i].soilType
  {
    if regions == [] then UnknownSoil
    else if InRegion(regions[0], x, y, z) then regions[0].soilType
    else
      var r := FindSoilType(x, y, z, regions[1..]);
      assert forall i :: 1 <= i < |regions| ==> regions[i] == regions[1..][i - 1];
      r
  }

  /** The fields of a Hualong record that the vacuum estimate reads. */
  datatype HlHydraulics = HlHydraulics(
    shipName: string,
    waterDensity: real,
    density: real,
    fieldSlurryDensity: real,
    flowVelocity: real,
    flowRate: real,
    bridgeDepth: real,
    earDraft: real,
    leftEarDraft: real,
    rightEarDraft: real)

  /**
   * The cutter-suction record a Hualong record is mapped to: the bridge
   * depth stands for the cutter depth, and the pipe diameter (0.7 m) and
   * ear-to-bottom distance (12.9 m) are fixed.
   */
  function HlToDatum(r: HlHydraulics): DredgerDatum
  {
    DredgerDatum(r.shipName, r.waterDensity, r.density, r.fieldSlurryDensity, r.flowVelocity,
                 r.flowRate, r.bridgeDepth, r.earDraft, r.leftEarDraft, r.rightEarDraft, 0.7, 12.9)
  }

  function CalcVacuumKPaFromHL(r: HlHydraulics, cfg: ShipHydraulicsConfig): real
  {
    CalcVacuumKPa(HlToDatum(r), cfg)
  }

  /**
   * Under the configuration of any ship, a Hualong record's pipe diameter
   * is 0.7 m, its suction depth is its bridge depth, and its pump depth is
   * defined exactly when its effective ear draft is non-zero.
   */
  lemma HlGeometry(r: HlHydraulics, ship: string)
    ensures PipeD(HlToDatum(r), GetCfg(ship)) == 0.7
    ensures SuctionDepthHsPipe(HlToDatum(r)).Some? <==> r.bridgeDepth > 0.0
    ensures PumpDepthHsPump(HlToDatum(r), GetCfg(ship)).Some? <==> EffectiveEarDraft(HlToDatum(r)) != 0.0
    ensures PumpDepthHsPump(HlToDatum(r), GetCfg(ship)).Some? ==>
      PumpDepthHsPump(HlToDatum(r), GetCfg(ship)).value == EffectiveEarDraft(HlToDatum(r)) + 12.9 - 2.5
  {
  }
}
