/**
 * Hydraulic helpers behind the predicted suction vacuum: the per-ship
 * configuration, unit conversions, and the guards and defaults that decide
 * whether a vacuum is computed at all. Values are exact reals; a result the
 * program reports as NaN is None here.
 */
module SuctionVacuum {
  import opened Wrappers
  import opened Text

  datatype ShipHydraulicsConfig = ShipHydraulicsConfig(
    patmPa: real,
    g: real,
    pipeInnerDiameterM: real,
    suctionPipeLengthM: real,
    localEqLengthM: real,
    frictionFactorClearWater: real,
    useDensityRatio: bool,
    pumpAboveBottomM: real,
    defaultHsPumpM: real,
    flowRateUnit: string,
    densityUnit: string,
    vacuumOutUnit: string)

  /** The fields of a cutter-suction record that the vacuum estimate reads. */
  datatype DredgerDatum = DredgerDatum(
    shipName: string,
    waterDensity: real,
    density: real,
    fieldSlurryDensity: real,
    flowVelocity: real,
    flowRate: real,
    cutterDepth: real,
    earDraft: real,
    leftEarDraft: real,
    rightEarDraft: real,
    mudPipeDiameter: real,
    earToBottomDistance: real)

  const HualongName: string := "华安龙"
  const DefaultPatm: real := 101325.0
  const DefaultG: real := 9.80665
  const DefaultWaterDensity: real := 1000.0

  /** The configuration for a ship; both branches of the name test carry the same values. */
  function GetCfg(ship: string): (r: ShipHydraulicsConfig)
    ensures r.patmPa == DefaultPatm && r.g == DefaultG
    ensures r.pipeInnerDiameterM == 0.0 && r.suctionPipeLengthM == 77.36 && r.localEqLengthM == 0.0
    ensures r.useDensityRatio && r.pumpAboveBottomM == 2.5 && r.flowRateUnit == "m3/h" && r.densityUnit == ""
  {
    if Contains(ship, HualongName) then
      ShipHydraulicsConfig(DefaultPatm, DefaultG, 0.0, 77.36, 0.0, 0.0130, true, 2.5, 2.5, "m3/h", "", "kPa")
    else
      ShipHydraulicsConfig(DefaultPatm, DefaultG, 0.0, 77.36, 0.0, 0.0130, true, 2.5, 2.5, "m3/h", "", "kPa")
  }

  /** The ship name does not influence the configuration. */
  lemma GetCfgIgnoresShip(a: string, b: string)
    ensures GetCfg(a) == GetCfg(b)
  {
  }

  /**
   * Density in kg/m3: "kg/m3" is kept, "t/m3" and "g/cm3" scale by 1000,
   * and under any other unit a value strictly between 0 and 5 is read as a
   * relative density and scaled.
   */
  function DensityToKgM3(v: real, unit: string): (r: real)
    ensures r == v || r == 1000.0 * v
    ensures unit == "kg/m3" ==> r == v
    ensures unit == "t/m3" || unit == "g/cm3" ==> r == 1000.0 * v
    ensures unit != "kg/m3" && unit != "t/m3" && unit != "g/cm3" ==> (r != v <==> 0.0 < v < 5.0)
  {
    if unit == "kg/m3" then v
    else if unit == "t/m3" || unit == "g/cm3" then v * 1000.0
    else if v > 0.0 && v < 5.0 then v * 1000.0
    else v
  }

  /** The conversion keeps the sign: a density is positive after conversion iff before. */
  lemma DensitySignKept(v: real, unit: string)
    ensures DensityToKgM3(v, unit) > 0.0 <==> v > 0.0
  {
  }

  /** With no unit, the conversion is not monotone: 4.9 becomes 4900 while 6 stays 6. */
  lemma DensityAutodetectNotMonotone()
    ensures DensityToKgM3(4.9, "") > DensityToKgM3(6.0, "")
  {
  }

  /** Flow in m3/s: "m3/h" divides by 3600, any other unit is taken as m3/s already. */
  function FlowRateToM3s(v: real, unit: string): (r: real)
    ensures unit == "m3/h" ==> r * 3600.0 == v
    ensures unit != "m3/h" ==> r == v
  {
    if unit == "m3/h" then v / 3600.0 else v
  }

  /**
   * Pipe diameter in m: the configured one when positive, else the
   * record's, read as millimetres when above 5.
   */
  function PipeD(r: DredgerDatum, cfg: ShipHydraulicsConfig): (d: real)
    ensures cfg.pipeInnerDiameterM > 0.0 ==> d == cfg.pipeInnerDiameterM
    ensures cfg.pipeInnerDiameterM <= 0.0 ==> (d > 0.0 <==> r.mudPipeDiameter > 0.0)
    ensures cfg.pipeInnerDiameterM <= 0.0 && r.mudPipeDiameter > 5.0 ==> d * 1000.0 == r.mudPipeDiameter
    ensures cfg.pipeInnerDiameterM <= 0.0 && r.mudPipeDiameter <= 5.0 ==> d == r.mudPipeDiameter
  {
    if cfg.pipeInnerDiameterM > 0.0 then cfg.pipeInnerDiameterM
    else if r.mudPipeDiameter > 5.0 then r.mudPipeDiameter / 1000.0
    else r.mudPipeDiameter
  }

  /** The float64 value of math.Pi. */
  const Pi: real := 3.141592653589793

  /**
   * Flow velocity: the measured one when positive, else flow over the
   * pipe's cross-section; undefined without a positive diameter and flow.
   */
  function FlowVelocityVs(r: DredgerDatum, cfg: ShipHydraulicsConfig, d: real): (v: Option<real>)
    ensures v.Some? ==> r.flowVelocity > 0.0 || (d > 0.0 && r.flowRate > 0.0)
    ensures r.flowVelocity > 0.0 ==> v == Some(r.flowVelocity)
  {
    if r.flowVelocity > 0.0 then Some(r.flowVelocity)
    else if d <= 0.0 || r.flowRate <= 0.0 then None
    else
      var area := Pi * d * d / 4.0;
      var q := FlowRateToM3s(r.flowRate, cfg.flowRateUnit);
      if q <= 0.0 || area <= 0.0 then None else Some(q / area)
  }

  /** Suction-mouth depth: the cutter depth when positive, else undefined. */
  function SuctionDepthHsPipe(r: DredgerDatum): (h: Option<real>)
    ensures h.Some? <==> r.cutterDepth > 0.0
    ensures h.Some? ==> h.value == r.cutterDepth
  {
    if r.cutterDepth > 0.0 then Some(r.cutterDepth) else None
  }

  /** The ear draft used for the pump depth: the mean of left and right replaces a zero, when both are positive. */
  function EffectiveEarDraft(r: DredgerDatum): (ear: real)
    ensures r.earDraft != 0.0 ==> ear == r.earDraft
    ensures r.earDraft == 0.0 && r.leftEarDraft > 0.0 && r.rightEarDraft > 0.0 ==>
      ear == (r.leftEarDraft + r.rightEarDraft) / 2.0 && ear > 0.0
    ensures ear == 0.0 <==> r.earDraft == 0.0 && !(r.leftEarDraft > 0.0 && r.rightEarDraft > 0.0)
  {
    if r.earDraft == 0.0 && r.leftEarDraft > 0.0 && r.rightEarDraft > 0.0 then
      (r.leftEarDraft + r.rightEarDraft) / 2.0
    else r.earDraft
  }

  /**
   * Pump depth below the water line: ear draft plus ear-to-bottom distance
   * minus the pump's height above the bottom; undefined when the ear draft
   * or the distance is zero or the pump height is not positive.
   */
  function PumpDepthHsPump(r: DredgerDatum, cfg: ShipHydraulicsConfig): (h: Option<real>)
    ensures h.Some? <==>
      EffectiveEarDraft(r) != 0.0 && r.earToBottomDistance != 0.0 && cfg.pumpAboveBottomM > 0.0
    ensures h.Some? ==> h.value + cfg.pumpAboveBottomM == EffectiveEarDraft(r) + r.earToBottomDistance
  {
    var ear := EffectiveEarDraft(r);
    if ear == 0.0 || r.earToBottomDistance == 0.0 || cfg.pumpAboveBottomM <= 0.0 then None
    else Some(ear + r.earToBottomDistance - cfg.pumpAboveBottomM)
  }

  /** Friction factor of the slurry: the clear-water one, scaled by rhoM/rhoW when enabled and rhoW > 0. */
  function FrictionFactorMud(cfg: ShipHydraulicsConfig, rhoW: real, rhoM: real): (f: real)
    ensures cfg.useDensityRatio && rhoW > 0.0 ==> f * rhoW == cfg.frictionFactorClearWater * rhoM
    ensures !(cfg.useDensityRatio && rhoW > 0.0) ==> f == cfg.frictionFactorClearWater
  {
    if cfg.useDensityRatio && rhoW > 0.0 then cfg.frictionFactorClearWater * (rhoM / rhoW)
    else cfg.frictionFactorClearWater
  }

  /** The defaulted quantities the vacuum formula is evaluated on. */
  datatype VacuumInputs = VacuumInputs(
    g: real, patm: real, rhoW: real, rhoM: real, d: real, l: real,
    hsPipe: real, hsPump: real, vs: real, fMud: real)

  /** Slurry density: Density when positive, else the field slurry density, converted to kg/m3. */
  function SlurryDensity(r: DredgerDatum, cfg: ShipHydraulicsConfig): real
  {
    DensityToKgM3(if r.density <= 0.0 then r.fieldSlurryDensity else r.density, cfg.densityUnit)
  }

  /**
   * The guards and defaults of calcVacuumKPa: g and Patm default when zero,
   * the water density when not positive after conversion; None (a vacuum
   * of 0) when the slurry density is not positive, the diameter or length
   * is not positive, or a depth or the velocity is undefined.
   */
  function GuardedInputs(r: DredgerDatum, cfg: ShipHydraulicsConfig): (v: Option<VacuumInputs>)
    ensures v.None? <==>
      || SlurryDensity(r, cfg) <= 0.0
      || PipeD(r, cfg) <= 0.0
      || cfg.suctionPipeLengthM + cfg.localEqLengthM <= 0.0
      || SuctionDepthHsPipe(r).None? || PumpDepthHsPump(r, cfg).None?
      || FlowVelocityVs(r, cfg, PipeD(r, cfg)).None?
    ensures v.Some? ==>
      && v.value.g == (if cfg.g == 0.0 then DefaultG else cfg.g) && v.value.g != 0.0
      && v.value.patm == (if cfg.patmPa == 0.0 then DefaultPatm else cfg.patmPa) && v.value.patm != 0.0
      && v.value.rhoW > 0.0 && v.value.rhoM > 0.0 && v.value.d > 0.0 && v.value.l > 0.0
      && v.value.hsPipe == r.cutterDepth > 0.0
    ensures v.Some? ==>
      && v.value.rhoW == (if DensityToKgM3(r.waterDensity, cfg.densityUnit) <= 0.0 then DefaultWaterDensity
                          else DensityToKgM3(r.waterDensity, cfg.densityUnit))
      && v.value.rhoM == SlurryDensity(r, cfg)
      && v.value.d == PipeD(r, cfg)
      && v.value.l == cfg.suctionPipeLengthM + cfg.localEqLengthM
      && v.value.hsPump == PumpDepthHsPump(r, cfg).value
      && v.value.vs == FlowVelocityVs(r, cfg, PipeD(r, cfg)).value
      && v.value.fMud == FrictionFactorMud(cfg, v.value.rhoW, v.value.rhoM)
  {
    var g := if cfg.g == 0.0 then DefaultG else cfg.g;
    var patm := if cfg.patmPa == 0.0 then DefaultPatm else cfg.patmPa;
    var rhoW0 := DensityToKgM3(r.waterDensity, cfg.densityUnit);
    var rhoW := if rhoW0 <= 0.0 then DefaultWaterDensity else rhoW0;
    var rhoM := SlurryDensity(r, cfg);
    if rhoM <= 0.0 then None
    else
      var d := PipeD(r, cfg);
      var l := cfg.suctionPipeLengthM + cfg.localEqLengthM;
      var hsPipe := SuctionDepthHsPipe(r);
      var hsPump := PumpDepthHsPump(r, cfg);
      var vs := FlowVelocityVs(r, cfg, d);
      if d <= 0.0 || l <= 0.0 || hsPipe.None? || hsPump.None? || vs.None? then None
      else
        Some(VacuumInputs(g, patm, rhoW, rhoM, d, l, hsPipe.value, hsPump.value, vs.value,
                          FrictionFactorMud(cfg, rhoW, rhoM)))
  }

  /** The vacuum in kPa over exact reals: 0 when a guard fails, else the pressure formula. */
  function CalcVacuumKPa(r: DredgerDatum, cfg: ShipHydraulicsConfig): real
  {
    match GuardedInputs(r, cfg)
    case None => 0.0
    case Some(v) =>
      var staticPipe := v.rhoW * v.g * v.hsPipe;
      var staticLevel := v.rhoM * v.g * (v.hsPipe - v.hsPump);
      var friction := v.rhoM * v.fMud * (v.l / v.d) * (v.vs * v.vs / 2.0);
      var kinetic := v.rhoM * (v.vs * v.vs / 2.0);
      -(v.patm + staticPipe - staticLevel - friction - kinetic) / 1000.0
  }

  /** A record with no usable density yields a vacuum of 0, whatever its other fields. */
  lemma NoDensityNoVacuum(r: DredgerDatum, cfg: ShipHydraulicsConfig)
    requires r.density <= 0.0 && r.fieldSlurryDensity <= 0.0
    ensures CalcVacuumKPa(r, cfg) == 0.0
  {
    DensitySignKept(r.fieldSlurryDensity, cfg.densityUnit);
  }
}
