/**
 * The analog-channel table of the telemetry decoder: which protocol index
 * fills which field of the Hualong record, and how the 32-bit analog value
 * is converted (widened to float64, or truncated to int32).
 */
module ChannelMap {
  import opened Wrappers

  /** First and last protocol index the decoder reads; offsets are index - BaseIndex. */
  const BaseIndex: int := 327
  const LastIndex: int := 475

  /** The fields of the Hualong record that the decoder fills, named as in the record. */
  datatype FieldName =
    LeftEarDraft
    | UnderwaterPumpSuctionSealPressure
    | UnderwaterPumpShaftSealPressure
    | MudPump1ShaftSealPressure
    | MudPump1SuctionSealPressure
    | MudPump2SuctionSealPressure
    | MudPump2ShaftSealPressure
    | RightEarDraft
    | LeftAnchorRodAngle
    | RightAnchorRodAngle
    | MudPump1Speed
    | MudPump2Speed
    | UnderwaterPumpSpeed
    | FlowVelocity
    | Density
    | UnderwaterPumpMotorCurrent
    | UnderwaterPumpMotorVoltage
    | UnderwaterPumpTorque
    | UnderwaterPumpMotorSpeed
    | MudPump2DieselLoad
    | MudPump2DieselSpeed
    | MudPump1DieselLoad
    | MudPump1DieselSpeed
    | HydraulicPumpDieselLoad
    | HydraulicPumpDieselSpeed
    | GateValveFlushPressure
    | CutterBearingFlushPressure
    | TrolleyHydraulicCylinderPressure
    | SteelPileHydraulicCylinderPressure
    | GateValveSystemPressure
    | RightTransversePressure
    | LeftTransversePressure
    | TrolleyTravel
    | LeftTransverseSpeed
    | RightTransverseSpeed
    | CutterSpeed
    | MudPump1DischargePressure
    | MudPump2DischargePressure
    | UnderwaterPumpDischargePressure
    | UnderwaterPumpSuctionVacuum
    | BridgeAngle
    | CompassAngle
    | Gps1X
    | Gps1Y
    | Gps1Heading
    | Gps1Speed
    | TideLevel
    | WaterDensity
    | FieldSlurryDensity
    | TrimAngle
    | PitchAngle
    | CompassRadian
    | Gps1Latitude
    | Gps1Longitude
    | EarDraft
    | TransverseSpeed
    | HourlyOutputRate
    | RotationRadius
    | CutterX
    | CutterY
    | CurrentShiftOutput
    | CurrentShiftOutputRate
    | OutletFlowVelocity
    | LeftTransverseTorque
    | CutterTorque
    | Concentration
    | FlowRate
    | RightTransverseTorque
    | LeftAnchorWinchSpeed
    | LeftAnchorWinchTorque
    | RightAnchorWinchSpeed
    | RightAnchorWinchTorque
    | LeftSwingWinchSpeed
    | LeftSwingWinchTorque
    | RightSwingWinchSpeed
    | RightSwingWinchTorque
    | BridgeWinchSpeed
    | BridgeWinchTorque
    | BridgeDepth
    | TransverseDirection
    | CutterCuttingAngle
    | UnderwaterPumpPower
    | MudPump1Power
    | MudPump2Power
    | UnderwaterPumpShaftPower
    | MudPump1ShaftPower
    | MudPump2ShaftPower
    | UnderwaterPumpEfficiency
    | MudPump1Efficiency
    | MudPump2Efficiency
    | PipelineAverageConcentration
    | PipelineTotalDamping
    | DensityForecast
    | CuttingThickness
    | ShipDirection
    | Gps1SignalQuality
    | Gps2SignalQuality
    | DeckPump1CoverSealPressure
    | DeckPump2CoverSealPressure
    | DeckPump1ShaftSealPressure
    | DeckPump2ShaftSealPressure
    | CutterDriveGateValveFlushPressure
    | CutterBearingFlushPressureJkt
    | UnderwaterPumpCoverSealPressure
    | UnderwaterPumpShaftSealPressureJkt
    | DeckPump1GearboxOilTemperature
    | DeckPump1GearboxOilPressure
    | DeckPump2GearboxOilTemperature
    | DeckPump2GearboxOilPressure
    | CutterDriveGearboxOilTemperature
    | CutterDriveGearboxOilPressure
    | CutterDriveGearboxOilSaturation
    | UnderwaterPumpGearboxOilTemperature
    | UnderwaterPumpGearboxOilPressure
    | UnderwaterPumpGearboxOilSaturation
    | FuelTank40Level
    | MerFuelDailyTankLevel
    | FuelTank3Level
    | LubricatingOilTank5Level
    | HydraulicOilTank7Level
    | AuxiliaryFuelDailyTankLevel
    | FuelTank13Level
    | FuelTank3ALevel
    | FuelTank4Level
    | SewageTank6Level
    | FreshwaterTank8Level
    | DirtyOilTank11Level
    | FuelTank12Level
    | FreshwaterTank26Level
    | FuelTank4ALevel

  /** Conversion applied to the analog value: float64(v) or int32(v). */
  datatype Kind = Float64 | Int32

  /** Only TransverseDirection is an int32 field; every other one is float64. */
  function KindOf(f: FieldName): Kind
  {
    if f == TransverseDirection then Int32 else Float64
  }

  /** Protocol indices inside [BaseIndex, LastIndex] that no field takes. */
  const UnreadIndices: set<int> :=
    {383, 425, 426, 446, 447, 448, 449, 450, 451, 452,
     454, 455, 456, 457, 458, 459, 460, 467, 468}

  /**
   * The field filled from protocol index p, if any: exactly the indices of
   * [BaseIndex, LastIndex] outside UnreadIndices are read.
   */
  function FieldFor(p: int): (r: Option<FieldName>)
    ensures r.Some? <==> BaseIndex <= p <= LastIndex && p !in UnreadIndices
  {
    match p
    case 327 => Some(LeftEarDraft)
    case 328 => Some(UnderwaterPumpSuctionSealPressure)
    case 329 => Some(UnderwaterPumpShaftSealPressure)
    case 330 => Some(MudPump1ShaftSealPressure)
    case 331 => Some(MudPump1SuctionSealPressure)
    case 332 => Some(MudPump2SuctionSealPressure)
    case 333 => Some(MudPump2ShaftSealPressure)
    case 334 => Some(RightEarDraft)
    case 335 => Some(LeftAnchorRodAngle)
    case 336 => Some(RightAnchorRodAngle)
    case 337 => Some(MudPump1Speed)
    case 338 => Some(MudPump2Speed)
    case 339 => Some(UnderwaterPumpSpeed)
    case 340 => Some(FlowVelocity)
    case 341 => Some(Density)
    case 342 => Some(UnderwaterPumpMotorCurrent)
    case 343 => Some(UnderwaterPumpMotorVoltage)
    case 344 => Some(UnderwaterPumpTorque)
    case 345 => Some(UnderwaterPumpMotorSpeed)
    case 346 => Some(MudPump2DieselLoad)
    case 347 => Some(MudPump2DieselSpeed)
    case 348 => Some(MudPump1DieselLoad)
    case 349 => Some(MudPump1DieselSpeed)
    case 350 => Some(HydraulicPumpDieselLoad)
    case 351 => Some(HydraulicPumpDieselSpeed)
    case 352 => Some(GateValveFlushPressure)
    case 353 => Some(CutterBearingFlushPressure)
    case 354 => Some(TrolleyHydraulicCylinderPressure)
    case 355 => Some(SteelPileHydraulicCylinderPressure)
    case 356 => Some(GateValveSystemPressure)
    case 357 => Some(RightTransversePressure)
    case 358 => Some(LeftTransversePressure)
    case 359 => Some(TrolleyTravel)
    case 360 => Some(LeftTransverseSpeed)
    case 361 => Some(RightTransverseSpeed)
    case 362 => Some(CutterSpeed)
    case 363 => Some(MudPump1DischargePressure)
    case 364 => Some(MudPump2DischargePressure)
    case 365 => Some(UnderwaterPumpDischargePressure)
    case 366 => Some(UnderwaterPumpSuctionVacuum)
    case 367 => Some(BridgeAngle)
    case 368 => Some(CompassAngle)
    case 369 => Some(Gps1X)
    case 370 => Some(Gps1Y)
    case 371 => Some(Gps1Heading)
    case 372 => Some(Gps1Speed)
    case 373 => Some(TideLevel)
    case 374 => Some(WaterDensity)
    case 375 => Some(FieldSlurryDensity)
    case 376 => Some(TrimAngle)
    case 377 => Some(PitchAngle)
    case 378 => Some(CompassRadian)
    case 379 => Some(Gps1Latitude)
    case 380 => Some(Gps1Longitude)
    case 381 => Some(EarDraft)
    case 382 => Some(TransverseSpeed)
    case 384 => Some(HourlyOutputRate)
    case 385 => Some(RotationRadius)
    case 386 => Some(CutterX)
    case 387 => Some(CutterY)
    case 388 => Some(CurrentShiftOutput)
    case 389 => Some(CurrentShiftOutputRate)
    case 390 => Some(OutletFlowVelocity)
    case 391 => Some(LeftTransverseTorque)
    case 392 => Some(CutterTorque)
    case 393 => Some(Concentration)
    case 394 => Some(FlowRate)
    case 395 => Some(RightTransverseTorque)
    case 396 => Some(LeftAnchorWinchSpeed)
    case 397 => Some(LeftAnchorWinchTorque)
    case 398 => Some(RightAnchorWinchSpeed)
    case 399 => Some(RightAnchorWinchTorque)
    case 400 => Some(LeftSwingWinchSpeed)
    case 401 => Some(LeftSwingWinchTorque)
    case 402 => Some(RightSwingWinchSpeed)
    case 403 => Some(RightSwingWinchTorque)
    case 404 => Some(BridgeWinchSpeed)
    case 405 => Some(BridgeWinchTorque)
    case 406 => Some(BridgeDepth)
    case 407 => Some(TransverseDirection)
    case 408 => Some(CutterCuttingAngle)
    case 409 => Some(UnderwaterPumpPower)
    case 410 => Some(MudPump1Power)
    case 411 => Some(MudPump2Power)
    case 412 => Some(UnderwaterPumpShaftPower)
    case 413 => Some(MudPump1ShaftPower)
    case 414 => Some(MudPump2ShaftPower)
    case 415 => Some(UnderwaterPumpEfficiency)
    case 416 => Some(MudPump1Efficiency)
    case 417 => Some(MudPump2Efficiency)
    case 418 => Some(PipelineAverageConcentration)
    case 419 => Some(PipelineTotalDamping)
    case 420 => Some(DensityForecast)
    case 421 => Some(CuttingThickness)
    case 422 => Some(ShipDirection)
    case 423 => Some(Gps1SignalQuality)
    case 424 => Some(Gps2SignalQuality)
    case 427 => Some(DeckPump1CoverSealPressure)
    case 428 => Some(DeckPump2CoverSealPressure)
    case 429 => Some(DeckPump1ShaftSealPressure)
    case 430 => Some(DeckPump2ShaftSealPressure)
    case 431 => Some(CutterDriveGateValveFlushPressure)
    case 432 => Some(CutterBearingFlushPressureJkt)
    case 433 => Some(UnderwaterPumpCoverSealPressure)
    case 434 => Some(UnderwaterPumpShaftSealPressureJkt)
    case 435 => Some(DeckPump1GearboxOilTemperature)
    case 436 => Some(DeckPump1GearboxOilPressure)
    case 437 => Some(DeckPump2GearboxOilTemperature)
    case 438 => Some(DeckPump2GearboxOilPressure)
    case 439 => Some(CutterDriveGearboxOilTemperature)
    case 440 => Some(CutterDriveGearboxOilPressure)
    case 441 => Some(CutterDriveGearboxOilSaturation)
    case 442 => Some(UnderwaterPumpGearboxOilTemperature)
    case 443 => Some(UnderwaterPumpGearboxOilPressure)
    case 444 => Some(UnderwaterPumpGearboxOilSaturation)
    case 445 => Some(FuelTank40Level)
    case 453 => Some(MerFuelDailyTankLevel)
    case 461 => Some(FuelTank3Level)
    case 462 => Some(LubricatingOilTank5Level)
    case 463 => Some(HydraulicOilTank7Level)
    case 464 => Some(AuxiliaryFuelDailyTankLevel)
    case 465 => Some(FuelTank13Level)
    case 466 => Some(FuelTank3ALevel)
    case 469 => Some(FuelTank4Level)
    case 470 => Some(SewageTank6Level)
    case 471 => Some(FreshwaterTank8Level)
    case 472 => Some(DirtyOilTank11Level)
    case 473 => Some(FuelTank12Level)
    case 474 => Some(FreshwaterTank26Level)
    case 475 => Some(FuelTank4ALevel)
    case _ => None
  }

  /** Index 388 (previous-shift production on the wire) is stored as CurrentShiftOutput. */
  lemma PreviousShiftGoesToCurrentShiftOutput()
    ensures FieldFor(388) == Some(CurrentShiftOutput)
  {
  }

  /** Index 407 fills TransverseDirection, the one field converted with int32 truncation. */
  lemma TransverseDirectionIsTruncated()
    ensures FieldFor(407) == Some(TransverseDirection) && KindOf(TransverseDirection) == Int32
    ensures forall f :: f != TransverseDirection ==> KindOf(f) == Float64
  {
  }
}
