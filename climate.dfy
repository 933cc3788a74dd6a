/** The climate entity (custom_components/coolmaster_ng/climate.py): the
    tables between the gateway's enumerations and Home Assistant's, the
    entity's derived properties, and the device calls its setters issue. */
module Climate {
  import opened Common
  import opened Models

  /** Home Assistant's `HVACMode`. */
  datatype HvacMode = Off | Heat | Cool | HeatCool | Auto | Dry | FanOnly

  /** Home Assistant's `HVACAction`. */
  datatype HvacAction = Off | Heating | Cooling | Drying | Idle | Fan

  /** The members of Home Assistant's `ClimateEntityFeature` flag set used here. */
  datatype Feature = TargetTemperatureFlag | FanModeFlag | SwingModeFlag

  datatype TemperatureUnit = Celsius | Fahrenheit

  // ---------------------------------------------------------------------------
  // Mapping tables

  const CmToHaState: map<Mode, HvacMode> := map[
    Mode.Heat := HvacMode.Heat,
    Mode.Cool := HvacMode.Cool,
    Mode.Auto := HvacMode.HeatCool,
    Mode.Dry := HvacMode.Dry,
    Mode.Fan := HvacMode.FanOnly]

  const HaStateToCm: map<HvacMode, Mode> := map[
    HvacMode.Heat := Mode.Heat,
    HvacMode.Cool := Mode.Cool,
    HvacMode.HeatCool := Mode.Auto,
    HvacMode.Dry := Mode.Dry,
    HvacMode.FanOnly := Mode.Fan]

  const FanDiffuse := "diffuse"
  const FanLow := "low"
  const FanMedium := "medium"
  const FanHigh := "high"
  const FanTop := "top"
  const FanAuto := "auto"

  const CmToHaFanMode: map<FanMode, string> := map[
    FanMode.VeryLow := FanDiffuse,
    FanMode.Low := FanLow,
    FanMode.Medium := FanMedium,
    FanMode.High := FanHigh,
    FanMode.VeryHigh := FanTop,
    FanMode.Auto := FanAuto]

  const HaFanModeToCm: map<string, FanMode> := map[
    FanDiffuse := FanMode.VeryLow,
    FanLow := FanMode.Low,
    FanMedium := FanMode.Medium,
    FanHigh := FanMode.High,
    FanTop := FanMode.VeryHigh,
    FanAuto := FanMode.Auto]

  const SwingOn := "on"
  const SwingOff := "off"
  const SwingHorizontal := "horizontal"
  const SwingVertical := "vertical"
  const Swing30Degrees := "30-degrees"
  const Swing45Degrees := "45-degrees"
  const Swing60Degrees := "60-degrees"

  const CmToHaSwingState: map<LouverPositionState, string> := map[
    LouverPositionState.Swing := SwingOn,
    LouverPositionState.StopSwing := SwingOff,
    LouverPositionState.Horizontal := SwingHorizontal,
    LouverPositionState.Vertical := SwingVertical,
    LouverPositionState.ThirtyDegrees := Swing30Degrees,
    LouverPositionState.FortyFiveDegrees := Swing45Degrees,
    LouverPositionState.SixtyDegrees := Swing60Degrees]

  /** The keys of `CM_TO_HA_SWING_STATE` in the order the table lists them. */
  const SwingStateOrder: seq<LouverPositionState> := [
    LouverPositionState.Swing, LouverPositionState.StopSwing, LouverPositionState.Horizontal,
    LouverPositionState.Vertical, LouverPositionState.ThirtyDegrees,
    LouverPositionState.FortyFiveDegrees, LouverPositionState.SixtyDegrees]

  /** `list(CM_TO_HA_SWING_STATE.values())`, in the table's order. */
  const SwingModeList: seq<string> :=
    [SwingOn, SwingOff, SwingHorizontal, SwingVertical, Swing30Degrees, Swing45Degrees, Swing60Degrees]

  const HaSwingModeToCm: map<string, LouverPosition> := map[
    SwingOn := LouverPosition.Swing,
    SwingOff := LouverPosition.StopSwing,
    SwingHorizontal := LouverPosition.Horizontal,
    SwingVertical := LouverPosition.Vertical,
    Swing30Degrees := LouverPosition.ThirtyDegrees,
    Swing45Degrees := LouverPosition.FortyFiveDegrees,
    Swing60Degrees := LouverPosition.SixtyDegrees]

  /** The reverse mode table undoes the forward one, the five Home Assistant
      modes it produces are distinct, and none of them is OFF. */
  lemma ModeTablesInverse()
    ensures InverseOf(HaStateToCm, CmToHaState)
    ensures Injective(CmToHaState)
    ensures |CmToHaState| == 5
    ensures HvacMode.Off !in CmToHaState.Values && HvacMode.Auto !in CmToHaState.Values
  {
    assert CmToHaState.Keys == {Mode.Heat, Mode.Cool, Mode.Auto, Mode.Dry, Mode.Fan};
    assert HaStateToCm.Keys == {HvacMode.Heat, HvacMode.Cool, HvacMode.HeatCool, HvacMode.Dry, HvacMode.FanOnly};
    forall v | v in CmToHaState.Values
      ensures v in HaStateToCm.Keys && v != HvacMode.Off && v != HvacMode.Auto
    {
      var k :| k in CmToHaState && CmToHaState[k] == v;
    }
    forall v | v in HaStateToCm.Keys
      ensures v in CmToHaState.Values
    {
      assert HaStateToCm[v] in CmToHaState && CmToHaState[HaStateToCm[v]] == v;
    }
  }

  /** The reverse fan table undoes the forward one for all six speeds. */
  lemma FanTablesInverse()
    ensures InverseOf(HaFanModeToCm, CmToHaFanMode)
    ensures Injective(CmToHaFanMode)
    ensures |CmToHaFanMode| == 6
  {
    assert CmToHaFanMode.Values == {FanDiffuse, FanLow, FanMedium, FanHigh, FanTop, FanAuto} by {
      assert CmToHaFanMode[FanMode.VeryLow] == FanDiffuse && CmToHaFanMode[FanMode.Low] == FanLow;
      assert CmToHaFanMode[FanMode.Medium] == FanMedium && CmToHaFanMode[FanMode.High] == FanHigh;
      assert CmToHaFanMode[FanMode.VeryHigh] == FanTop && CmToHaFanMode[FanMode.Auto] == FanAuto;
    }
  }

  /** Every advertised swing mode is a key of the reverse table, and
      commanding it makes the device report that same swing mode. */
  lemma SwingTablesAgree()
    ensures forall i :: 0 <= i < |SwingModeList| ==> SwingModeList[i] in CmToHaSwingState.Values
    ensures forall s :: s in CmToHaSwingState.Values ==> s in SwingModeList
    ensures forall s :: s in SwingModeList ==>
      s in HaSwingModeToCm && PositionState(HaSwingModeToCm[s]) in CmToHaSwingState
      && CmToHaSwingState[PositionState(HaSwingModeToCm[s])] == s
    ensures LouverPositionState.NotSupported !in CmToHaSwingState
  {
    assert CmToHaSwingState[LouverPositionState.Swing] == SwingOn;
    assert CmToHaSwingState[LouverPositionState.StopSwing] == SwingOff;
    assert CmToHaSwingState[LouverPositionState.Horizontal] == SwingHorizontal;
    assert CmToHaSwingState[LouverPositionState.Vertical] == SwingVertical;
    assert CmToHaSwingState[LouverPositionState.ThirtyDegrees] == Swing30Degrees;
    assert CmToHaSwingState[LouverPositionState.FortyFiveDegrees] == Swing45Degrees;
    assert CmToHaSwingState[LouverPositionState.SixtyDegrees] == Swing60Degrees;
  }

  /** The advertised list is the forward swing table's values in the
      table's order, one entry per key, each name once. */
  lemma SwingModeListOrder()
    ensures forall st :: st in CmToHaSwingState <==> st in SwingStateOrder
    ensures |SwingModeList| == |SwingStateOrder| == |CmToHaSwingState| == 7
    ensures forall i :: 0 <= i < |SwingStateOrder| ==>
      SwingStateOrder[i] in CmToHaSwingState && SwingModeList[i] == CmToHaSwingState[SwingStateOrder[i]]
    ensures forall i, j :: 0 <= i < j < |SwingModeList| ==> SwingModeList[i] != SwingModeList[j]
  {
    SwingStateKeys();
    forall i | 0 <= i < |SwingStateOrder|
      ensures SwingStateOrder[i] in CmToHaSwingState && SwingModeList[i] == CmToHaSwingState[SwingStateOrder[i]]
    {
      SwingEntry(i);
    }
    SwingNamesDistinct();
  }

  /** The keys of the forward swing table are the seven listed states. */
  lemma SwingStateKeys()
    ensures CmToHaSwingState.Keys == set st | st in SwingStateOrder
    ensures |CmToHaSwingState| == 7
  {
    assert CmToHaSwingState.Keys == {
      LouverPositionState.Swing, LouverPositionState.StopSwing, LouverPositionState.Horizontal,
      LouverPositionState.Vertical, LouverPositionState.ThirtyDegrees,
      LouverPositionState.FortyFiveDegrees, LouverPositionState.SixtyDegrees};
  }

  lemma SwingEntry(i: nat)
    requires i < |SwingStateOrder|
    ensures SwingStateOrder[i] in CmToHaSwingState && SwingModeList[i] == CmToHaSwingState[SwingStateOrder[i]]
  {
    if i == 0 {} else if i == 1 {} else if i == 2 {} else if i == 3 {}
    else if i == 4 {} else if i == 5 {} else {}
  }

  /** The seven swing names are pairwise different: the first two
      characters already tell them apart. */
  lemma SwingNamesDistinct()
    ensures forall i, j :: 0 <= i < j < |SwingModeList| ==> SwingModeList[i] != SwingModeList[j]
  {
    var heads := [['o', 'n'], ['o', 'f'], ['h', 'o'], ['v', 'e'], ['3', '0'], ['4', '5'], ['6', '0']];
    forall i | 0 <= i < |SwingModeList|
      ensures |SwingModeList[i]| >= 2 && SwingModeList[i][..2] == heads[i]
    {
    }
    forall i, j | 0 <= i < j < |SwingModeList|
      ensures SwingModeList[i] != SwingModeList[j]
    {
      assert heads[i] != heads[j];
    }
  }

  // ---------------------------------------------------------------------------
  // Derived properties of the entity

  /** `fan_modes`: the device's supported speeds that have a Home Assistant name, in order. */
  function FanModes(d: Device): (r: seq<string>)
    ensures forall s :: s in r ==> s in HaFanModeToCm
  {
    FanTablesInverse();
    Project(CmToHaFanMode, d.supportedFanSpeeds)
  }

  /** `supported_features`. */
  function SupportedFeatures(d: Device): (flags: set<Feature>)
    ensures TargetTemperatureFlag in flags
    ensures SwingModeFlag in flags <==> d.louverPosition != LouverPositionState.NotSupported
    ensures FanModeFlag in flags <==> FanModes(d) != []
  {
    {TargetTemperatureFlag}
    + (if d.louverPosition != LouverPositionState.NotSupported then {SwingModeFlag} else {})
    + (if FanModes(d) != [] then {FanModeFlag} else {})
  }

  /** `swing_modes`: every swing mode, or None when the louver is not supported. */
  function SwingModes(d: Device): (r: Option<seq<string>>)
    ensures r.None? <==> d.louverPosition == LouverPositionState.NotSupported
    ensures r.Some? ==> forall s :: s in r.value ==> s in HaSwingModeToCm
    ensures r.Some? ==> forall st :: st in CmToHaSwingState ==> CmToHaSwingState[st] in r.value
    ensures r.Some? ==> r.value == SwingModeList
  {
    SwingTablesAgree();
    SwingModeListOrder();
    if d.louverPosition != LouverPositionState.NotSupported then Some(SwingModeList) else None
  }

  /** `swing_mode`: the reported louver state's name, None for a state without one. */
  function SwingMode(d: Device): (r: Option<string>)
    ensures r.None? <==> d.louverPosition !in CmToHaSwingState
    ensures r.Some? ==> SwingModes(d).Some? && r.value in SwingModes(d).value
  {
    SwingTablesAgree();
    if d.louverPosition in CmToHaSwingState then Some(CmToHaSwingState[d.louverPosition]) else None
  }

  /** `max_temp`: the stop of a non-empty target range, else the framework default. */
  function MaxTemp(d: Device, frameworkDefault: real): (r: real)
    ensures d.targetTemperatureRange.Some? && d.targetTemperatureRange.value.NonEmpty()
      ==> r == d.targetTemperatureRange.value.stop as real
    ensures !(d.targetTemperatureRange.Some? && d.targetTemperatureRange.value.NonEmpty())
      ==> r == frameworkDefault
  {
    match d.targetTemperatureRange
    case Some(range) => if range.NonEmpty() then range.stop as real else frameworkDefault
    case None => frameworkDefault
  }

  /** `min_temp`: the start of a non-empty target range, else the framework default. */
  function MinTemp(d: Device, frameworkDefault: real): (r: real)
    ensures d.targetTemperatureRange.Some? && d.targetTemperatureRange.value.NonEmpty()
      ==> r == d.targetTemperatureRange.value.start as real
    ensures !(d.targetTemperatureRange.Some? && d.targetTemperatureRange.value.NonEmpty())
      ==> r == frameworkDefault
  {
    match d.targetTemperatureRange
    case Some(range) => if range.NonEmpty() then range.start as real else frameworkDefault
    case None => frameworkDefault
  }

  /** The advertised bounds are ordered whenever the framework's defaults are. */
  lemma TempBoundsOrdered(d: Device, defaultMin: real, defaultMax: real)
    requires defaultMin <= defaultMax
    ensures MinTemp(d, defaultMin) <= MaxTemp(d, defaultMax)
  {
  }

  /** `unique_id` of the climate entity. */
  function ClimateUniqueId(d: Device): string
  {
    d.uid + "-climate"
  }

  /** `name` of the climate entity: the friendly name, if any. */
  function ClimateName(d: Device): Option<string>
  {
    d.friendlyName
  }

  /** `device_info` of the climate entity. */
  function ClimateDeviceInfo(d: Device): (info: DeviceInfo)
    ensures info.identifiers == {(Domain, d.uid)}
    ensures info.manufacturer == d.brandName
    ensures info.name == ClimateName(d) && info.name == d.friendlyName
    ensures info.viaDevice == (Domain, d.gatewaySerial)
  {
    DeviceInfo({(Domain, d.uid)}, d.brandName, ClimateName(d), (Domain, d.gatewaySerial))
  }

  /** `temperature_unit`: a gateway-wide setting, "C" or anything else. */
  function Unit(d: Device): (u: TemperatureUnit)
    ensures u == Celsius <==> d.temperatureUnit == "C"
    ensures u == Fahrenheit <==> d.temperatureUnit != "C"
  {
    if d.temperatureUnit == "C" then Celsius else Fahrenheit
  }

  /** `hvac_mode`; a powered-on device in a mode the table lacks raises KeyError. */
  function HvacModeOf(d: Device): (r: Result<HvacMode>)
    ensures !d.powerState ==> r == Ok(HvacMode.Off)
    ensures d.powerState ==> (r.Ok? <==> d.mode in CmToHaState)
    ensures d.powerState && r.Ok? ==> r.value == CmToHaState[d.mode]
    ensures r.Ok? ==> (r.value == HvacMode.Off <==> !d.powerState)
    ensures r.Ok? ==> r.value != HvacMode.Auto
  {
    ModeTablesInverse();
    if !d.powerState then Ok(HvacMode.Off)
    else if d.mode in CmToHaState then Ok(CmToHaState[d.mode])
    else Err(KeyError)
  }

  /** `hvac_action`: combines the demand flag with a comparison of the
      current and target temperatures. */
  function HvacActionOf(d: Device): (r: Result<HvacAction>)
    ensures r.Ok? <==> HvacModeOf(d).Ok?
    ensures r.Err? ==> r.error == HvacModeOf(d).error && r.error == KeyError
  {
    match HvacModeOf(d)
    case Err(e) => Err(e)
    case Ok(mode) =>
      var noDemand := !d.demand;
      if mode == HvacMode.FanOnly then Ok(HvacAction.Fan)
      else if mode == HvacMode.Dry then Ok(HvacAction.Drying)
      else if mode == HvacMode.Heat then
        Ok(if noDemand && d.currentTemperature >= d.targetTemperature then HvacAction.Idle else HvacAction.Heating)
      else if mode == HvacMode.Cool then
        Ok(if noDemand && d.currentTemperature <= d.targetTemperature then HvacAction.Idle else HvacAction.Cooling)
      else if mode == HvacMode.HeatCool then
        if d.currentTemperature == d.targetTemperature then Ok(HvacAction.Idle)
        else if d.currentTemperature > d.targetTemperature then Ok(HvacAction.Cooling)
        else Ok(HvacAction.Heating)
      else Ok(HvacAction.Off)
  }

  /** The action in each mode: FAN in fan-only, DRYING in dry, OFF exactly
      when the unit is off; heating idles only without demand at or above
      target, cooling only without demand at or below target. */
  lemma HvacActionByMode(d: Device)
    requires !d.powerState || d.mode in CmToHaState
    ensures d.powerState && d.mode == Mode.Fan ==> HvacActionOf(d) == Ok(HvacAction.Fan)
    ensures d.powerState && d.mode == Mode.Dry ==> HvacActionOf(d) == Ok(HvacAction.Drying)
    ensures HvacActionOf(d) == Ok(HvacAction.Off) <==> !d.powerState
    ensures d.powerState && d.mode == Mode.Heat ==>
      (HvacActionOf(d) == Ok(HvacAction.Idle) <==> !d.demand && d.currentTemperature >= d.targetTemperature)
      && (HvacActionOf(d) != Ok(HvacAction.Idle) <==> HvacActionOf(d) == Ok(HvacAction.Heating))
    ensures d.powerState && d.mode == Mode.Cool ==>
      (HvacActionOf(d) == Ok(HvacAction.Idle) <==> !d.demand && d.currentTemperature <= d.targetTemperature)
      && (HvacActionOf(d) != Ok(HvacAction.Idle) <==> HvacActionOf(d) == Ok(HvacAction.Cooling))
  {
  }

  /** In HEAT_COOL the demand flag is ignored: the action follows the sign
      of current minus target. */
  lemma HvacActionHeatCool(d: Device, demand: bool)
    requires d.powerState && d.mode == Mode.Auto
    ensures HvacActionOf(d) == HvacActionOf(d.(demand := demand))
    ensures d.currentTemperature == d.targetTemperature ==> HvacActionOf(d) == Ok(HvacAction.Idle)
    ensures d.currentTemperature > d.targetTemperature ==> HvacActionOf(d) == Ok(HvacAction.Cooling)
    ensures d.currentTemperature < d.targetTemperature ==> HvacActionOf(d) == Ok(HvacAction.Heating)
  {
  }

  /** The action never works against the mode: heating only in HEAT or
      HEAT_COOL, cooling only in COOL or HEAT_COOL. */
  lemma HvacActionAgreesWithMode(d: Device)
    ensures HvacActionOf(d) == Ok(HvacAction.Heating) ==>
      HvacModeOf(d) == Ok(HvacMode.Heat) || HvacModeOf(d) == Ok(HvacMode.HeatCool)
    ensures HvacActionOf(d) == Ok(HvacAction.Cooling) ==>
      HvacModeOf(d) == Ok(HvacMode.Cool) || HvacModeOf(d) == Ok(HvacMode.HeatCool)
  {
  }

  /** `hvac_modes`: the supported modes that have a Home Assistant name, in
      the device's order, then OFF. */
  function HvacModes(d: Device): seq<HvacMode>
  {
    Project(CmToHaState, d.supportedModes) + [HvacMode.Off]
  }

  /** `hvac_modes` ends with exactly one OFF, everything before it is a mapped
      mode, a mode is offered exactly when some supported mode maps to it,
      and when every supported mode is mapped the i-th offer is the name of
      the i-th supported mode. */
  lemma HvacModesShape(d: Device)
    ensures |HvacModes(d)| >= 1 && HvacModes(d)[|HvacModes(d)| - 1] == HvacMode.Off
    ensures (forall i :: 0 <= i < |d.supportedModes| ==> d.supportedModes[i] in CmToHaState) ==>
      |HvacModes(d)| == |d.supportedModes| + 1
      && forall i :: 0 <= i < |d.supportedModes| ==> HvacModes(d)[i] == CmToHaState[d.supportedModes[i]]
    ensures Count(HvacModes(d), HvacMode.Off) == 1
    ensures forall i :: 0 <= i < |HvacModes(d)| - 1 ==> HvacModes(d)[i] in HaStateToCm
    ensures forall h :: h != HvacMode.Off ==>
      (h in HvacModes(d) <==>
        exists i :: 0 <= i < |d.supportedModes| && d.supportedModes[i] in CmToHaState
          && CmToHaState[d.supportedModes[i]] == h)
  {
    ModeTablesInverse();
    var mapped := Project(CmToHaState, d.supportedModes);
    assert HvacModes(d) == mapped + [HvacMode.Off];
    CountAbsent(mapped, HvacMode.Off);
    CountAppend(mapped, [HvacMode.Off], HvacMode.Off);
    assert Count([HvacMode.Off], HvacMode.Off) == 1;
    forall i | 0 <= i < |HvacModes(d)| - 1
      ensures HvacModes(d)[i] in HaStateToCm
    {
      assert HvacModes(d)[i] == mapped[i] && mapped[i] in mapped;
    }
    forall h | h != HvacMode.Off
      ensures h in HvacModes(d) <==>
        exists i :: 0 <= i < |d.supportedModes| && d.supportedModes[i] in CmToHaState
          && CmToHaState[d.supportedModes[i]] == h
    {
      ProjectMembership(CmToHaState, d.supportedModes, h);
    }
    if forall i :: 0 <= i < |d.supportedModes| ==> d.supportedModes[i] in CmToHaState {
      ProjectTotal(CmToHaState, d.supportedModes);
    }
  }

  /** Removing a supported mode that has no Home Assistant name leaves
      `hvac_modes` unchanged; with `HvacModesShape` this fixes the order. */
  lemma HvacModesSkipUnmapped(d: Device, k: nat)
    requires k < |d.supportedModes| && d.supportedModes[k] !in CmToHaState
    ensures HvacModes(d) == HvacModes(d.(supportedModes := d.supportedModes[..k] + d.supportedModes[k + 1..]))
  {
    var xs := d.supportedModes;
    var before, after := xs[..k], xs[k + 1..];
    assert xs == before + ([xs[k]] + after);
    ProjectAppend(CmToHaState, before, [xs[k]] + after);
    ProjectAppend(CmToHaState, [xs[k]], after);
    ProjectAppend(CmToHaState, before, after);
    assert Project(CmToHaState, [xs[k]]) == [];
  }

  /** The mode the device reports is offered among `hvac_modes` whenever it
      is one of the device's supported modes. */
  lemma CurrentModeOffered(d: Device)
    requires d.mode in d.supportedModes
    requires HvacModeOf(d).Ok?
    ensures HvacModeOf(d).value in HvacModes(d)
  {
    HvacModesShape(d);
    if d.powerState {
      var i :| 0 <= i < |d.supportedModes| && d.supportedModes[i] == d.mode;
      assert d.supportedModes[i] in CmToHaState && CmToHaState[d.supportedModes[i]] == HvacModeOf(d).value;
    } else {
      assert HvacModes(d)[|HvacModes(d)| - 1] == HvacMode.Off;
    }
  }

  /** `fan_modes` offers exactly the names of the supported speeds the
      table maps, in the order the device lists them: a speed without a
      name is skipped and changes nothing, and when every speed has a name
      the i-th offer is the name of the i-th speed. */
  lemma FanModesShape(d: Device)
    ensures forall s :: s in FanModes(d) <==>
      exists i :: 0 <= i < |d.supportedFanSpeeds| && d.supportedFanSpeeds[i] in CmToHaFanMode
        && CmToHaFanMode[d.supportedFanSpeeds[i]] == s
    ensures (forall i :: 0 <= i < |d.supportedFanSpeeds| ==> d.supportedFanSpeeds[i] in CmToHaFanMode) ==>
      |FanModes(d)| == |d.supportedFanSpeeds|
      && forall i :: 0 <= i < |d.supportedFanSpeeds| ==>
           FanModes(d)[i] == CmToHaFanMode[d.supportedFanSpeeds[i]]
  {
    forall s
      ensures s in FanModes(d) <==>
        exists i :: 0 <= i < |d.supportedFanSpeeds| && d.supportedFanSpeeds[i] in CmToHaFanMode
          && CmToHaFanMode[d.supportedFanSpeeds[i]] == s
    {
      ProjectMembership(CmToHaFanMode, d.supportedFanSpeeds, s);
    }
    if forall i :: 0 <= i < |d.supportedFanSpeeds| ==> d.supportedFanSpeeds[i] in CmToHaFanMode {
      ProjectTotal(CmToHaFanMode, d.supportedFanSpeeds);
    }
  }

  /** Removing a speed that has no name leaves `fan_modes` unchanged;
      together with `FanModesShape` this fixes the order of the offers. */
  lemma FanModesSkipUnmapped(d: Device, k: nat)
    requires k < |d.supportedFanSpeeds| && d.supportedFanSpeeds[k] !in CmToHaFanMode
    ensures FanModes(d)
      == FanModes(d.(supportedFanSpeeds := d.supportedFanSpeeds[..k] + d.supportedFanSpeeds[k + 1..]))
  {
    var xs := d.supportedFanSpeeds;
    var before, after := xs[..k], xs[k + 1..];
    assert xs == before + ([xs[k]] + after);
    ProjectAppend(CmToHaFanMode, before, [xs[k]] + after);
    ProjectAppend(CmToHaFanMode, [xs[k]], after);
    ProjectAppend(CmToHaFanMode, before, after);
    assert Project(CmToHaFanMode, [xs[k]]) == [];
  }

  /** `fan_mode`: None when no speed is offered; otherwise the reported
      speed's name (KeyError for a speed without one). */
  function FanModeOf(d: Device): (r: Result<Option<string>>)
    ensures r == Ok(None) <==> FanModes(d) == []
    ensures FanModes(d) != [] ==> (r.Ok? <==> d.fanMode in CmToHaFanMode)
    ensures r.Ok? && r.value.Some? ==> r.value.value == CmToHaFanMode[d.fanMode]
    ensures r.Ok? && r.value.Some? ==>
      r.value.value in HaFanModeToCm && HaFanModeToCm[r.value.value] == d.fanMode
    ensures r.Err? ==> r.error == KeyError
  {
    FanTablesInverse();
    if FanModes(d) != [] then
      if d.fanMode in CmToHaFanMode then Ok(Some(CmToHaFanMode[d.fanMode])) else Err(KeyError)
    else Ok(None)
  }

  /** The feature flags agree with the lists the entity offers. */
  lemma FeaturesMatchOffers(d: Device)
    ensures SwingModeFlag in SupportedFeatures(d) <==> SwingModes(d).Some?
    ensures FanModeFlag in SupportedFeatures(d) <==> FanModeOf(d) != Ok(None)
    ensures SupportedFeatures(d) <= {TargetTemperatureFlag, SwingModeFlag, FanModeFlag}
  {
  }

  // ---------------------------------------------------------------------------
  // Setters: the device calls each one issues, in order

  /** `async_set_temperature`: nothing when no temperature is given. */
  function SetTemperatureCommands(temperature: Option<real>): (cs: seq<Command>)
    ensures temperature.None? <==> cs == []
    ensures temperature.Some? ==> |cs| == 1 && cs[0].SetTemperature?
  {
    match temperature
    case Some(t) => [SetTemperature(t)]
    case None => []
  }

  /** `async_set_fan_mode`; a name outside the table raises KeyError. */
  function SetFanModeCommands(fanMode: string): (r: Result<seq<Command>>)
    ensures r.Ok? <==> fanMode in HaFanModeToCm
    ensures r.Err? ==> r.error == KeyError
    ensures r.Ok? ==> |r.value| == 1 && r.value[0].SetFanMode?
  {
    if fanMode in HaFanModeToCm then Ok([SetFanMode(HaFanModeToCm[fanMode])]) else Err(KeyError)
  }

  /** `async_set_swing_mode`; a name outside the table raises KeyError. */
  function SetSwingModeCommands(swingMode: string): (r: Result<seq<Command>>)
    ensures r.Ok? <==> swingMode in HaSwingModeToCm
    ensures r.Err? ==> r.error == KeyError
    ensures r.Ok? ==> |r.value| == 1 && r.value[0].SetLouverPosition?
  {
    if swingMode in HaSwingModeToCm then Ok([SetLouverPosition(HaSwingModeToCm[swingMode])]) else Err(KeyError)
  }

  /** `async_turn_on` / `async_turn_off`. */
  function TurnOnCommands(): seq<Command> { [SetPowerState(true)] }
  function TurnOffCommands(): seq<Command> { [SetPowerState(false)] }

  /** `async_set_hvac_mode`: OFF only powers off; any other mode sets the
      mode first and powers on second; a mode without a gateway mode
      raises KeyError before anything is sent. */
  function SetHvacModeCommands(hvacMode: HvacMode): (r: Result<seq<Command>>)
    ensures hvacMode == HvacMode.Off ==> r == Ok([SetPowerState(false)])
    ensures hvacMode != HvacMode.Off ==> (r.Ok? <==> hvacMode in HaStateToCm)
    ensures r.Err? ==> r.error == KeyError
    ensures hvacMode != HvacMode.Off && r.Ok? ==>
      |r.value| == 2 && r.value[0].SetMode? && r.value[1] == SetPowerState(true)
  {
    if hvacMode == HvacMode.Off then Ok(TurnOffCommands())
    else if hvacMode in HaStateToCm then Ok([SetMode(HaStateToCm[hvacMode])] + TurnOnCommands())
    else Err(KeyError)
  }

  /** `set_ambient_temperature`. */
  function SetAmbientTemperatureCommands(temperature: real): seq<Command>
  {
    [SetCurrentTemperature(temperature)]
  }

  // ---------------------------------------------------------------------------
  // Set-then-read: what the entity offers can be set, and reads back

  /** Every offered mode other than OFF has a gateway mode to set. */
  lemma OfferedModeSettable(d: Device, h: HvacMode)
    requires h in HvacModes(d) && h != HvacMode.Off
    ensures h in HaStateToCm
  {
    ModeTablesInverse();
    assert h in Project(CmToHaState, d.supportedModes);
    ProjectMembership(CmToHaState, d.supportedModes, h);
  }

  /** Every mode in `hvac_modes` can be set, and once the device has carried
      out the calls it reports exactly that mode. */
  lemma SetHvacModeRoundTrip(d: Device, h: HvacMode)
    requires h in HvacModes(d)
    ensures SetHvacModeCommands(h).Ok?
    ensures HvacModeOf(Apply(d, SetHvacModeCommands(h).value)) == Ok(h)
  {
    var cs := SetHvacModeCommands(h).value;
    if h == HvacMode.Off {
      assert Apply(d, cs) == Apply(d.(powerState := false), []);
    } else {
      OfferedModeSettable(d, h);
      var m := HaStateToCm[h];
      assert cs[1..] == [SetPowerState(true)];
      assert Apply(d, cs) == Apply(d.(mode := m).(powerState := true), []);
    }
  }

  /** Every speed in `fan_modes` can be set, the call changes the speed and
      nothing else, and `fan_mode` then reads it back. */
  lemma SetFanModeRoundTrip(d: Device, s: string)
    requires s in FanModes(d)
    ensures SetFanModeCommands(s).Ok?
    ensures Apply(d, SetFanModeCommands(s).value) == d.(fanMode := HaFanModeToCm[s])
    ensures FanModeOf(Apply(d, SetFanModeCommands(s).value)) == Ok(Some(s))
  {
    FanTablesInverse();
    ProjectMembership(CmToHaFanMode, d.supportedFanSpeeds, s);
    var f := HaFanModeToCm[s];
    var d' := d.(fanMode := f);
    assert Apply(d, SetFanModeCommands(s).value) == Apply(d', []);
    assert FanModes(d') == FanModes(d);
  }

  /** Every offered swing mode can be set, the call changes the louver and
      nothing else, and `swing_mode` then reads it back. */
  lemma SetSwingModeRoundTrip(d: Device, s: string)
    requires SwingModes(d).Some? && s in SwingModes(d).value
    ensures SetSwingModeCommands(s).Ok?
    ensures Apply(d, SetSwingModeCommands(s).value) == d.(louverPosition := PositionState(HaSwingModeToCm[s]))
    ensures SwingMode(Apply(d, SetSwingModeCommands(s).value)) == Some(s)
  {
    SwingTablesAgree();
    var d' := d.(louverPosition := PositionState(HaSwingModeToCm[s]));
    assert Apply(d, SetSwingModeCommands(s).value) == Apply(d', []);
  }

  /** Turning off reads back as OFF; turning on keeps the mode and reads back
      as that mode's Home Assistant name; a target or ambient temperature
      reads back as set, and no temperature changes nothing. */
  lemma PowerAndTemperatureRoundTrip(d: Device, t: real)
    ensures HvacModeOf(Apply(d, TurnOffCommands())) == Ok(HvacMode.Off)
    ensures d.mode in CmToHaState ==>
      HvacModeOf(Apply(d, TurnOnCommands())) == Ok(CmToHaState[d.mode])
    ensures Apply(d, TurnOnCommands()).mode == d.mode
    ensures Apply(d, SetTemperatureCommands(Some(t))) == d.(targetTemperature := t)
    ensures Apply(d, SetTemperatureCommands(None)) == d
    ensures Apply(d, SetAmbientTemperatureCommands(t)) == d.(currentTemperature := t)
  {
    assert Apply(d, TurnOffCommands()) == Apply(d.(powerState := false), []);
    assert Apply(d, TurnOnCommands()) == Apply(d.(powerState := true), []);
    assert Apply(d, SetTemperatureCommands(Some(t))) == Apply(d.(targetTemperature := t), []);
    assert Apply(d, SetAmbientTemperatureCommands(t)) == Apply(d.(currentTemperature := t), []);
  }
}
