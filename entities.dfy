/** Properties that span the integration's entities: the climate entity
    (custom_components/coolmaster_ng/climate.py), the binary sensors
    (binary_sensor.py with mixins.py) and the gateway's registry entry
    (__init__.py). */
module Entities {
  import opened Common
  import opened Models
  import Climate
  import Mixins
  import BinarySensor
  import Integration

  /** The climate entity and a device's binary sensors describe the same
      registry device, hung off the same gateway. */
  lemma SameRegistryDevice(d: Device)
    ensures Climate.ClimateDeviceInfo(d).identifiers == Mixins.UtilityDeviceInfo(d).identifiers
    ensures Climate.ClimateDeviceInfo(d).viaDevice == Mixins.UtilityDeviceInfo(d).viaDevice
    ensures Climate.ClimateDeviceInfo(d).manufacturer == Mixins.UtilityDeviceInfo(d).manufacturer
  {
  }

  /** A device of the gateway hangs off the registry entry created for that
      gateway in `async_setup_entry`: its `via_device` is one of that
      entry's identifiers. */
  lemma ViaDeviceIsGatewayRecord(d: Device, r: Integration.GatewayRecord, serial: string)
    requires d.gatewaySerial == serial
    requires r.identifiers == {(Domain, serial)}
    ensures Mixins.UtilityDeviceInfo(d).viaDevice in r.identifiers
    ensures Climate.ClimateDeviceInfo(d).viaDevice in r.identifiers
  {
  }

  /** The climate unique id is the unique-id scheme of the utility entities
      applied to the title "Climate". */
  lemma ClimateUniqueIdIsSlugged(uid: string)
    ensures uid + "-climate" == Mixins.UniqueId(uid, "Climate")
  {
    Mixins.SlugOfCapitalised('C', "limate");
    assert "Climate" == ['C'] + "limate";
  }

  /** A utility entity whose slug does not end in "e" never shares its
      unique id with a climate entity, whatever the two devices' uids. */
  lemma ClimateUniqueIdApart(d1: Device, uid2: string, title: string)
    requires ("-" + Mixins.Slug(title))[|"-" + Mixins.Slug(title)| - 1] != 'e'
    ensures Climate.ClimateUniqueId(d1) != Mixins.UniqueId(uid2, title)
  {
    var c := Climate.ClimateUniqueId(d1);
    var u := Mixins.UniqueId(uid2, title);
    Mixins.UniqueIdEndsWithSlug(uid2, title);
    var e := "-" + Mixins.Slug(title);
    assert c[|c| - 1] == 'e';
    assert u[|u| - 1] == e[|e| - 1];
  }

  /** No binary sensor shares a unique id with any climate entity. */
  lemma SensorNeverClashesWithClimate(d: Device, s: BinarySensor.Sensor)
    ensures Climate.ClimateUniqueId(d) != BinarySensor.UniqueIdOf(s)
  {
    BinarySensor.EndingOf(s.kind);
    ClimateUniqueIdApart(d, s.device.uid, BinarySensor.Title(s.kind));
  }

  /** A demand sensor that is on means the climate entity of a running
      device in HEAT reports HEATING and in COOL reports COOLING. */
  lemma DemandMeansActive(d: Device)
    requires d.powerState
    requires BinarySensor.IsOn(BinarySensor.Sensor(BinarySensor.DemandSensor, d))
    ensures d.mode == Mode.Heat ==> Climate.HvacActionOf(d) == Ok(Climate.HvacAction.Heating)
    ensures d.mode == Mode.Cool ==> Climate.HvacActionOf(d) == Ok(Climate.HvacAction.Cooling)
  {
    Climate.ModeTablesInverse();
    if d.mode == Mode.Heat || d.mode == Mode.Cool {
      assert d.mode in Climate.CmToHaState;
      Climate.HvacActionByMode(d);
    }
  }

  /** The climate entity is named by the friendly name alone, and so is its
      registry device; the utility entities of the same device start their
      names with that friendly name when it is non-empty, and fall back to
      the uid where the climate entity has no name at all. */
  lemma ClimateNameAndDeviceName(d: Device, title: string)
    ensures Climate.ClimateDeviceInfo(d).name == Climate.ClimateName(d)
    ensures Climate.ClimateName(d).None? <==> d.friendlyName.None?
    ensures Climate.ClimateName(d).Some? && Climate.ClimateName(d).value != "" ==>
      Mixins.Name(d, title)[..|Climate.ClimateName(d).value|] == Climate.ClimateName(d).value
    ensures Climate.ClimateName(d).None? ==> Mixins.Name(d, title)[..|d.uid|] == d.uid
  {
    Mixins.NameShape(d, title);
  }
}
