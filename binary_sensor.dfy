/** The binary-sensor platform (custom_components/coolmaster_ng/binary_sensor.py):
    three diagnostic sensors per device, filter sign, demand and error. */
module BinarySensor {
  import opened Common
  import opened Models
  import opened Mixins

  datatype Kind = FilterSensor | DemandSensor | ErrorSensor

  /** A sensor entity and the device object it was constructed with. */
  datatype Sensor = Sensor(kind: Kind, device: Device)

  /** The class attribute `title` of each sensor class. */
  function Title(k: Kind): string
  {
    match k
    case FilterSensor => "Filter"
    case DemandSensor => "Demand"
    case ErrorSensor => "Error"
  }

  /** `is_on`. */
  function IsOn(s: Sensor): bool
  {
    match s.kind
    case FilterSensor => s.device.filterSign
    case DemandSensor => s.device.demand
    case ErrorSensor => s.device.errorCode.Some?
  }

  /** `extra_state_attributes`: only the error sensor defines any. */
  function ExtraStateAttributes(s: Sensor): Option<map<string, Option<string>>>
  {
    match s.kind
    case ErrorSensor => Some(map["error_code" := s.device.errorCode])
    case _ => None
  }

  /** Each sensor reports the flag of its own device; the error sensor is on
      exactly when its `error_code` attribute holds a code. */
  lemma SensorStates(s: Sensor)
    ensures s.kind == FilterSensor ==> (IsOn(s) <==> s.device.filterSign)
    ensures s.kind == DemandSensor ==> (IsOn(s) <==> s.device.demand)
    ensures s.kind == ErrorSensor ==> (IsOn(s) <==> s.device.errorCode != None)
    ensures ExtraStateAttributes(s).Some? <==> s.kind == ErrorSensor
    ensures s.kind == ErrorSensor ==>
      ExtraStateAttributes(s).value.Keys == {"error_code"}
      && (IsOn(s) <==> ExtraStateAttributes(s).value["error_code"].Some?)
      && ExtraStateAttributes(s).value["error_code"] == s.device.errorCode
  {
  }

  function UniqueIdOf(s: Sensor): string
  {
    UniqueId(s.device.uid, Title(s.kind))
  }

  /** A sensor's name is its device's name, a space, and its title. */
  function NameOf(s: Sensor): (r: string)
    ensures |r| > |Title(s.kind)|
    ensures r[|r| - |Title(s.kind)| - 1..] == " " + Title(s.kind)
    ensures s.device.friendlyName.Some? && s.device.friendlyName.value != "" ==>
      r[..|r| - |Title(s.kind)| - 1] == s.device.friendlyName.value
    ensures !(s.device.friendlyName.Some? && s.device.friendlyName.value != "") ==>
      r[..|r| - |Title(s.kind)| - 1] == s.device.uid
  {
    NameShape(s.device, Title(s.kind));
    Name(s.device, Title(s.kind))
  }

  /** The three sensors of one device, in the order they are created. */
  function SensorsFor(d: Device): seq<Sensor>
  {
    [Sensor(FilterSensor, d), Sensor(DemandSensor, d), Sensor(ErrorSensor, d)]
  }

  /** The sensors of a whole gateway, device by device in iteration order. */
  function AllSensors(devices: seq<Device>): seq<Sensor>
  {
    if devices == [] then []
    else AllSensors(devices[..|devices| - 1]) + SensorsFor(devices[|devices| - 1])
  }

  function KindAt(k: nat): Kind
    requires k < 3
  {
    if k == 0 then FilterSensor else if k == 1 then DemandSensor else ErrorSensor
  }

  /** 3n sensors for n devices: position 3i + k holds sensor k of device i. */
  lemma {:induction false} AllSensorsLayout(devices: seq<Device>)
    ensures |AllSensors(devices)| == 3 * |devices|
    ensures forall i, k :: 0 <= i < |devices| && 0 <= k < 3 ==>
      AllSensors(devices)[3 * i + k] == Sensor(KindAt(k), devices[i])
  {
    if devices != [] {
      var init := devices[..|devices| - 1];
      AllSensorsLayout(init);
      forall i, k | 0 <= i < |devices| && 0 <= k < 3
        ensures AllSensors(devices)[3 * i + k] == Sensor(KindAt(k), devices[i])
      {
        if i < |init| {
          assert devices[i] == init[i];
        }
      }
    }
  }

  /** `async_setup_entry`: builds the sensors device by device; the
      entity-add callback receives them, and is not called at all when the
      gateway has no devices (`None` here). */
  method SetupEntry(devices: seq<Device>) returns (added: Option<seq<Sensor>>)
    ensures added.None? <==> devices == []
    ensures added.Some? ==> added.value == AllSensors(devices)
  {
    var newDevices: seq<Sensor> := [];
    for i := 0 to |devices|
      invariant newDevices == AllSensors(devices[..i])
    {
      assert devices[..i + 1][..i] == devices[..i];
      newDevices := newDevices + [Sensor(FilterSensor, devices[i])];
      newDevices := newDevices + [Sensor(DemandSensor, devices[i])];
      newDevices := newDevices + [Sensor(ErrorSensor, devices[i])];
    }
    assert devices[..|devices|] == devices;
    AllSensorsLayout(devices);
    if newDevices != [] {
      added := Some(newDevices);
    } else {
      added := None;
    }
  }

  /** The dash-and-slug ending of each sensor's unique id. */
  function Ending(k: Kind): string
  {
    match k
    case FilterSensor => "-filter"
    case DemandSensor => "-demand"
    case ErrorSensor => "-error"
  }

  lemma EndingOf(k: Kind)
    ensures "-" + Slug(Title(k)) == Ending(k)
  {
    var slug := Slug(Title(k));
    match k
    case FilterSensor => FilterSlug(); assert slug == "filter";
    case DemandSensor => DemandSlug(); assert slug == "demand";
    case ErrorSensor => ErrorSlug(); assert slug == "error";
  }

  /** The three endings are not suffixes of one another. */
  lemma TitlesUnrelated(k1: Kind, k2: Kind)
    requires k1 != k2
    ensures !EndsWith("-" + Slug(Title(k1)), "-" + Slug(Title(k2)))
  {
    EndingOf(k1);
    EndingOf(k2);
    EndingsUnrelated(k1, k2);
  }

  lemma EndingsUnrelated(k1: Kind, k2: Kind)
    requires k1 != k2
    ensures !EndsWith(Ending(k1), Ending(k2))
  {
    var e1, e2 := Ending(k1), Ending(k2);
    if |e2| <= |e1| {
      if (k1 == FilterSensor && k2 == DemandSensor) || (k1 == DemandSensor && k2 == FilterSensor) {
        assert e1[|e1| - 1] != e2[|e2| - 1];
      } else {
        assert e1[|e1| - |e2|] != e2[0];
      }
    }
  }

  /** Two sensors share a unique id only when they are of the same kind
      and their devices share a uid. */
  lemma SensorPairDistinct(s1: Sensor, s2: Sensor)
    requires s1.kind != s2.kind || s1.device.uid != s2.device.uid
    ensures UniqueIdOf(s1) != UniqueIdOf(s2)
  {
    if s1.kind != s2.kind {
      TitlesUnrelated(s1.kind, s2.kind);
      TitlesUnrelated(s2.kind, s1.kind);
      UniqueIdsOfUnrelatedTitles(s1.device.uid, Title(s1.kind), s2.device.uid, Title(s2.kind));
    } else {
      UniqueIdsOfSameTitle(s1.device.uid, s2.device.uid, Title(s1.kind));
    }
  }

  /** Position p of the gateway's sensors holds sensor p % 3 of device p / 3. */
  lemma SensorAt(devices: seq<Device>, p: nat)
    requires p < |AllSensors(devices)|
    ensures p / 3 < |devices|
    ensures AllSensors(devices)[p] == Sensor(KindAt(p % 3), devices[p / 3])
  {
    AllSensorsLayout(devices);
    assert p == 3 * (p / 3) + p % 3;
  }

  /** Two positions p < q differ in their device or in their kind. */
  lemma PositionsApart(p: nat, q: nat)
    requires p < q
    ensures p / 3 < q / 3 || (p / 3 == q / 3 && p % 3 != q % 3)
  {
  }

  /** No two sensors of a gateway share a unique id when no two devices
      share a uid. */
  lemma SensorUniqueIdsDistinct(devices: seq<Device>)
    requires forall i, j :: 0 <= i < j < |devices| ==> devices[i].uid != devices[j].uid
    ensures forall p, q :: 0 <= p < q < |AllSensors(devices)| ==>
      UniqueIdOf(AllSensors(devices)[p]) != UniqueIdOf(AllSensors(devices)[q])
  {
    var all := AllSensors(devices);
    forall p, q | 0 <= p < q < |all|
      ensures UniqueIdOf(all[p]) != UniqueIdOf(all[q])
    {
      SensorAt(devices, p);
      SensorAt(devices, q);
      PositionsApart(p, q);
      SensorPairDistinct(all[p], all[q]);
    }
  }
}
