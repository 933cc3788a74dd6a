# coolmaster_ng in Dafny

A model of the Home Assistant integration `coolmaster_ng`. The integration
talks to CoolAutomation CoolMasterNet and CoolLinkHub gateways through the
`pycoolmasternet_ng` library. The model covers these parts of it:

- the climate entity: the tables between gateway and Home Assistant modes,
  fan speeds and louver positions; every entity property; and the device
  calls each setter issues;
- the naming shared by the utility entities: unique id, name and device
  info;
- the binary sensors (filter, demand, error): how they are enumerated, their
  on state, and the error code attribute;
- entry setup and unload: transport choice, gateway model classification,
  registry entry, `hass.data`, and the coordinator's in-place refresh loop;
- the two-step config flow: protocol choice, then connection details, then
  a connection test, the entry title and the entry data.

## Modules

- `common.dfy`, module `Common`. Holds:
  - `Option` and `Result`;
  - the exceptions the code raises or lets through, as the `Error` datatype;
  - loosely typed config values (`Value`) with Python truthiness and `str()`;
  - the integration's constants;
  - the list-comprehension filter `Project`.
- `models.dfy`, module `Models`: the library's data as the integration sees it.
  - A device snapshot, the mode, fan and louver enumerations, and the device
    calls (`Command`).
  - `Effect`, the snapshot a device reports after it has carried out a call.
    `Effect` is used only to state set-then-read properties.
- `climate.dfy`, module `Climate`: `climate.py`.
- `mixins.dfy`, module `Mixins`: `mixins.py`.
- `binary_sensor.dfy`, module `BinarySensor`: `binary_sensor.py`.
- `integration.dfy`, module `Integration`: `__init__.py`.
  - `Gateway` is a class whose device list the coordinator updates in place.
  - `Hass` is a class holding `hass.data` and the gateway records of the
    device registry.
- `config_flow.dfy`, module `ConfigFlow`: `config_flow.py`. The flow is a
  class whose `protocol` field the first step sets.
- `entities.dfy`, module `Entities`: properties that span several of the files
  above.

Exceptions are error results, never preconditions:
- a `KeyError` on a missing table key or dict key;
- the `ValueError` for an unsupported protocol;
- a `TypeError` when a non-string address is concatenated;
- an `AttributeError` when the flow's protocol was never set;
- library exceptions that propagate.

The library's calls are inputs to the operations that make them:
- connecting to the gateway;
- `get_ifconfig`;
- the "simul" probe;
- each device's refresh;
- the connection test in the config flow.

## Model

| member | source | states |
|---|---|---|
| Climate.ModeTablesInverse | custom_components/coolmaster_ng/climate.py:33-41 | HA_STATE_TO_CM is the inverse of CM_TO_HA_STATE. The forward table is injective over its five modes. OFF and AUTO are not in its image. |
| Climate.FanTablesInverse | custom_components/coolmaster_ng/climate.py:44-53 | HA_FAN_MODE_TO_CM is the inverse of CM_TO_HA_FAN_MODE. The forward table is injective over its six speeds. |
| Climate.SwingTablesAgree | custom_components/coolmaster_ng/climate.py:59-77 | Every offered swing name is reported for some louver state, and every reported name is offered. Setting a name reports that same name back. NOT_SUPPORTED has no name. |
| Climate.SwingModeListOrder | custom_components/coolmaster_ng/climate.py:59-67 | The offered swing list is the forward table's values in the table's order: one entry per louver state, seven names, no name twice. |
| Climate.FanModes | custom_components/coolmaster_ng/climate.py:276-285 | Every offered fan mode has a gateway speed to set. |
| Climate.FanModesShape | custom_components/coolmaster_ng/climate.py:276-285 | A name is offered iff some supported speed maps to it. When every supported speed is mapped, the list has one entry per speed, in the device's order. |
| Climate.FanModesSkipUnmapped | custom_components/coolmaster_ng/climate.py:276-285 | A supported speed with no name is skipped: dropping it leaves the list unchanged. |
| Climate.ClimateDeviceInfo | custom_components/coolmaster_ng/climate.py:119-128 | The registry device is identified by (domain, uid), made by the brand, named like the entity (the friendly name), and reached via (domain, gateway serial). |
| Climate.SupportedFeatures | custom_components/coolmaster_ng/climate.py:134-146 | TARGET_TEMPERATURE is always set. SWING_MODE is set iff the louver is supported. FAN_MODE is set iff the fan-mode list is non-empty. |
| Climate.SwingModes | custom_components/coolmaster_ng/climate.py:148-154 | The value is None iff the louver is NOT_SUPPORTED. Otherwise it is the full list of the table's seven names, in table order, so every louver state's name is offered. Every offered name can be set. |
| Climate.SwingMode | custom_components/coolmaster_ng/climate.py:156-161 | The value is None iff the louver state has no name. A reported name is among the offered swing modes. |
| Climate.MaxTemp | custom_components/coolmaster_ng/climate.py:163-173 | A non-empty range gives its stop. An absent or empty range gives the framework default. |
| Climate.MinTemp | custom_components/coolmaster_ng/climate.py:175-185 | A non-empty range gives its start. An absent or empty range gives the framework default. |
| Climate.TempBoundsOrdered | custom_components/coolmaster_ng/climate.py:163-185 | min_temp <= max_temp whenever the framework defaults are ordered. |
| Climate.HvacModeOf | custom_components/coolmaster_ng/climate.py:210-215 | A powered-off unit reports OFF. A powered-on unit reports its mode's name, and KeyError when the mode has none. OFF is reported iff the unit is off. AUTO is never reported. |
| Climate.HvacActionOf | custom_components/coolmaster_ng/climate.py:217-261 | hvac_action fails exactly when hvac_mode fails, with the same error, a KeyError. |
| Climate.HvacActionByMode | custom_components/coolmaster_ng/climate.py:217-261 | FAN_ONLY gives FAN and DRY gives DRYING. OFF is reported iff the unit is off. HEAT is IDLE iff there is no demand and current >= target, and HEATING otherwise. COOL is IDLE iff there is no demand and current <= target, and COOLING otherwise. |
| Climate.HvacActionHeatCool | custom_components/coolmaster_ng/climate.py:252-259 | In HEAT_COOL the demand flag is ignored. The action is IDLE, COOLING or HEATING by the sign of current minus target. |
| Climate.HvacActionAgreesWithMode | custom_components/coolmaster_ng/climate.py:217-261 | HEATING only in HEAT or HEAT_COOL. COOLING only in COOL or HEAT_COOL. |
| Climate.HvacModesShape | custom_components/coolmaster_ng/climate.py:263-266 | OFF is last and appears exactly once. Every other entry can be set. A mode is offered iff it is OFF or the image of a supported gateway mode. When every supported mode is mapped, the list has one entry per supported mode, in the device's order, then OFF. |
| Climate.HvacModesSkipUnmapped | custom_components/coolmaster_ng/climate.py:263-266 | A supported mode with no Home Assistant name is skipped: dropping it leaves the list unchanged. |
| Climate.CurrentModeOffered | custom_components/coolmaster_ng/climate.py:210-266 | The mode a unit reports is among hvac_modes when the unit's own mode is supported. |
| Climate.FanModeOf | custom_components/coolmaster_ng/climate.py:269-274 | The value is None iff the fan-mode list is empty. With a non-empty list it succeeds iff the device's speed is in the table, and reports CM_TO_HA_FAN_MODE of that speed, which maps back to it. The only error is KeyError. |
| Climate.FeaturesMatchOffers | custom_components/coolmaster_ng/climate.py:134-161 | Each feature flag is set exactly when the matching mode list is offered. No other flag is ever set. |
| Climate.Unit | custom_components/coolmaster_ng/climate.py:194-200 | Celsius iff the gateway's unit is "C". Fahrenheit for anything else. |
| Climate.SetTemperatureCommands | custom_components/coolmaster_ng/climate.py:287-291 | No call is made iff no temperature is given. Otherwise exactly one set-temperature call is made. |
| Climate.SetFanModeCommands | custom_components/coolmaster_ng/climate.py:293-296 | The call succeeds iff the name is in the table. Otherwise it is KeyError. On success exactly one set-fan-speed call is made. |
| Climate.SetSwingModeCommands | custom_components/coolmaster_ng/climate.py:298-300 | The call succeeds iff the name is in the table. Otherwise it is KeyError. On success exactly one set-louver call is made. |
| Climate.SetHvacModeCommands | custom_components/coolmaster_ng/climate.py:302-310 | OFF sends only power-off. Any other mode sets the mode first and powers on second. A mode without a gateway mode is KeyError before any call. |
| Climate.SetHvacModeRoundTrip | custom_components/coolmaster_ng/climate.py:302-320 | Every offered hvac mode can be set and then reads back as that mode. |
| Climate.SetFanModeRoundTrip | custom_components/coolmaster_ng/climate.py:269-296 | Every offered fan mode can be set. The call changes the fan speed to the table's speed and nothing else, and then reads back as that mode. |
| Climate.SetSwingModeRoundTrip | custom_components/coolmaster_ng/climate.py:298-300 | Every offered swing mode can be set. The call changes the louver to the table's position and nothing else, and then reads back as that mode. |
| Climate.PowerAndTemperatureRoundTrip | custom_components/coolmaster_ng/climate.py:312-331 | Turn-off reads back OFF. Turn-on keeps the mode and reads back its name. Target and ambient temperatures read back as set. No temperature changes nothing. |
| Mixins.Lower | custom_components/coolmaster_ng/mixins.py:19 | lower() keeps the length and lowers each letter. |
| Mixins.ReplaceChar | custom_components/coolmaster_ng/mixins.py:19 | replace() keeps the length and substitutes exactly the matching characters. |
| Mixins.SlugClean | custom_components/coolmaster_ng/mixins.py:19 | The title slug keeps the length and has no space and no upper-case letter. |
| Mixins.UniqueIdEndsWithSlug | custom_components/coolmaster_ng/mixins.py:17-19 | A unique id ends with "-" and its title's slug. |
| Mixins.UniqueIdSameDevice | custom_components/coolmaster_ng/mixins.py:17-19 | Two entities of one device share an id iff their titles share a slug. |
| Mixins.UniqueIdsOfSameTitle | custom_components/coolmaster_ng/mixins.py:17-19 | Same title: the ids are equal iff the uids are equal. |
| Mixins.UniqueIdsOfUnrelatedTitles | custom_components/coolmaster_ng/mixins.py:17-19 | Endings that are not suffixes of each other never collide, whatever the uids. |
| Mixins.TitleSlugs | custom_components/coolmaster_ng/binary_sensor.py:62-84 | The titles Filter, Demand, Error and "Filter reset" give the slugs filter, demand, error and filter_reset. "Filter reset" is the button title at button.py:39. |
| Mixins.NameShape | custom_components/coolmaster_ng/mixins.py:21-25 | The name is the device name, a space and the title. The device name is the friendly name when it is non-empty, and the uid otherwise. |
| Mixins.UtilityDeviceInfo | custom_components/coolmaster_ng/mixins.py:9-15 | The device is identified by (domain, uid). Its manufacturer is the brand name and it sets no name. Its via_device is (domain, gateway serial). |
| BinarySensor.SensorStates | custom_components/coolmaster_ng/binary_sensor.py:62-94 | Each sensor reports its own device's flag. Only the error sensor has attributes: exactly error_code, holding the device's error code, set iff the sensor is on. |
| BinarySensor.NameOf | custom_components/coolmaster_ng/mixins.py:21-25 | A sensor's name is a space and its title after the friendly name, or after the uid when the friendly name is missing or empty. |
| BinarySensor.AllSensorsLayout | custom_components/coolmaster_ng/binary_sensor.py:26-43 | n devices give 3n sensors. Position 3i+k holds sensor k (filter, demand, error) of device i. |
| BinarySensor.SetupEntry | custom_components/coolmaster_ng/binary_sensor.py:15-46 | The loop builds exactly that list. The add callback is skipped iff the gateway has no devices. |
| BinarySensor.EndingOf | custom_components/coolmaster_ng/binary_sensor.py:62-84 | The three sensor ids end in -filter, -demand and -error. |
| BinarySensor.EndingsUnrelated | custom_components/coolmaster_ng/binary_sensor.py:62-84 | No sensor ending is a suffix of another. |
| BinarySensor.TitlesUnrelated | custom_components/coolmaster_ng/binary_sensor.py:62-84 | No dash-and-slug of a sensor title is a suffix of another's. |
| BinarySensor.SensorPairDistinct | custom_components/coolmaster_ng/binary_sensor.py:62-84 | Sensors of different kinds, or of devices with different uids, never share a unique id. |
| BinarySensor.SensorUniqueIdsDistinct | custom_components/coolmaster_ng/binary_sensor.py:26-46 | With distinct device uids, all sensors of a gateway have pairwise distinct unique ids. |
| Integration.TransportFromConfig | custom_components/coolmaster_ng/__init__.py:20-29 | Socket gives TCP on the host and optional port, and KeyError without a host. Serial gives serial on the URL and optional baud, and KeyError without a URL. Any other protocol is ValueError("Unsupported protocol <p>"). |
| Integration.MissingProtocolIsSocket | custom_components/coolmaster_ng/__init__.py:21-24 | Without a protocol key, data is read exactly as a socket entry. |
| Integration.ClassifyModel | custom_components/coolmaster_ng/__init__.py:47-62 | The model is CoolMasterNet or CoolLinkHub. A failure is only ever the probe's own exception. |
| Integration.ClassifyModelCases | custom_components/coolmaster_ng/__init__.py:47-62 | 283B960 gives CoolMasterNet and 283B96C gives CoolLinkHub, whatever the probe. Otherwise CoolLinkHub iff the probe fails with unknown-command, and CoolMasterNet iff it succeeds. |
| Integration.FirstFailure | custom_components/coolmaster_ng/__init__.py:116-119 | Every refresh before the index succeeded. The refresh at the index, if any, failed. |
| Integration.RefreshInOrderLayout | custom_components/coolmaster_ng/__init__.py:113-123 | Devices before the first failure hold new snapshots. The rest keep their old ones. The error is the first failure's. |
| Integration.UpdateError | custom_components/coolmaster_ng/__init__.py:120-121 | OS and remote errors become UpdateFailed with that error as its cause. Anything else escapes unchanged as Raised(e). |
| Integration.Coordinator.UpdateData | custom_components/coolmaster_ng/__init__.py:113-123 | Refreshes in place, in order, up to the first failure. Returns the same gateway object on success. |
| Integration.Hass.SetupEntry | custom_components/coolmaster_ng/__init__.py:32-86 | Every input path is stated. Errors from the transport, the connection, get_ifconfig (TCP only) and the probe leave hass.data and the registry untouched. Once all four succeed it always appends the gateway record (MAC connection only for TCP) and stores a fresh coordinator under DATA_COORDINATOR, keeping other entries. The result is True when the first refresh succeeds, and ConfigEntryNotReady otherwise, with both writes kept. |
| Integration.Hass.UnloadEntry | custom_components/coolmaster_ng/__init__.py:89-96 | The entry is dropped iff the platforms unloaded. The result is the platforms' result. A missing entry is KeyError. |
| ConfigFlow.UserSchema | custom_components/coolmaster_ng/config_flow.py:56-63 | The first form asks only for the protocol. It is required, has no default, and is a choice of exactly socket and serial. |
| ConfigFlow.ProtocolSchema | custom_components/coolmaster_ng/config_flow.py:81-96 | A form exists iff the protocol is socket or serial. Otherwise the same ValueError message as the transport gives. |
| ConfigFlow.ProtocolSchemaFields | custom_components/coolmaster_ng/config_flow.py:81-94 | Socket asks for host and port, with port defaulting to 10102. Serial asks for URL and baud, with baud defaulting to 9600. The address has no default. Host and URL are strings; port and baud are integers. |
| ConfigFlow.EntryData | custom_components/coolmaster_ng/config_flow.py:47 | Keys are the input's plus protocol. The input wins every collision. Protocol is the flow's when the input has none. |
| ConfigFlow.FilledFormGivesTransport | custom_components/coolmaster_ng/config_flow.py:68-71 | A filled-in form always yields a transport of the chosen protocol, built from the values entered. |
| ConfigFlow.SocketTitle | custom_components/coolmaster_ng/config_flow.py:32-36 | The title is "TCP at " + host, with ":" + port appended iff the port is truthy. A missing host is KeyError. A non-string host is TypeError. |
| ConfigFlow.SerialTitle | custom_components/coolmaster_ng/config_flow.py:37-41 | The title is "Serial at " + URL, with " @ <baud> baud" appended iff the baud is truthy. A missing URL is KeyError. A non-string URL is TypeError. |
| ConfigFlow.TitleProtocols | custom_components/coolmaster_ng/config_flow.py:32-43 | Only socket and serial have titles. The title's ValueError is exactly the schema's. |
| ConfigFlow.GetEntry | custom_components/coolmaster_ng/config_flow.py:30-48 | An entry is created iff a title can be built. Its data is the merged entry data. |
| ConfigFlow.CoolmasterConfigFlow.ProtocolForm | custom_components/coolmaster_ng/config_flow.py:81-102 | The "protocol" form for the stored protocol, with the given errors. ValueError for an unsupported protocol. AttributeError before the protocol is set. |
| ConfigFlow.CoolmasterConfigFlow.StepUser | custom_components/coolmaster_ng/config_flow.py:50-63 | Empty input shows the picker and leaves the protocol alone. Input without a protocol is KeyError. Otherwise the protocol is stored and the second form is shown. |
| ConfigFlow.CoolmasterConfigFlow.StepProtocol | custom_components/coolmaster_ng/config_flow.py:65-102 | Empty input shows the form. Transport errors propagate. Remote or OS errors re-show the form with base=cannot_connect. Other errors propagate. Success creates the entry. |
| Entities.SameRegistryDevice | custom_components/coolmaster_ng/climate.py:119-128 | The climate entity and the utility entities share identifiers, manufacturer and via_device. |
| Entities.ViaDeviceIsGatewayRecord | custom_components/coolmaster_ng/__init__.py:66-74 | A device's via_device is an identifier of its gateway's registry record. |
| Entities.ClimateUniqueIdIsSlugged | custom_components/coolmaster_ng/climate.py:130-132 | The climate id follows the utility-entity scheme with the title "Climate". |
| Entities.ClimateUniqueIdApart | custom_components/coolmaster_ng/climate.py:130-132 | The climate id never equals the id of a utility entity whose ending does not end in "e". |
| Entities.SensorNeverClashesWithClimate | custom_components/coolmaster_ng/climate.py:130-132 | No binary sensor's id equals any climate entity's id. |
| Entities.ClimateNameAndDeviceName | custom_components/coolmaster_ng/climate.py:187-192 | The climate entity's name is the friendly name, None when there is none, and its registry device carries the same name. Utility entities start their names with a non-empty friendly name, and with the uid when there is none. |
| Entities.DemandMeansActive | custom_components/coolmaster_ng/climate.py:232-250 | While the demand sensor is on and the unit runs, HEAT reports HEATING and COOL reports COOLING. |

## Left out

- `button.py` is not part of this model. Only its title "Filter reset" is used, to state that the slugs are distinct.
- `const.py` is not a separate module. Its constants are declared in `Common`.
- The climate platform's `async_setup_entry` and its service registration are left out. They are framework glue with no logic beyond listing each device once.
- Async scheduling, logging, entity base classes and device-registry internals are left out. A registry record is appended, never merged with an existing one.
- The library is left out: transports, the wire protocol, and what `refresh` and the setters do on the gateway. Library results are inputs. `Models.Effect` is an assumed reading of the setters, used only for set-then-read lemmas.
- Floating point is left out. Temperatures are `real`, and `float()` conversions are the identity.
- `get_ifconfig` is assumed to return a MAC. A missing "MAC" key is not modelled.
- Mixins.Lower: lowers ASCII letters only. Python's full Unicode case mapping is not modelled.
- Climate.MaxTemp: the range's step is taken to be 1, so a range is non-empty exactly when start < stop.
- ConfigFlow.CoolmasterConfigFlow.StepUser: `None` and an empty dict are the same falsy input. A form shown without errors carries an empty errors map rather than `None`.
- Devices are immutable values. An entity holds the device snapshot it was built from. In the source, entities share the library's device objects that the coordinator refreshes in place (`__init__.py:118`). That aliasing is not captured: nothing links an entity to the refreshed `Gateway.devices`.
- Integration.Hass.SetupEntry: platform forwarding after the first refresh is left out. A device's dict iteration order is the sequence order.
