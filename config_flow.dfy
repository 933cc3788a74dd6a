/** The two-step configuration flow (custom_components/coolmaster_ng/config_flow.py):
    the user first picks a protocol, then enters the connection details; the
    flow tries to connect and, on success, creates the config entry. */
module ConfigFlow {
  import opened Common
  import Integration

  /** The type a form field asks for. */
  datatype FieldType = StrField | IntField | OneOf(options: seq<string>)

  /** One `vol.Required` field of a form, with its default if it has one. */
  datatype Field = Field(key: string, fieldType: FieldType, default: Option<Value>)

  /** What a step hands back to the flow manager. */
  datatype FlowResult =
    | ShowForm(stepId: string, schema: seq<Field>, errors: map<string, string>)
    | CreateEntry(title: string, data: map<string, Value>)

  function Keys(schema: seq<Field>): set<string>
  {
    set f | f in schema :: f.key
  }

  /** The first form: a required protocol, one of socket and serial. */
  function UserSchema(): (schema: seq<Field>)
    ensures Keys(schema) == {ConfProtocol}
    ensures forall f :: f in schema ==>
      f.fieldType.OneOf? && f.default.None?
      && (set o | o in f.fieldType.options) == {ProtocolSocket, ProtocolSerial}
  {
    [Field(ConfProtocol, OneOf([ProtocolSocket, ProtocolSerial]), None)]
  }

  /** The second form's fields for the chosen protocol. */
  function ProtocolSchema(protocol: Value): (r: Result<seq<Field>>)
    ensures r.Ok? <==> protocol == Str(ProtocolSocket) || protocol == Str(ProtocolSerial)
    ensures r.Err? ==> r.error == ValueError("Unsupported protocol " + Render(protocol))
  {
    if protocol == Str(ProtocolSocket) then
      Ok([Field(ConfHost, StrField, None), Field(ConfPort, IntField, Some(Int(DefaultPort)))])
    else if protocol == Str(ProtocolSerial) then
      Ok([Field(ConfSerialUrl, StrField, None), Field(ConfSerialBaud, IntField, Some(Int(DefaultBaudRate)))])
    else
      Err(ValueError("Unsupported protocol " + Render(protocol)))
  }

  /** The second form asks for exactly the address key the transport needs
      and for the port or baud rate, which defaults to 10102 or 9600. */
  lemma ProtocolSchemaFields(protocol: Value)
    ensures protocol == Str(ProtocolSocket) ==>
      Keys(ProtocolSchema(protocol).value) == {ConfHost, ConfPort}
      && (forall f :: f in ProtocolSchema(protocol).value && f.default.Some? ==>
            f.key == ConfPort && f.default == Some(Int(DefaultPort)))
      && (forall f :: f in ProtocolSchema(protocol).value && f.key == ConfHost ==>
            f.default.None? && f.fieldType == StrField)
      && (forall f :: f in ProtocolSchema(protocol).value && f.key == ConfPort ==> f.fieldType == IntField)
    ensures protocol == Str(ProtocolSerial) ==>
      Keys(ProtocolSchema(protocol).value) == {ConfSerialUrl, ConfSerialBaud}
      && (forall f :: f in ProtocolSchema(protocol).value && f.default.Some? ==>
            f.key == ConfSerialBaud && f.default == Some(Int(DefaultBaudRate)))
      && (forall f :: f in ProtocolSchema(protocol).value && f.key == ConfSerialUrl ==>
            f.default.None? && f.fieldType == StrField)
      && (forall f :: f in ProtocolSchema(protocol).value && f.key == ConfSerialBaud ==> f.fieldType == IntField)
  {
    if protocol == Str(ProtocolSocket) || protocol == Str(ProtocolSerial) {
      var schema := ProtocolSchema(protocol).value;
      assert schema[0] in schema && schema[1] in schema;
    }
  }

  /** `{CONF_PROTOCOL: self.protocol, **user_input}`. */
  function EntryData(protocol: Value, userInput: map<string, Value>): (data: map<string, Value>)
    ensures data.Keys == userInput.Keys + {ConfProtocol}
    ensures forall k :: k in userInput ==> data[k] == userInput[k]
    ensures ConfProtocol !in userInput ==> data[ConfProtocol] == protocol
  {
    map[ConfProtocol := protocol] + userInput
  }

  /** A form filled in with the fields of the protocol's schema always gives
      a transport of that protocol, built from exactly the values entered. */
  lemma FilledFormGivesTransport(protocol: Value, userInput: map<string, Value>)
    requires ProtocolSchema(protocol).Ok?
    requires Keys(ProtocolSchema(protocol).value) <= userInput.Keys
    requires ConfProtocol !in userInput
    ensures Integration.TransportFromConfig(EntryData(protocol, userInput)).Ok?
    ensures protocol == Str(ProtocolSocket) ==>
      Integration.TransportFromConfig(EntryData(protocol, userInput)).value
        == Integration.TcpTransport(userInput[ConfHost], Some(userInput[ConfPort]))
    ensures protocol == Str(ProtocolSerial) ==>
      Integration.TransportFromConfig(EntryData(protocol, userInput)).value
        == Integration.SerialTransport(userInput[ConfSerialUrl], Some(userInput[ConfSerialBaud]))
  {
    ProtocolSchemaFields(protocol);
    var data := EntryData(protocol, userInput);
    assert Integration.ProtocolOf(data) == protocol;
  }

  /** `_async_get_entry`'s title: "TCP at host[:port]" or
      "Serial at url[ @ baud baud]". The address must be a string. */
  function Title(protocol: Value, userInput: map<string, Value>): Result<string>
  {
    if protocol == Str(ProtocolSocket) then
      if ConfHost !in userInput then Err(KeyError)
      else match userInput[ConfHost]
        case Int(_) => Err(TypeError)
        case Str(host) =>
          Ok("TCP at " + host + (if TruthyEntry(userInput, ConfPort) then ":" + Render(userInput[ConfPort]) else ""))
    else if protocol == Str(ProtocolSerial) then
      if ConfSerialUrl !in userInput then Err(KeyError)
      else match userInput[ConfSerialUrl]
        case Int(_) => Err(TypeError)
        case Str(url) =>
          Ok("Serial at " + url
             + (if TruthyEntry(userInput, ConfSerialBaud) then " @ " + Render(userInput[ConfSerialBaud]) + " baud" else ""))
    else
      Err(ValueError("Unsupported protocol " + Render(protocol)))
  }

  /** A socket entry's title is "TCP at " and the host, followed by ":" and
      the port exactly when the port is truthy; a missing host is a
      KeyError and a host that is not a string a TypeError. */
  lemma SocketTitle(userInput: map<string, Value>)
    ensures ConfHost !in userInput ==> Title(Str(ProtocolSocket), userInput) == Err(KeyError)
    ensures ConfHost in userInput && userInput[ConfHost].Int? ==>
      Title(Str(ProtocolSocket), userInput) == Err(TypeError)
    ensures ConfHost in userInput && userInput[ConfHost].Str? ==>
      var host := userInput[ConfHost].s;
      var t := Title(Str(ProtocolSocket), userInput);
      && t.Ok?
      && StartsWith(t.value, "TCP at " + host)
      && (t.value == "TCP at " + host <==> !TruthyEntry(userInput, ConfPort))
      && (TruthyEntry(userInput, ConfPort) ==>
            t.value[|"TCP at " + host|..] == ":" + Render(userInput[ConfPort]))
  {
    if ConfHost in userInput && userInput[ConfHost].Str? {
      var head := "TCP at " + userInput[ConfHost].s;
      var t := Title(Str(ProtocolSocket), userInput).value;
      if TruthyEntry(userInput, ConfPort) {
        var tail := ":" + Render(userInput[ConfPort]);
        assert t == head + tail;
        assert t[..|head|] == head && t[|head|..] == tail;
      } else {
        assert t == head + "";
      }
    }
  }

  /** A serial entry's title is "Serial at " and the URL, followed by
      " @ <baud> baud" exactly when the baud rate is truthy. */
  lemma SerialTitle(userInput: map<string, Value>)
    ensures ConfSerialUrl !in userInput ==> Title(Str(ProtocolSerial), userInput) == Err(KeyError)
    ensures ConfSerialUrl in userInput && userInput[ConfSerialUrl].Int? ==>
      Title(Str(ProtocolSerial), userInput) == Err(TypeError)
    ensures ConfSerialUrl in userInput && userInput[ConfSerialUrl].Str? ==>
      var url := userInput[ConfSerialUrl].s;
      var t := Title(Str(ProtocolSerial), userInput);
      && t.Ok?
      && StartsWith(t.value, "Serial at " + url)
      && (t.value == "Serial at " + url <==> !TruthyEntry(userInput, ConfSerialBaud))
      && (TruthyEntry(userInput, ConfSerialBaud) ==>
            t.value[|"Serial at " + url|..] == " @ " + Render(userInput[ConfSerialBaud]) + " baud")
  {
    if ConfSerialUrl in userInput && userInput[ConfSerialUrl].Str? {
      var head := "Serial at " + userInput[ConfSerialUrl].s;
      var t := Title(Str(ProtocolSerial), userInput).value;
      if TruthyEntry(userInput, ConfSerialBaud) {
        var tail := " @ " + Render(userInput[ConfSerialBaud]) + " baud";
        assert t == head + tail;
        assert t[..|head|] == head && t[|head|..] == tail;
      } else {
        assert t == head + "";
      }
    }
  }

  /** Only socket and serial have titles; anything else is the same
      ValueError the schema selection raises. */
  lemma TitleProtocols(protocol: Value, userInput: map<string, Value>)
    ensures Title(protocol, userInput).Ok? ==>
      protocol == Str(ProtocolSocket) || protocol == Str(ProtocolSerial)
    ensures ProtocolSchema(protocol).Err? <==> Title(protocol, userInput).Err? && Title(protocol, userInput).error.ValueError?
    ensures ProtocolSchema(protocol).Err? ==> Title(protocol, userInput).error == ProtocolSchema(protocol).error
  {
  }

  /** `_async_get_entry`: the entry to create, titled by `Title`, holding the
      protocol and the user's input. */
  function GetEntry(protocol: Value, userInput: map<string, Value>): (r: Result<FlowResult>)
    ensures r.Ok? <==> Title(protocol, userInput).Ok?
    ensures r.Ok? ==>
      && r.value.CreateEntry?
      && r.value.title == Title(protocol, userInput).value
      && r.value.data == EntryData(protocol, userInput)
    ensures r.Err? ==> r.error == Title(protocol, userInput).error
  {
    match Title(protocol, userInput)
    case Ok(title) => Ok(CreateEntry(title, EntryData(protocol, userInput)))
    case Err(e) => Err(e)
  }

  /** The connection errors the second step reports on its form instead of
      raising: remote errors and OS errors. */
  predicate CannotConnect(e: LibraryError)
  {
    e.RemoteError? || e.OsError?
  }

  class CoolmasterConfigFlow {
    /** `self.protocol`; `None` while the attribute has not been set. */
    var protocol: Option<Value>

    constructor ()
      ensures protocol == None
    {
      protocol := None;
    }

    /** The second form for the stored protocol, with the given errors. */
    function ProtocolForm(errors: map<string, string>): (r: Result<FlowResult>)
      reads this
      ensures protocol.None? ==> r == Err(AttributeError("protocol"))
      ensures protocol.Some? ==> (r.Ok? <==> ProtocolSchema(protocol.value).Ok?)
      ensures r.Ok? ==> r.value == ShowForm("protocol", ProtocolSchema(protocol.value).value, errors)
      ensures protocol.Some? && r.Err? ==> r.error == ProtocolSchema(protocol.value).error
    {
      match protocol
      case None => Err(AttributeError("protocol"))
      case Some(p) =>
        match ProtocolSchema(p)
        case Ok(schema) => Ok(ShowForm("protocol", schema, errors))
        case Err(e) => Err(e)
    }

    /** `async_step_user`: without input, show the protocol picker; with
        input, remember the protocol and go on to the second step without
        input. An empty dict counts as no input. */
    method StepUser(userInput: map<string, Value>) returns (r: Result<FlowResult>)
      modifies this
      ensures userInput == map[] ==>
        r == Ok(ShowForm("user", UserSchema(), map[])) && protocol == old(protocol)
      ensures userInput != map[] && ConfProtocol !in userInput ==>
        r == Err(KeyError) && protocol == old(protocol)
      ensures userInput != map[] && ConfProtocol in userInput ==>
        protocol == Some(userInput[ConfProtocol]) && r == ProtocolForm(map[])
    {
      if userInput != map[] {
        if ConfProtocol !in userInput {
          return Err(KeyError);
        }
        protocol := Some(userInput[ConfProtocol]);
        r := StepProtocol(map[], None);
        return;
      }
      r := Ok(ShowForm("user", UserSchema(), map[]));
    }

    /** `async_step_protocol`: with input, build the transport from the
        stored protocol and the input and try to connect (`connect` is the
        connection's failure, if any); a remote or OS error re-shows the
        form with `cannot_connect`, success creates the entry. */
    method StepProtocol(userInput: map<string, Value>, connect: Option<LibraryError>) returns (r: Result<FlowResult>)
      ensures userInput == map[] ==> r == ProtocolForm(map[])
      ensures userInput != map[] && protocol.None? ==> r == Err(AttributeError("protocol"))
      ensures userInput != map[] && protocol.Some? ==>
        var transport := Integration.TransportFromConfig(EntryData(protocol.value, userInput));
        && (transport.Err? ==> r == Err(transport.error))
        && (transport.Ok? && connect.Some? && CannotConnect(connect.value) ==>
              r == ProtocolForm(map["base" := "cannot_connect"]))
        && (transport.Ok? && connect.Some? && !CannotConnect(connect.value) ==>
              r == Err(Raised(connect.value)))
        && (transport.Ok? && connect.None? ==> r == GetEntry(protocol.value, userInput))
    {
      var errors: map<string, string> := map[];
      if userInput != map[] {
        if protocol.None? {
          return Err(AttributeError("protocol"));
        }
        var configData := EntryData(protocol.value, userInput);
        var transport := Integration.TransportFromConfig(configData);
        if transport.Err? {
          return Err(transport.error);
        }
        if connect.Some? {
          if !CannotConnect(connect.value) {
            return Err(Raised(connect.value));
          }
          errors := errors["base" := "cannot_connect"];
          assert "base" in errors;
        }
        if errors == map[] {
          return GetEntry(protocol.value, userInput);
        }
      }
      r := ProtocolForm(errors);
    }
  }
}
