/** Vocabulary shared by the whole integration: optional values, the
    exceptions the integration raises or lets escape (as error values),
    loosely typed configuration values, the integration's constant names,
    and two small list/string helpers the source gets from Python itself. */
module Common {

  datatype Option<+T> = None | Some(value: T)

  /** Exceptions raised by the pycoolmasternet_ng library or the operating
      system while talking to the gateway. `RemoteError(true)` is the
      library's unknown-command error, a kind of remote error. */
  datatype LibraryError =
    | OsError
    | RemoteError(unknownCommand: bool)
    | OtherException

  /** Errors that escape an operation of the integration. */
  datatype Error =
    | KeyError                             // a dict lookup `d[k]` on a missing key
    | ValueError(message: string)
    | TypeError                            // `str + int` and the like
    | AttributeError(name: string)         // reading an attribute never assigned
    | UpdateFailed(cause: LibraryError)    // the coordinator's translated failure
    | ConfigEntryNotReady
    | Raised(cause: LibraryError)          // a library exception that propagates unchanged

  datatype Result<+T> = Ok(value: T) | Err(error: Error)

  /** A value of a config entry's `data` dict or of a form's `user_input`. */
  datatype Value = Str(s: string) | Int(i: int)

  /** Python truthiness of a value (`if port := ...`). */
  predicate Truthy(v: Value)
  {
    match v
    case Str(s) => s != ""
    case Int(i) => i != 0
  }

  /** Truthiness of `d.get(k)`: a missing key gives None, which is falsy. */
  predicate TruthyEntry(d: map<string, Value>, k: string)
  {
    k in d && Truthy(d[k])
  }

  /** `str(v)` / `f"{v}"`. */
  function Render(v: Value): string
  {
    match v
    case Str(s) => s
    case Int(i) => IntToDecimal(i)
  }

  /** `s.startswith(prefix)`. */
  predicate StartsWith(s: string, prefix: string)
  {
    |prefix| <= |s| && s[..|prefix|] == prefix
  }

  // ---------------------------------------------------------------------------
  // Constants of the integration (const.py and the Home Assistant keys it uses)

  const Domain := "coolmaster_ng"
  const DataCoordinator := "coordinator"
  const ConfProtocol := "protocol"
  const ConfHost := "host"
  const ConfPort := "port"
  const ConfSerialUrl := "serial_url"
  const ConfSerialBaud := "device_baudrate"
  const DefaultPort := 10102
  const DefaultBaudRate := 9600
  const ProtocolSerial := "serial"
  const ProtocolSocket := "socket"

  /** Device information handed to the device registry. */
  datatype DeviceInfo = DeviceInfo(
    identifiers: set<(string, string)>,
    manufacturer: string,
    name: Option<string>,
    viaDevice: (string, string))

  // ---------------------------------------------------------------------------
  // Decimal rendering of integers, as Python's `str(int)` does it

  predicate IsDigit(c: char) { '0' <= c <= '9' }

  function DigitChar(d: nat): (c: char)
    requires d < 10
    ensures IsDigit(c) && c as int - '0' as int == d
  {
    ('0' as int + d) as char
  }

  function NatToDecimal(n: nat): (r: string)
    ensures |r| > 0
    ensures forall i :: 0 <= i < |r| ==> IsDigit(r[i])
    ensures r[0] == '0' ==> r == "0"
    decreases n
  {
    if n < 10 then [DigitChar(n)] else NatToDecimal(n / 10) + [DigitChar(n % 10)]
  }

  function IntToDecimal(i: int): (r: string)
  {
    if i < 0 then "-" + NatToDecimal(-i) else NatToDecimal(i)
  }

  // ---------------------------------------------------------------------------
  // `[table[x] for x in xs if x in table]`

  function Project<K, V(==)>(table: map<K, V>, xs: seq<K>): (r: seq<V>)
    ensures |r| <= |xs|
    ensures forall v :: v in r ==> v in table.Values
  {
    if xs == [] then []
    else (if xs[0] in table then [table[xs[0]]] else []) + Project(table, xs[1..])
  }

  /** The projection of a concatenation is the concatenation of the
      projections: the projection keeps the order of `xs`. */
  lemma {:induction false} ProjectAppend<K, V>(table: map<K, V>, xs: seq<K>, ys: seq<K>)
    ensures Project(table, xs + ys) == Project(table, xs) + Project(table, ys)
  {
    if xs == [] {
      assert xs + ys == ys;
    } else {
      assert (xs + ys)[0] == xs[0] && (xs + ys)[1..] == xs[1..] + ys;
      ProjectAppend(table, xs[1..], ys);
    }
  }

  /** A value is offered exactly when some element of `xs` maps to it. */
  lemma {:induction false} ProjectMembership<K, V>(table: map<K, V>, xs: seq<K>, v: V)
    ensures v in Project(table, xs) <==> exists i :: 0 <= i < |xs| && xs[i] in table && table[xs[i]] == v
  {
    if xs != [] {
      ProjectMembership(table, xs[1..], v);
      if exists i :: 0 <= i < |xs[1..]| && xs[1..][i] in table && table[xs[1..][i]] == v {
        var i :| 0 <= i < |xs[1..]| && xs[1..][i] in table && table[xs[1..][i]] == v;
        assert xs[i + 1] == xs[1..][i];
      }
      if exists i :: 0 <= i < |xs| && xs[i] in table && table[xs[i]] == v {
        var i :| 0 <= i < |xs| && xs[i] in table && table[xs[i]] == v;
        if i > 0 {
          assert xs[1..][i - 1] == xs[i];
        }
      }
    }
  }

  /** Nothing is dropped when every element is a key of the table. */
  lemma {:induction false} ProjectTotal<K, V>(table: map<K, V>, xs: seq<K>)
    requires forall i :: 0 <= i < |xs| ==> xs[i] in table
    ensures |Project(table, xs)| == |xs|
    ensures forall i :: 0 <= i < |xs| ==> Project(table, xs)[i] == table[xs[i]]
  {
    if xs != [] {
      ProjectTotal(table, xs[1..]);
    }
  }

  /** `rev` is `{v: k for k, v in fwd.items()}` for an injective `fwd`. */
  ghost predicate InverseOf<K, V>(rev: map<V, K>, fwd: map<K, V>)
  {
    && rev.Keys == fwd.Values
    && (forall k :: k in fwd ==> fwd[k] in rev && rev[fwd[k]] == k)
  }

  /** No two keys of `m` map to the same value. */
  ghost predicate Injective<K, V>(m: map<K, V>)
  {
    forall k, k' :: k in m && k' in m && k != k' ==> m[k] != m[k']
  }

  /** The number of elements of `xs` equal to `x`. */
  function Count<T(==)>(xs: seq<T>, x: T): nat
  {
    if xs == [] then 0 else (if xs[0] == x then 1 else 0) + Count(xs[1..], x)
  }

  lemma {:induction false} CountAbsent<T>(xs: seq<T>, x: T)
    requires x !in xs
    ensures Count(xs, x) == 0
  {
    if xs != [] {
      CountAbsent(xs[1..], x);
    }
  }

  lemma {:induction false} CountAppend<T>(xs: seq<T>, ys: seq<T>, x: T)
    ensures Count(xs + ys, x) == Count(xs, x) + Count(ys, x)
  {
    if xs == [] {
      assert xs + ys == ys;
    } else {
      assert (xs + ys)[0] == xs[0] && (xs + ys)[1..] == xs[1..] + ys;
      CountAppend(xs[1..], ys, x);
    }
  }
}
