/** Values shared by every part of the proxy: errors, configuration records, target statuses. */
module Types {

  datatype Option<+T> = None | Some(value: T)

  datatype Result<+T> = Ok(value: T) | Err(error: ProxyError)

  datatype Unit = Unit

  /** A TCP port: `u16` in the source. */
  newtype Port = x: int | 0 <= x < 0x1_0000

  /** Nanoseconds on the monotone clock. */
  type Instant = nat

  const SECOND: nat := 1_000_000_000

  datatype IoKind = ConnectionRefused | ConnectionReset | ConnectionAborted | OtherKind

  /** The error variants the modelled code produces or inspects; message texts are dropped. */
  datatype ProxyError =
    | BackendNotFound(name: string)
    | ConfigIngestError(duplicate: Port)
    | BadAddressError(addr: string)
    | BindError(bindPort: Port, source: IoKind)
    | TargetResolutionError(poolPort: Port)
    | ConnectionError(port: Port)
    | ProxyStateError(counterPort: Port)
    | IoError(kind: IoKind)
    | TaskCancellation
    | DnsTransientError
    | DnsNxError

  datatype App = App(name: string, ports: seq<Port>, targets: seq<string>)

  datatype RawConfig = RawConfig(apps: seq<App>)

  /** Two stored variants for three logical states: up, cooling, drained. */
  datatype BackendStatus = Alive(coolUntil: Option<Instant>) | Drain

  datatype ConnectResult = Success | Failure

  ghost predicate Distinct<T(!new)>(s: seq<T>) {
    forall i, j :: 0 <= i < j < |s| ==> s[i] != s[j]
  }
}
