/**
 * The bus protocol surface of the broker: the `StatusUpdate` signal, the three
 * methods of `com.coreos.update1.Manager`, and the five-value status payload both
 * the signal and the `GetStatus` reply carry.
 */
module Server {
  import opened Wrappers
  import opened Status
  import opened Clock
  import opened Indications

  const BusName: string := "com.coreos.update1"
  const ObjectPath: string := "/com/coreos/update1"
  const InterfaceName: string := "com.coreos.update1.Manager"
  const SignalName: string := "StatusUpdate"
  /** The error name `MethodErr::failed` replies with. */
  const ErrorFailed: string := "org.freedesktop.DBus.Error.Failed"
  const NotImplemented: string := "Not implemented"

  /** D-Bus argument types used by the interface: `x` (i64), `d` (f64) and `s` (string). */
  datatype ArgType = Int64 | Double | Str

  datatype Arg = I64(i: int) | F64(f: real) | S(s: string)

  function TypeOf(a: Arg): ArgType
  {
    match a
    case I64(_) => Int64
    case F64(_) => Double
    case S(_) => Str
  }

  /** The types of a message body, argument by argument. */
  function Signature(args: seq<Arg>): (types: seq<ArgType>)
    ensures |types| == |args|
    ensures forall i | 0 <= i < |args| :: types[i] == TypeOf(args[i])
  {
    seq(|args|, i requires 0 <= i < |args| => TypeOf(args[i]))
  }

  /** The types of a declared argument list. */
  function DeclaredTypes(decl: seq<(string, ArgType)>): (types: seq<ArgType>)
    ensures |types| == |decl|
    ensures forall i | 0 <= i < |decl| :: types[i] == decl[i].1
  {
    seq(|decl|, i requires 0 <= i < |decl| => decl[i].1)
  }

  /** The arguments declared for the `StatusUpdate` signal. */
  const StatusUpdateArgs: seq<(string, ArgType)> :=
    [("last_checked_time", Int64), ("progress", Double), ("current_operation", Str),
     ("new_version", Str), ("new_size", Int64)]

  /** The out-arguments declared for `GetStatus`. */
  const GetStatusOutArgs: seq<(string, ArgType)> :=
    [("last_checked_time", Int64), ("progress", Double), ("current_operation", Str),
     ("new_version", Str), ("new_size", Int64)]

  /** What a client reads out of a status payload. */
  datatype StatusReport = StatusReport(
    lastCheckedMillis: int,
    progress: real,
    currentOperation: UpdateStatus,
    newVersion: string,
    newSize: int)

  /** A client's reading of a snapshot: its fields, with the time in epoch milliseconds. */
  function Report(ind: UpdateStatusIndication): StatusReport
  {
    StatusReport(LastCheckedTimeMillis(ind), ind.progress, ind.currentOperation, ind.newVersion, ind.newSize)
  }

  predicate FitsI64(n: int)
  {
    I64Min <= n <= I64Max
  }

  /** How a client decodes a body of signature `xdssx`; none if the body has another shape. */
  function DecodeStatus(args: seq<Arg>): (r: Option<StatusReport>)
    ensures r.Some? ==> Signature(args) == DeclaredTypes(StatusUpdateArgs)
  {
    if && |args| == 5
       && args[0].I64? && args[1].F64? && args[2].S? && args[3].S? && args[4].I64?
       && ParseWireName(args[2].s).Some?
    then
      Some(StatusReport(args[0].i, args[1].f, ParseWireName(args[2].s).value, args[3].s, args[4].i))
    else
      None
  }

  /**
   * The five values appended to both the `GetStatus` reply and the `StatusUpdate`
   * signal. The body has the declared types of both, every integer fits an `i64`,
   * and a client decodes the snapshot's report from it.
   */
  function StatusArgs(ind: UpdateStatusIndication): (args: seq<Arg>)
    ensures Signature(args) == DeclaredTypes(GetStatusOutArgs) == DeclaredTypes(StatusUpdateArgs)
    ensures forall a | a in args && a.I64? :: FitsI64(a.i)
    ensures DecodeStatus(args) == Some(Report(ind))
  {
    WireNameRoundTrip(ind.currentOperation);
    [I64(LastCheckedTimeMillis(ind)), F64(ind.progress), S(WireName(ind.currentOperation)),
     S(ind.newVersion), I64(ind.newSize)]
  }

  /** A signal as sent on the bus: emitting object, interface, member and body. */
  datatype SignalMessage = SignalMessage(path: string, iface: string, member: string, args: seq<Arg>)

  /** `DBusUpdateIndicator::status_changed`: the `StatusUpdate` signal broadcast for a snapshot. */
  function StatusChanged(ind: UpdateStatusIndication): (msg: SignalMessage)
    ensures msg.path == ObjectPath && msg.iface == InterfaceName && msg.member == SignalName
    ensures DecodeStatus(msg.args) == Some(Report(ind))
  {
    SignalMessage(ObjectPath, InterfaceName, SignalName, StatusArgs(ind))
  }

  /**
   * One broadcast attempt: the signal and whether the send succeeded. A failed send
   * is only logged; the broadcast still completes normally.
   */
  datatype Emission = Emission(signal: SignalMessage, delivered: bool)

  function Broadcast(ind: UpdateStatusIndication, sendOk: bool): (e: Emission)
    ensures e.signal == StatusChanged(ind)
    ensures e.delivered <==> sendOk
  {
    Emission(StatusChanged(ind), sendOk)
  }

  /** A method call as addressed on the bus. */
  datatype MethodCall = MethodCall(path: string, iface: string, member: string)

  /**
   * An inbound call with what answering it would read: whether the sentinel file
   * exists at that moment, the clock and the release.
   */
  datatype Inbound = Inbound(call: MethodCall, sentinelPresent: bool, env: Env)

  /** What the service does with an inbound message. */
  datatype Handling =
    | Reply(args: seq<Arg>)                     // a method return with this body
    | ErrorReply(name: string, message: string)  // an error return
    | Unhandled                                  // passed on to the server loop, which logs it

  predicate AddressedToManager(c: MethodCall)
  {
    c.path == ObjectPath && c.iface == InterfaceName
  }

  /** The method handlers registered on the object tree. */
  function Handle(m: Inbound): (h: Handling)
    ensures h.Reply? <==> AddressedToManager(m.call) && m.call.member == "GetStatus"
    ensures h.Reply? ==> h.args == StatusChanged(FromPath(m.sentinelPresent, m.env)).args
    ensures h.ErrorReply? <==> AddressedToManager(m.call) && m.call.member in {"AttemptUpdate", "ResetStatus"}
    ensures h.ErrorReply? ==> h.name == ErrorFailed && h.message == NotImplemented
  {
    if !AddressedToManager(m.call) then Unhandled
    else if m.call.member == "GetStatus" then Reply(StatusArgs(FromPath(m.sentinelPresent, m.env)))
    else if m.call.member == "AttemptUpdate" then ErrorReply(ErrorFailed, NotImplemented)
    else if m.call.member == "ResetStatus" then ErrorReply(ErrorFailed, NotImplemented)
    else Unhandled
  }

  /**
   * `GetStatus` re-checks the file at call time: the reply reports a reboot as needed
   * exactly when the sentinel file exists, and carries the declared five-value body.
   */
  lemma GetStatusReportsSentinel(m: Inbound)
    requires AddressedToManager(m.call) && m.call.member == "GetStatus"
    ensures Signature(Handle(m).args) == DeclaredTypes(GetStatusOutArgs)
    ensures DecodeStatus(Handle(m).args).Some?
    ensures DecodeStatus(Handle(m).args).value.currentOperation == UpdatedNeedReboot <==> m.sentinelPresent
    ensures DecodeStatus(Handle(m).args).value.progress == 0.0
    ensures DecodeStatus(Handle(m).args).value.newSize == 0
  {
    var ind := FromPath(m.sentinelPresent, m.env);
    assert Handle(m).args == StatusArgs(ind);
  }

  /** The signal and the `GetStatus` reply declare the same five arguments, in the same order. */
  lemma SignalMatchesReplyDeclaration()
    ensures StatusUpdateArgs == GetStatusOutArgs
    ensures DeclaredTypes(StatusUpdateArgs) == [Int64, Double, Str, Str, Int64]
  {
  }
}
