/**
  The interrupt-endpoint read-complete handler of the USB Bluetooth dongle
  driver: one invocation per received HCI event packet. It advances the
  controller bring-up chain, demotes to the non-SSP path when Secure Simple
  Pairing commands fail, and drives the child-device registry for
  connection requests, completed connections, disconnections and remote names.

  `Step` is the specification of one invocation on a value of the device
  context; `Controller.HandleEvent` is the same invocation written as the
  source does it, updating the context fields in place, and is proved to
  agree with `Step`.
 */
module Interrupt {
  import opened Hci

  /** Commands handed to the command encoder. */
  datatype Cmd =
    | Plain(op: Op)
    | DeleteStoredLinkKey(addr: BdAddr)
    | AcceptConnectionRequest(addr: BdAddr, role: bv8)
    | RemoteNameRequest(addr: BdAddr)

  /** Every call the handler makes to a collaborator, in the order it makes them. */
  datatype Action =
    | Send(cmd: Cmd)                              // HCI_Command_* encoder call
    | Purge                                       // empty child-list scan: every child is gone
    | AddPresent(addr: BdAddr)                    // WdfChildListAddOrUpdateChildDescriptionAsPresent
    | SetHandle(addr: BdAddr, handle: Handle)     // WireBusSetChildHandle
    | MarkMissing(addr: BdAddr)                   // WdfChildListUpdateChildDescriptionAsMissing
    | SetName(addr: BdAddr, name: seq<bv8>)       // WireBusSetChildRemoteName
    | SetType(addr: BdAddr, kind: DeviceType)     // WireBusSetChildDeviceType
    | InitOutput(addr: BdAddr)                    // WireBusInitChildOutputReport

  /**
    The device context fields the handler reads and writes, and the registry's
    handle table (which child owns which ACL handle), kept up to date by the
    registry calls above.
   */
  datatype Context = Context(
    started: bool,
    initialized: bool,
    disableSsp: bool,
    hciMajor: bv8,
    lmpMajor: bv8,
    hostAddr: BdAddr,
    bindings: map<Handle, BdAddr>)

  /** The zero-filled device context of a freshly added adapter. */
  const Initial: Context := Context(false, false, false, 0, 0, [0, 0, 0, 0, 0, 0], map[])

  /** The new context and the collaborator calls of one invocation. */
  datatype Outcome = Outcome(ctx: Context, actions: seq<Action>)

  /** Role parameter of Accept_Connection_Request: become master. */
  const AsMaster: bv8 := 0x00

  /** Controllers older than Bluetooth 2.0 + EDR (major version 3) are refused. */
  const MinMajor: bv8 := 3

  /**
    `buf` is the whole receive buffer and `n` the byte count transferred into
    it. The handler reads fixed offsets up to byte 11 whatever `n` is, and the
    remote-name scan may read byte `n`.
   */
  predicate Readable(buf: seq<bv8>, n: nat) {
    n == 0 ||
    (12 <= |buf| && n <= |buf| &&
     (buf[0] == RemoteNameRequestCompleteEvent && buf[2] == 0 ==> n < |buf|))
  }

  /** Command Complete return status (byte 5, section 7.7.14) is success. */
  predicate CompleteSucceeded(buf: seq<bv8>)
    requires 6 <= |buf|
  {
    buf[5] == 0
  }

  /** SSP is not supported: remember it and jump to Write_Scan_Enable. */
  function Demote(c: Context): (r: Outcome)
    ensures r.ctx.disableSsp && r.ctx.(disableSsp := c.disableSsp) == c
    ensures r.actions == [Send(Plain(WriteScanEnable))]
  {
    Outcome(c.(disableSsp := true), [Send(Plain(WriteScanEnable))])
  }

  function Issue(c: Context, op: Op): Outcome {
    Outcome(c, [Send(Plain(op))])
  }

  function Nothing(c: Context): Outcome {
    Outcome(c, [])
  }

  /** Every binding except those of `a`. */
  function Unbind(m: map<Handle, BdAddr>, a: BdAddr): (r: map<Handle, BdAddr>)
    ensures forall h :: h in r <==> h in m && m[h] != a
    ensures forall h :: h in r ==> r[h] == m[h]
  {
    map h | h in m && m[h] != a :: m[h]
  }

  /** `a` now owns `h`, and only `h`: a child holds one handle. */
  function Rebind(m: map<Handle, BdAddr>, h: Handle, a: BdAddr): (r: map<Handle, BdAddr>)
    ensures h in r && r[h] == a
    ensures forall g :: g in r && g != h ==> g in m && m[g] == r[g] && r[g] != a
    ensures forall g :: g in m && g != h && m[g] != a ==> g in r
  {
    Unbind(m, a)[h := a]
  }

  /** The successful Read_Local_Version_Info branch, with its version gate. */
  function StepVersion(c: Context, buf: seq<bv8>, ok: Action -> bool): (r: Outcome)
    requires 12 <= |buf|
    ensures |r.actions| == 1
    ensures r.ctx == c.(started := r.ctx.started, hciMajor := buf[6], lmpMajor := buf[9])
  {
    var c1 := c.(hciMajor := buf[6], lmpMajor := buf[9]);
    if buf[6] < MinMajor || buf[9] < MinMajor then
      var reset := Send(Plain(Reset));
      Outcome(if ok(reset) then c1.(started := false) else c1, [reset])
    else if c.disableSsp then Issue(c1, WriteScanEnable)
    else Issue(c1, WriteSimplePairingMode)
  }

  /** Command Complete: the bring-up chain, keyed on the opcode that completed. */
  function StepCommandComplete(c: Context, buf: seq<bv8>, ok: Action -> bool): (r: Outcome)
    requires 12 <= |buf|
    ensures |r.actions| <= 2
    ensures r.ctx.bindings == c.bindings || r.ctx.bindings == map[]
  {
    var success := CompleteSucceeded(buf);
    match OpOf(CompleteOpcode(buf))
    case None => Nothing(c)
    case Some(op) =>
      match op
      case Reset =>
        if success && !c.started then
          Outcome(c.(started := true, bindings := map[]), [Purge, Send(Plain(ReadBdAddr))])
        else Nothing(c)
      case ReadBdAddr =>
        if success then Issue(c.(hostAddr := AddrAt(buf, 6)), ReadBufferSize) else Nothing(c)
      case ReadBufferSize =>
        if success then Issue(c, ReadLocalVersionInfo) else Nothing(c)
      case ReadLocalVersionInfo =>
        if success then StepVersion(c, buf, ok) else Nothing(c)
      case WriteSimplePairingMode =>
        if success then Issue(c, WriteSimplePairingDebugMode) else Demote(c)
      case WriteSimplePairingDebugMode =>
        Issue(c, WriteAuthenticationEnable)
      case WriteAuthenticationEnable =>
        if success then Issue(c, SetEventMask) else Demote(c)
      case SetEventMask =>
        if success then Issue(c, WritePageTimeout) else Demote(c)
      case WritePageTimeout =>
        if success then Issue(c, WritePageScanActivity) else Nothing(c)
      case WritePageScanActivity =>
        if success then Issue(c, WritePageScanType) else Nothing(c)
      case WritePageScanType =>
        if success then Issue(c, WriteInquiryScanActivity) else Nothing(c)
      case WriteInquiryScanActivity =>
        if success then Issue(c, WriteInquiryScanType) else Nothing(c)
      case WriteInquiryScanType =>
        if success then Issue(c, WriteInquiryMode) else Nothing(c)
      case WriteInquiryMode =>
        if success then Issue(c, WriteClassOfDevice) else Nothing(c)
      case WriteClassOfDevice =>
        if success then Issue(c, WriteExtendedInquiryResponse) else Nothing(c)
      case WriteExtendedInquiryResponse =>
        if success then Issue(c, WriteLocalName) else Nothing(c)
      case WriteLocalName =>
        if success then Issue(c, WriteScanEnable) else Nothing(c)
      case WriteScanEnable =>
        if success then Nothing(c.(initialized := true)) else Nothing(c)
  }

  /** The commands whose failure means SSP is not supported. */
  predicate IsSspCommand(op: Op) {
    op == WriteSimplePairingMode || op == WriteAuthenticationEnable || op == SetEventMask
  }

  /** Command Status: only a failure (byte 2 nonzero) of an SSP command acts. */
  function StepCommandStatus(c: Context, buf: seq<bv8>): (r: Outcome)
    requires 12 <= |buf|
    ensures r == Nothing(c) || r == Demote(c)
  {
    var command := OpOf(StatusOpcode(buf));
    if buf[2] != 0 && command.Some? && IsSspCommand(command.value) then Demote(c)
    else Nothing(c)
  }

  /** Connection Request: add the child, forget its link key, accept; stop at the first failure. */
  function StepConnectionRequest(c: Context, buf: seq<bv8>, ok: Action -> bool): (r: Outcome)
    requires 12 <= |buf|
    ensures r.ctx == c && 1 <= |r.actions| <= 3 && r.actions[0] == AddPresent(buf[2..8])
  {
    var addr := AddrAt(buf, 2);
    var add := AddPresent(addr);
    var delete := Send(DeleteStoredLinkKey(addr));
    var accept := Send(AcceptConnectionRequest(addr, AsMaster));
    if !ok(add) then Outcome(c, [add])
    else if !ok(delete) then Outcome(c, [add, delete])
    else Outcome(c, [add, delete, accept])
  }

  /** Connection Complete: on success bind the handle to the address and ask for the name. */
  function StepConnectionComplete(c: Context, buf: seq<bv8>, ok: Action -> bool): (r: Outcome)
    requires 12 <= |buf|
    ensures r.ctx == c.(bindings := r.ctx.bindings)
  {
    if buf[2] == 0 then
      var h := HandleAt(buf);
      var addr := AddrAt(buf, 5);
      var bind := SetHandle(addr, h);
      Outcome(c.(bindings := if ok(bind) then Rebind(c.bindings, h, addr) else c.bindings),
              [bind, Send(RemoteNameRequest(addr))])
    else Nothing(c)
  }

  /** Disconnection Complete: on success mark the owner of the handle missing, if there is one. */
  function StepDisconnectionComplete(c: Context, buf: seq<bv8>, ok: Action -> bool): (r: Outcome)
    requires 12 <= |buf|
    ensures r.ctx == c.(bindings := r.ctx.bindings) && |r.actions| <= 1
    ensures forall h :: h in r.ctx.bindings ==> h in c.bindings && r.ctx.bindings[h] == c.bindings[h]
  {
    var h := HandleAt(buf);
    if buf[2] == 0 && h in c.bindings then
      var missing := MarkMissing(c.bindings[h]);
      Outcome(if ok(missing) then c.(bindings := Unbind(c.bindings, c.bindings[h])) else c, [missing])
    else Nothing(c)
  }

  /** The device-type call for a remote name, if its first byte names a type. */
  function TypeActions(addr: BdAddr, first: bv8): (r: seq<Action>)
    ensures DeviceTypeOf(first).None? <==> r == []
    ensures DeviceTypeOf(first).Some? ==> r == [SetType(addr, DeviceTypeOf(first).value)]
  {
    match DeviceTypeOf(first)
    case Some(t) => [SetType(addr, t)]
    case None => []
  }

  /** Remote Name Request Complete: store the name, classify, initialise the output report. */
  function StepRemoteNameComplete(c: Context, buf: seq<bv8>, n: nat): (r: Outcome)
    requires 12 <= |buf| && (buf[2] == 0 ==> n < |buf|)
    ensures r.ctx == c && (buf[2] == 0 <==> |r.actions| >= 2)
    ensures buf[2] != 0 ==> r.actions == []
  {
    if buf[2] == 0 then
      var addr := AddrAt(buf, 3);
      var length := NameLength(buf, n);
      Outcome(c, [SetName(addr, buf[9..9 + length])] + TypeActions(addr, buf[9]) + [InitOutput(addr)])
    else Nothing(c)
  }

  /**
    One invocation of the handler on `n` transferred bytes of `buf`. Only the
    two command events touch the flags, versions and host address; only
    Command Complete, Connection Complete and Disconnection Complete touch the
    handle table.
   */
  function Step(c: Context, buf: seq<bv8>, n: nat, ok: Action -> bool): (r: Outcome)
    requires Readable(buf, n)
    ensures r.ctx.(bindings := c.bindings) != c ==>
      n > 0 && (buf[0] == CommandCompleteEvent || buf[0] == CommandStatusEvent)
    ensures r.ctx.bindings != c.bindings ==>
      n > 0 && (buf[0] == CommandCompleteEvent || buf[0] == ConnectionCompleteEvent ||
                buf[0] == DisconnectionCompleteEvent)
  {
    if n == 0 then Nothing(c)
    else if buf[0] == CommandCompleteEvent then StepCommandComplete(c, buf, ok)
    else if buf[0] == CommandStatusEvent then StepCommandStatus(c, buf)
    else if buf[0] == ConnectionRequestEvent then StepConnectionRequest(c, buf, ok)
    else if buf[0] == ConnectionCompleteEvent then StepConnectionComplete(c, buf, ok)
    else if buf[0] == DisconnectionCompleteEvent then StepDisconnectionComplete(c, buf, ok)
    else if buf[0] == RemoteNameRequestCompleteEvent then StepRemoteNameComplete(c, buf, n)
    else Nothing(c)
  }

  /** The readers-failed callback: a failed read never stops the continuous reader. */
  function ReadersFailed(status: int, usbdStatus: int): (keepReading: bool)
    ensures keepReading
  {
    true
  }

  /**
    The adapter's device context, with the log of collaborator calls. The
    success of each call is the external result `ok(action)`.
   */
  class Controller {
    var started: bool
    var initialized: bool
    var disableSsp: bool
    var hciMajor: bv8
    var lmpMajor: bv8
    var hostAddr: BdAddr
    var bindings: map<Handle, BdAddr>
    var log: seq<Action>

    function State(): Context
      reads this
    {
      Context(started, initialized, disableSsp, hciMajor, lmpMajor, hostAddr, bindings)
    }

    constructor ()
      ensures State() == Initial && log == []
    {
      started, initialized, disableSsp := false, false, false;
      hciMajor, lmpMajor := 0, 0;
      hostAddr := [0, 0, 0, 0, 0, 0];
      bindings := map[];
      log := [];
    }

    /** Makes one collaborator call and returns whether it succeeded. */
    method Perform(a: Action, ok: Action -> bool) returns (success: bool)
      modifies this`log
      ensures log == old(log) + [a] && success == ok(a)
    {
      log := log + [a];
      success := ok(a);
    }

    /** WireShockEvtUsbInterruptPipeReadComplete */
    method HandleEvent(buf: seq<bv8>, n: nat, ok: Action -> bool)
      requires Readable(buf, n)
      modifies this
      ensures State() == Step(old(State()), buf, n, ok).ctx
      ensures log == old(log) + Step(old(State()), buf, n, ok).actions
    {
      if n == 0 {
        return;
      }
      var event := buf[0];
      if event == CommandCompleteEvent {
        OnCommandComplete(buf, ok);
      } else if event == CommandStatusEvent {
        OnCommandStatus(buf, ok);
      } else if event == ConnectionRequestEvent {
        OnConnectionRequest(buf, ok);
      } else if event == ConnectionCompleteEvent {
        OnConnectionComplete(buf, ok);
      } else if event == DisconnectionCompleteEvent {
        OnDisconnectionComplete(buf, ok);
      } else if event == RemoteNameRequestCompleteEvent {
        OnRemoteNameComplete(buf, n, ok);
      }
    }

    /** SSP is not supported: set DisableSSP and jump to Write_Scan_Enable. */
    method DisableSsp(ok: Action -> bool)
      modifies this
      ensures State() == Demote(old(State())).ctx
      ensures log == old(log) + Demote(old(State())).actions
    {
      disableSsp := true;
      var status := Perform(Send(Plain(WriteScanEnable)), ok);
    }

    /** The successful Read_Local_Version_Info branch: record the versions, then the version gate. */
    method OnVersionInfo(buf: seq<bv8>, ok: Action -> bool)
      requires 12 <= |buf|
      modifies this
      ensures State() == StepVersion(old(State()), buf, ok).ctx
      ensures log == old(log) + StepVersion(old(State()), buf, ok).actions
    {
      hciMajor := buf[6];
      lmpMajor := buf[9];
      var status;
      if hciMajor < MinMajor || lmpMajor < MinMajor {
        status := Perform(Send(Plain(Reset)), ok);
        if status {
          started := false;
        }
      } else if disableSsp {
        status := Perform(Send(Plain(WriteScanEnable)), ok);
      } else {
        status := Perform(Send(Plain(WriteSimplePairingMode)), ok);
      }
    }

    method OnCommandStatus(buf: seq<bv8>, ok: Action -> bool)
      requires 12 <= |buf|
      modifies this
      ensures State() == StepCommandStatus(old(State()), buf).ctx
      ensures log == old(log) + StepCommandStatus(old(State()), buf).actions
    {
      var command := OpOf(StatusOpcode(buf));
      if buf[2] != 0 && command.Some? && IsSspCommand(command.value) {
        DisableSsp(ok);
      }
    }

    method OnCommandComplete(buf: seq<bv8>, ok: Action -> bool)
      requires 12 <= |buf|
      modifies this
      ensures State() == StepCommandComplete(old(State()), buf, ok).ctx
      ensures log == old(log) + StepCommandComplete(old(State()), buf, ok).actions
    {
      var success := CompleteSucceeded(buf);
      var status := false;
      match OpOf(CompleteOpcode(buf))
      case None =>
      case Some(command) =>
        match command
        case Reset =>
          if success && !started {
            status := Perform(Purge, ok);
            bindings := map[];
            started := true;
            status := Perform(Send(Plain(ReadBdAddr)), ok);
          }
        case ReadBdAddr =>
          if success {
            hostAddr := buf[6..12];
            status := Perform(Send(Plain(ReadBufferSize)), ok);
          }
        case ReadBufferSize =>
          if success {
            status := Perform(Send(Plain(ReadLocalVersionInfo)), ok);
          }
        case ReadLocalVersionInfo =>
          if success {
            OnVersionInfo(buf, ok);
          }
        case WriteSimplePairingMode =>
          if success {
            status := Perform(Send(Plain(WriteSimplePairingDebugMode)), ok);
          } else {
            DisableSsp(ok);
          }
        case WriteSimplePairingDebugMode =>
          status := Perform(Send(Plain(WriteAuthenticationEnable)), ok);
        case WriteAuthenticationEnable =>
          if success {
            status := Perform(Send(Plain(SetEventMask)), ok);
          } else {
            DisableSsp(ok);
          }
        case SetEventMask =>
          if success {
            status := Perform(Send(Plain(WritePageTimeout)), ok);
          } else {
            DisableSsp(ok);
          }
        case WritePageTimeout =>
          if success { status := Perform(Send(Plain(WritePageScanActivity)), ok); }
        case WritePageScanActivity =>
          if success { status := Perform(Send(Plain(WritePageScanType)), ok); }
        case WritePageScanType =>
          if success { status := Perform(Send(Plain(WriteInquiryScanActivity)), ok); }
        case WriteInquiryScanActivity =>
          if success { status := Perform(Send(Plain(WriteInquiryScanType)), ok); }
        case WriteInquiryScanType =>
          if success { status := Perform(Send(Plain(WriteInquiryMode)), ok); }
        case WriteInquiryMode =>
          if success { status := Perform(Send(Plain(WriteClassOfDevice)), ok); }
        case WriteClassOfDevice =>
          if success { status := Perform(Send(Plain(WriteExtendedInquiryResponse)), ok); }
        case WriteExtendedInquiryResponse =>
          if success { status := Perform(Send(Plain(WriteLocalName)), ok); }
        case WriteLocalName =>
          if success { status := Perform(Send(Plain(WriteScanEnable)), ok); }
        case WriteScanEnable =>
          if success { initialized := true; }
    }

    method OnConnectionRequest(buf: seq<bv8>, ok: Action -> bool)
      requires 12 <= |buf|
      modifies this
      ensures State() == StepConnectionRequest(old(State()), buf, ok).ctx
      ensures log == old(log) + StepConnectionRequest(old(State()), buf, ok).actions
    {
      var clientAddr := AddrAt(buf, 2);
      var status := Perform(AddPresent(clientAddr), ok);
      if !status {
        return;
      }
      status := Perform(Send(DeleteStoredLinkKey(clientAddr)), ok);
      if !status {
        return;
      }
      status := Perform(Send(AcceptConnectionRequest(clientAddr, AsMaster)), ok);
    }

    method OnConnectionComplete(buf: seq<bv8>, ok: Action -> bool)
      requires 12 <= |buf|
      modifies this
      ensures State() == StepConnectionComplete(old(State()), buf, ok).ctx
      ensures log == old(log) + StepConnectionComplete(old(State()), buf, ok).actions
    {
      if buf[2] == 0 {
        var clientHandle := Handle(buf[3], buf[4] | HandleTag);
        var clientAddr := AddrAt(buf, 5);
        var status := Perform(SetHandle(clientAddr, clientHandle), ok);
        if status {
          bindings := Rebind(bindings, clientHandle, clientAddr);
        }
        status := Perform(Send(RemoteNameRequest(clientAddr)), ok);
      }
    }

    method OnDisconnectionComplete(buf: seq<bv8>, ok: Action -> bool)
      requires 12 <= |buf|
      modifies this
      ensures State() == StepDisconnectionComplete(old(State()), buf, ok).ctx
      ensures log == old(log) + StepDisconnectionComplete(old(State()), buf, ok).actions
    {
      if buf[2] == 0 {
        var clientHandle := Handle(buf[3], buf[4] | HandleTag);
        if clientHandle in bindings {
          var clientAddr := bindings[clientHandle];
          var status := Perform(MarkMissing(clientAddr), ok);
          if status {
            bindings := Unbind(bindings, clientAddr);
          }
        }
      }
    }

    method OnRemoteNameComplete(buf: seq<bv8>, n: nat, ok: Action -> bool)
      requires 12 <= |buf| && (buf[2] == 0 ==> n < |buf|)
      modifies this
      ensures State() == StepRemoteNameComplete(old(State()), buf, n).ctx
      ensures log == old(log) + StepRemoteNameComplete(old(State()), buf, n).actions
    {
      if buf[2] == 0 {
        var clientAddr := AddrAt(buf, 3);
        var length := ScanNameLength(buf, n);
        var status := Perform(SetName(clientAddr, buf[9..9 + length]), ok);
        var kind := DeviceTypeOf(buf[9]);
        if kind.Some? {
          status := Perform(SetType(clientAddr, kind.value), ok);
        }
        status := Perform(InitOutput(clientAddr), ok);
      }
    }
  }
}
