/**
  Properties of the interrupt handler: what one event does to the device
  context and which collaborator calls it makes, and what a sequence of
  events does (the whole bring-up chain, the permanence of the SSP demotion,
  a connection followed by its disconnection).
 */
module InterruptProperties {
  import opened Hci
  import opened Interrupt

  /** One received transfer, with the external results of the calls made while handling it. */
  datatype Transfer = Transfer(buf: seq<bv8>, n: nat, ok: Action -> bool)

  predicate AllReadable(ts: seq<Transfer>) {
    forall i :: 0 <= i < |ts| ==> Readable(ts[i].buf, ts[i].n)
  }

  /** The invocations of the handler on `ts`, one after the other. */
  function Run(c: Context, ts: seq<Transfer>): Outcome
    requires AllReadable(ts)
    decreases |ts|
  {
    if ts == [] then Nothing(c)
    else
      var first := Step(c, ts[0].buf, ts[0].n, ts[0].ok);
      var rest := Run(first.ctx, ts[1..]);
      Outcome(rest.ctx, first.actions + rest.actions)
  }

  /** A nonempty transfer holding a Command Complete event for `op`. */
  predicate IsComplete(buf: seq<bv8>, n: nat, op: Op) {
    0 < n && Readable(buf, n) && buf[0] == CommandCompleteEvent && CompleteOpcode(buf) == Opcode(op)
  }

  /** A nonempty transfer holding a Command Status event for `op`. */
  predicate IsStatus(buf: seq<bv8>, n: nat, op: Op) {
    0 < n && Readable(buf, n) && buf[0] == CommandStatusEvent && StatusOpcode(buf) == Opcode(op)
  }

  /** A failure of an SSP command, reported by Command Complete or by Command Status. */
  predicate SspFailure(buf: seq<bv8>, n: nat, op: Op) {
    IsSspCommand(op) &&
    ((IsComplete(buf, n, op) && !CompleteSucceeded(buf)) || (IsStatus(buf, n, op) && buf[2] != 0))
  }

  predicate IsEvent(buf: seq<bv8>, n: nat, code: bv8) {
    0 < n && Readable(buf, n) && buf[0] == code
  }

  /** A Command Complete transfer for `op` is handled by the Command Complete branch, on `op`. */
  lemma CompleteDispatch(c: Context, buf: seq<bv8>, n: nat, ok: Action -> bool, op: Op)
    requires IsComplete(buf, n, op)
    ensures OpOf(CompleteOpcode(buf)) == Some(op)
    ensures Step(c, buf, n, ok) == StepCommandComplete(c, buf, ok)
  {
  }

  // ---------------------------------------------------------------------
  // Event decoding

  /** The opcode bytes of a Command Complete event identify the command. */
  lemma {:induction false} CompleteOpcodeIdentifies(buf: seq<bv8>, op: Op)
    requires 5 <= |buf|
    ensures buf[3] == (Opcode(op) & 0xFF) as bv8 && buf[4] == (Opcode(op) >> 8) as bv8
            <==> OpOf(CompleteOpcode(buf)) == Some(op)
  {
    var w := Le16(buf[3], buf[4]);
    if OpOf(w) == Some(op) {
      assert w == Opcode(op);
    }
    if buf[3] == (Opcode(op) & 0xFF) as bv8 && buf[4] == (Opcode(op) >> 8) as bv8 {
      Le16Inverse(Opcode(op));
    }
  }

  /** Splitting a 16-bit field into its bytes and joining them again gives it back. */
  lemma Le16Inverse(w: bv16)
    ensures Le16((w & 0xFF) as bv8, (w >> 8) as bv8) == w
  {
  }

  /** Both connection events derive the same handle from the same two bytes, and the tag bit makes bit 5 of the high byte irrelevant. */
  lemma SameHandle(b1: seq<bv8>, b2: seq<bv8>)
    requires 5 <= |b1| && 5 <= |b2|
    ensures HandleAt(b1) == HandleAt(b2) <==> b1[3] == b2[3] && b1[4] | HandleTag == b2[4] | HandleTag
  {
  }

  /** A high byte that already carries the tag is kept as it is. */
  lemma TaggedHandleKept(buf: seq<bv8>)
    requires 5 <= |buf| && buf[4] & HandleTag == HandleTag
    ensures HandleAt(buf) == Handle(buf[3], buf[4])
  {
  }

  /** Every recognised type has a letter, and the letter gives it back. */
  lemma TypeLetterRoundTrip(t: DeviceType)
    ensures DeviceTypeOf(TypeLetter(t)) == Some(t)
  {
  }

  /** When the first null byte of the name field is at `p`, the length counts it: the name ends with that null. */
  lemma FirstNullLength(buf: seq<bv8>, n: nat, p: nat)
    requires 12 <= |buf| && n < |buf|
    requires 9 <= p < n && buf[p] == 0
    requires forall j :: 9 <= j < p ==> buf[j] != 0
    ensures NameLength(buf, n) == p - 8
    ensures buf[9..9 + NameLength(buf, n)][NameLength(buf, n) - 1] == 0
  {
    var length := NameLength(buf, n);
    assert 8 + length <= p;
    assert p <= 8 + length;
  }

  /** Without a null byte among bytes 9 to n - 1, the name runs up to and includes byte `n`. */
  lemma UnterminatedNameReadsByteN(buf: seq<bv8>, n: nat)
    requires 12 <= |buf| && 9 <= n < |buf|
    requires forall j :: 9 <= j < n ==> buf[j] != 0
    ensures NameLength(buf, n) == n - 8
    ensures 9 + NameLength(buf, n) == n + 1
  {
    var length := NameLength(buf, n);
    assert n <= 8 + length;
  }

  /** "Wireless Controller" followed by a null byte: length 20 (the null included), a DualShock 4. */
  lemma WirelessControllerName(buf: seq<bv8>, n: nat)
    requires 28 <= n < |buf|
    requires buf[9..29] == [0x57, 0x69, 0x72, 0x65, 0x6C, 0x65, 0x73, 0x73, 0x20, 0x43,
                            0x6F, 0x6E, 0x74, 0x72, 0x6F, 0x6C, 0x6C, 0x65, 0x72, 0x00]
    ensures NameLength(buf, n) == 20
    ensures DeviceTypeOf(buf[9]) == Some(Ps4DualShock)
  {
    forall j | 9 <= j < 28 ensures buf[j] != 0 {
      assert buf[j] == buf[9..29][j - 9];
    }
    assert buf[28] == buf[9..29][19];
    if n == 28 {
      UnterminatedNameReadsByteN(buf, n);
    } else {
      FirstNullLength(buf, n, 28);
    }
    assert buf[9] == buf[9..29][0];
  }

  // ---------------------------------------------------------------------
  // One event

  /** A zero-length transfer changes nothing and calls nothing. */
  lemma ZeroLengthTransfer(c: Context, buf: seq<bv8>, ok: Action -> bool)
    ensures Step(c, buf, 0, ok) == Outcome(c, [])
  {
  }

  /** Reset completion: the first successful one purges the children, sets Started and issues Read_BD_ADDR; any other does nothing. */
  lemma ResetCompletion(c: Context, buf: seq<bv8>, n: nat, ok: Action -> bool)
    requires IsComplete(buf, n, Reset)
    ensures var o := Step(c, buf, n, ok);
      if CompleteSucceeded(buf) && !c.started then
        o.ctx == c.(started := true, bindings := map[]) && o.actions == [Purge, Send(Plain(ReadBdAddr))]
      else o == Outcome(c, [])
  {
  }

  /** Read_BD_ADDR completion stores bytes 6 to 11 as the host address and issues Read_Buffer_Size; failure does nothing. */
  lemma ReadBdAddrCompletion(c: Context, buf: seq<bv8>, n: nat, ok: Action -> bool)
    requires IsComplete(buf, n, ReadBdAddr)
    ensures var o := Step(c, buf, n, ok);
      if CompleteSucceeded(buf) then
        o.ctx == c.(hostAddr := buf[6..12]) && o.actions == [Send(Plain(ReadBufferSize))]
      else o == Outcome(c, [])
  {
  }

  /** Read_Buffer_Size completion issues Read_Local_Version_Info. */
  lemma ReadBufferSizeCompletion(c: Context, buf: seq<bv8>, n: nat, ok: Action -> bool)
    requires IsComplete(buf, n, ReadBufferSize)
    ensures Step(c, buf, n, ok) ==
      if CompleteSucceeded(buf) then Outcome(c, [Send(Plain(ReadLocalVersionInfo))]) else Outcome(c, [])
  {
  }

  /**
    Version gate: the versions come from bytes 6 and 9; a major version below 3
    issues exactly a Reset and clears Started only if that Reset was issued;
    otherwise Write_Scan_Enable follows when SSP is disabled and
    Write_Simple_Pairing_Mode when it is not. A failed Read_Local_Version_Info
    does nothing.
   */
  lemma VersionGate(c: Context, buf: seq<bv8>, n: nat, ok: Action -> bool)
    requires IsComplete(buf, n, ReadLocalVersionInfo)
    ensures var o := Step(c, buf, n, ok);
      !CompleteSucceeded(buf) ==> o == Outcome(c, [])
    ensures var o := Step(c, buf, n, ok);
      CompleteSucceeded(buf) ==>
      && o.ctx.hciMajor == buf[6] && o.ctx.lmpMajor == buf[9]
      && o.ctx.initialized == c.initialized && o.ctx.disableSsp == c.disableSsp
      && o.ctx.hostAddr == c.hostAddr && o.ctx.bindings == c.bindings
      && (if buf[6] < 3 || buf[9] < 3 then
            o.actions == [Send(Plain(Reset))] &&
            o.ctx.started == (c.started && !ok(Send(Plain(Reset))))
          else
            o.ctx.started == c.started &&
            o.actions == [Send(Plain(if c.disableSsp then WriteScanEnable else WriteSimplePairingMode))])
  {
    CompleteDispatch(c, buf, n, ok, ReadLocalVersionInfo);
  }

  /**
    SSP demotion: a failed Write_Simple_Pairing_Mode, Write_Authentication_Enable
    or Set_Event_Mask, reported by Command Complete or by Command Status, sets
    DisableSSP and issues exactly Write_Scan_Enable.
   */
  lemma SspDemotion(c: Context, buf: seq<bv8>, n: nat, ok: Action -> bool, op: Op)
    requires SspFailure(buf, n, op)
    ensures Step(c, buf, n, ok) == Outcome(c.(disableSsp := true), [Send(Plain(WriteScanEnable))])
  {
  }

  /** Successful SSP commands move on: pairing mode, debug mode, authentication, event mask, page timeout. */
  lemma SspChain(c: Context, buf: seq<bv8>, n: nat, ok: Action -> bool, op: Op)
    requires IsSspCommand(op) && IsComplete(buf, n, op) && CompleteSucceeded(buf)
    ensures Step(c, buf, n, ok) == Outcome(c, [Send(Plain(
      match op
      case WriteSimplePairingMode => WriteSimplePairingDebugMode
      case WriteAuthenticationEnable => SetEventMask
      case _ => WritePageTimeout))])
  {
  }

  /** Write_Simple_Pairing_Debug_Mode completion issues Write_Authentication_Enable whatever its status. */
  lemma DebugModeBestEffort(c: Context, buf: seq<bv8>, n: nat, ok: Action -> bool)
    requires IsComplete(buf, n, WriteSimplePairingDebugMode)
    ensures Step(c, buf, n, ok) == Outcome(c, [Send(Plain(WriteAuthenticationEnable))])
  {
  }

  /**
    A Command Status event that is not a failure of an SSP command never acts:
    neither a success, whatever the command, nor a failure of any other or an
    unknown command.
   */
  lemma StatusOtherwiseIgnored(c: Context, buf: seq<bv8>, n: nat, ok: Action -> bool)
    requires IsEvent(buf, n, CommandStatusEvent)
    requires forall op :: !SspFailure(buf, n, op)
    ensures Step(c, buf, n, ok) == Outcome(c, [])
  {
    var command := OpOf(StatusOpcode(buf));
    if buf[2] != 0 && command.Some? {
      assert !SspFailure(buf, n, command.value);
    }
  }

  /** Length of the bring-up chain, Reset to Write_Scan_Enable. */
  const ChainLength: nat := 18

  /** The bring-up chain: the command at position `k` of a fully successful bring-up. */
  function OpAt(k: nat): Op
    requires k < ChainLength
  {
    if k == 0 then Reset
    else if k == 1 then ReadBdAddr
    else if k == 2 then ReadBufferSize
    else if k == 3 then ReadLocalVersionInfo
    else if k == 4 then WriteSimplePairingMode
    else if k == 5 then WriteSimplePairingDebugMode
    else if k == 6 then WriteAuthenticationEnable
    else if k == 7 then SetEventMask
    else if k == 8 then WritePageTimeout
    else if k == 9 then WritePageScanActivity
    else if k == 10 then WritePageScanType
    else if k == 11 then WriteInquiryScanActivity
    else if k == 12 then WriteInquiryScanType
    else if k == 13 then WriteInquiryMode
    else if k == 14 then WriteClassOfDevice
    else if k == 15 then WriteExtendedInquiryResponse
    else if k == 16 then WriteLocalName
    else WriteScanEnable
  }

  /** Position of each command in the bring-up chain. */
  function Rank(op: Op): (k: nat)
    ensures k < ChainLength && OpAt(k) == op
  {
    match op
    case Reset => 0
    case ReadBdAddr => 1
    case ReadBufferSize => 2
    case ReadLocalVersionInfo => 3
    case WriteSimplePairingMode => 4
    case WriteSimplePairingDebugMode => 5
    case WriteAuthenticationEnable => 6
    case SetEventMask => 7
    case WritePageTimeout => 8
    case WritePageScanActivity => 9
    case WritePageScanType => 10
    case WriteInquiryScanActivity => 11
    case WriteInquiryScanType => 12
    case WriteInquiryMode => 13
    case WriteClassOfDevice => 14
    case WriteExtendedInquiryResponse => 15
    case WriteLocalName => 16
    case WriteScanEnable => 17
  }

  /** Each position holds a different command: `Rank` undoes `OpAt`. */
  lemma RankOfOpAt(k: nat)
    requires k < ChainLength
    ensures Rank(OpAt(k)) == k
  {
  }

  /** The command a successful completion of `op` issues next in the chain. */
  function Next(op: Op): Op
    requires op != WriteScanEnable
  {
    OpAt(Rank(op) + 1)
  }

  /** From Write_Page_Timeout to Write_Local_Name: success issues exactly the next command, failure nothing. */
  lemma FixedSuccessor(c: Context, buf: seq<bv8>, n: nat, ok: Action -> bool, op: Op)
    requires 8 <= Rank(op) < ChainLength - 1 && IsComplete(buf, n, op)
    ensures Step(c, buf, n, ok) ==
      if CompleteSucceeded(buf) then Outcome(c, [Send(Plain(Next(op)))]) else Outcome(c, [])
  {
    CompleteDispatch(c, buf, n, ok, op);
  }

  /** Write_Scan_Enable completion sets Initialized on success, and issues nothing. */
  lemma ScanEnableCompletion(c: Context, buf: seq<bv8>, n: nat, ok: Action -> bool)
    requires IsComplete(buf, n, WriteScanEnable)
    ensures Step(c, buf, n, ok) ==
      Outcome(if CompleteSucceeded(buf) then c.(initialized := true) else c, [])
  {
  }

  /** A Command Complete of a command outside the bring-up chain does nothing. */
  lemma OtherCompletionIgnored(c: Context, buf: seq<bv8>, n: nat, ok: Action -> bool)
    requires IsEvent(buf, n, CommandCompleteEvent) && OpOf(CompleteOpcode(buf)).None?
    ensures Step(c, buf, n, ok) == Outcome(c, [])
  {
  }

  /** No event ever sets DisableSSP false. */
  lemma DisableSspNeverCleared(c: Context, buf: seq<bv8>, n: nat, ok: Action -> bool)
    requires Readable(buf, n) && c.disableSsp
    ensures Step(c, buf, n, ok).ctx.disableSsp
  {
  }

  /** DisableSSP is newly set exactly by a failure of one of the three SSP commands. */
  lemma DisableSspSetOnlyBySspFailure(c: Context, buf: seq<bv8>, n: nat, ok: Action -> bool)
    requires Readable(buf, n) && !c.disableSsp
    ensures Step(c, buf, n, ok).ctx.disableSsp <==>
      exists op :: SspFailure(buf, n, op)
  {
    var o := Step(c, buf, n, ok);
    if o.ctx.disableSsp {
      if buf[0] == CommandCompleteEvent {
        var op := OpOf(CompleteOpcode(buf)).value;
        assert SspFailure(buf, n, op);
      } else {
        var op := OpOf(StatusOpcode(buf)).value;
        assert SspFailure(buf, n, op);
      }
    } else if op :| SspFailure(buf, n, op) {
      SspDemotion(c, buf, n, ok, op);
    }
  }

  /** No event clears Initialized. */
  lemma InitializedNeverCleared(c: Context, buf: seq<bv8>, n: nat, ok: Action -> bool)
    requires Readable(buf, n) && c.initialized
    ensures Step(c, buf, n, ok).ctx.initialized
  {
    if n > 0 && buf[0] == CommandCompleteEvent {
      assert Step(c, buf, n, ok) == StepCommandComplete(c, buf, ok);
    }
  }

  /** Initialized is newly set exactly by a successful Write_Scan_Enable completion. */
  lemma InitializedOnlyByScanEnable(c: Context, buf: seq<bv8>, n: nat, ok: Action -> bool)
    requires Readable(buf, n) && !c.initialized
    ensures Step(c, buf, n, ok).ctx.initialized <==>
      IsComplete(buf, n, WriteScanEnable) && CompleteSucceeded(buf)
  {
    if IsComplete(buf, n, WriteScanEnable) {
      ScanEnableCompletion(c, buf, n, ok);
    }
  }

  /**
    Connection Request: the address comes from bytes 2 to 7; the calls are
    add-as-present, Delete_Stored_Link_Key, Accept_Connection_Request as master,
    in that order, each made only if the one before succeeded; the context is unchanged.
   */
  lemma ConnectionRequestOrder(c: Context, buf: seq<bv8>, n: nat, ok: Action -> bool)
    requires IsEvent(buf, n, ConnectionRequestEvent)
    ensures var o := Step(c, buf, n, ok);
      var a := buf[2..8];
      var calls := [AddPresent(a), Send(DeleteStoredLinkKey(a)), Send(AcceptConnectionRequest(a, 0x00))];
      && o.ctx == c
      && 1 <= |o.actions| <= 3 && o.actions == calls[..|o.actions|]
      && (forall k :: 0 <= k < |o.actions| - 1 ==> ok(o.actions[k]))
      && (|o.actions| < 3 ==> !ok(o.actions[|o.actions| - 1]))
  {
  }

  /**
    Connection Complete: success hands the tagged handle to the child at the
    address in bytes 5 to 10 and requests its name; once the registry accepts
    the handle, the child owns that handle and no other. Failure does nothing.
   */
  lemma ConnectionCompleteBinds(c: Context, buf: seq<bv8>, n: nat, ok: Action -> bool)
    requires IsEvent(buf, n, ConnectionCompleteEvent)
    ensures var o := Step(c, buf, n, ok);
      var h := Handle(buf[3], buf[4] | 0x20);
      var a := buf[5..11];
      if buf[2] == 0 then
        && o.actions == [SetHandle(a, h), Send(RemoteNameRequest(a))]
        && o.ctx == c.(bindings := o.ctx.bindings)
        && (ok(SetHandle(a, h)) ==>
              && o.ctx.bindings == Rebind(c.bindings, h, a)
              && h in o.ctx.bindings && o.ctx.bindings[h] == a
              && forall g :: g in o.ctx.bindings && o.ctx.bindings[g] == a ==> g == h)
        && (!ok(SetHandle(a, h)) ==> o.ctx.bindings == c.bindings)
      else o == Outcome(c, [])
  {
  }

  /** A failed disconnection, or one of a handle nobody owns, makes no call and changes nothing. */
  lemma DisconnectIgnored(c: Context, buf: seq<bv8>, n: nat, ok: Action -> bool)
    requires IsEvent(buf, n, DisconnectionCompleteEvent)
    requires buf[2] != 0 || HandleAt(buf) !in c.bindings
    ensures Step(c, buf, n, ok) == Outcome(c, [])
  {
  }

  /** A successful disconnection of an owned handle marks exactly its owner missing. */
  lemma KnownHandleDisconnect(c: Context, buf: seq<bv8>, n: nat, ok: Action -> bool)
    requires IsEvent(buf, n, DisconnectionCompleteEvent) && buf[2] == 0 && HandleAt(buf) in c.bindings
    ensures var o := Step(c, buf, n, ok);
      var a := c.bindings[HandleAt(buf)];
      o.actions == [MarkMissing(a)] &&
      o.ctx.bindings == (if ok(MarkMissing(a)) then Unbind(c.bindings, a) else c.bindings) &&
      o.ctx == c.(bindings := o.ctx.bindings)
  {
  }

  /**
    Remote Name Request Complete: on success the name (from byte 9, of the
    scanned length) is stored for the address in bytes 3 to 8, the first byte
    sets the type when it is P, N, M or W, and the output report is always
    initialised last; on failure nothing happens.
   */
  lemma RemoteNameHandled(c: Context, buf: seq<bv8>, n: nat, ok: Action -> bool)
    requires IsEvent(buf, n, RemoteNameRequestCompleteEvent)
    ensures var o := Step(c, buf, n, ok);
      o.ctx == c &&
      if buf[2] == 0 then
        var a := buf[3..9];
        var length := NameLength(buf, n);
        && 1 <= length <= Max(1, n - 8)
        && (forall p :: 9 <= p < 8 + length ==> buf[p] != 0)
        && o.actions[0] == SetName(a, buf[9..9 + length])
        && o.actions[|o.actions| - 1] == InitOutput(a)
        && o.actions == [SetName(a, buf[9..9 + length])] +
             (match DeviceTypeOf(buf[9]) case Some(t) => [SetType(a, t)] case None => []) +
             [InitOutput(a)]
      else o.actions == []
  {
  }

  /** Events other than the six the handler acts on change nothing and call nothing. */
  lemma LogOnlyEventsIgnored(c: Context, buf: seq<bv8>, n: nat, ok: Action -> bool)
    requires 0 < n && Readable(buf, n)
    requires buf[0] !in {CommandCompleteEvent, CommandStatusEvent, ConnectionRequestEvent,
                         ConnectionCompleteEvent, DisconnectionCompleteEvent, RemoteNameRequestCompleteEvent}
    ensures Step(c, buf, n, ok) == Outcome(c, [])
  {
  }

  // ---------------------------------------------------------------------
  // Several events

  /** DisableSSP stays set through any sequence of events, restarts of the bring-up included. */
  lemma {:induction false} DisableSspPermanent(c: Context, ts: seq<Transfer>)
    requires AllReadable(ts) && c.disableSsp
    ensures Run(c, ts).ctx.disableSsp
    decreases |ts|
  {
    if ts != [] {
      DisableSspNeverCleared(c, ts[0].buf, ts[0].n, ts[0].ok);
      DisableSspPermanent(Step(c, ts[0].buf, ts[0].n, ts[0].ok).ctx, ts[1..]);
    }
  }

  /** Initialized stays set through any sequence of events. */
  lemma {:induction false} InitializedPermanent(c: Context, ts: seq<Transfer>)
    requires AllReadable(ts) && c.initialized
    ensures Run(c, ts).ctx.initialized
    decreases |ts|
  {
    if ts != [] {
      InitializedNeverCleared(c, ts[0].buf, ts[0].n, ts[0].ok);
      InitializedPermanent(Step(c, ts[0].buf, ts[0].n, ts[0].ok).ctx, ts[1..]);
    }
  }

  /** Transfer `t` is a successful Command Complete for `op`. */
  predicate CompletesOk(t: Transfer, op: Op) {
    IsComplete(t.buf, t.n, op) && CompleteSucceeded(t.buf)
  }

  /** A Read_Local_Version_Info return naming major versions 3 or more. */
  predicate VersionsSupported(t: Transfer) {
    12 <= |t.buf| && t.buf[6] >= 3 && t.buf[9] >= 3
  }

  /**
    One successful step along the chain, after Reset, with SSP enabled and a
    recent enough controller: every command issues its successor, and
    Write_Scan_Enable ends the chain.
   */
  lemma ChainStep(c: Context, t: Transfer, op: Op)
    requires op != Reset && CompletesOk(t, op)
    requires c.started && !c.disableSsp
    requires op == ReadLocalVersionInfo ==> VersionsSupported(t)
    ensures var o := Step(c, t.buf, t.n, t.ok);
      && o.ctx.started && !o.ctx.disableSsp
      && (op == WriteScanEnable ==> o.ctx.initialized && o.actions == [])
      && (op != WriteScanEnable ==> o.actions == [Send(Plain(Next(op)))])
  {
    CompleteDispatch(c, t.buf, t.n, t.ok, op);
  }

  /**
    Each transfer of `ts` successfully completes the command at the same
    place of the chain from position `k` on, and the Read_Local_Version_Info
    return among them names major versions 3 or more.
   */
  predicate FollowsChain(ts: seq<Transfer>, k: nat) {
    && k + |ts| == ChainLength
    && (forall j :: 0 <= j < |ts| ==> CompletesOk(ts[j], OpAt(k + j)))
    && (forall j :: 0 <= j < |ts| && k + j == Rank(ReadLocalVersionInfo) ==> VersionsSupported(ts[j]))
  }

  /** `actions` issues the commands of the chain after position `k`, in order. */
  predicate IssuesChainAfter(actions: seq<Action>, k: nat) {
    && k + 1 + |actions| == ChainLength
    && forall j :: 0 <= j < |actions| ==> actions[j] == Send(Plain(OpAt(k + 1 + j)))
  }

  /** A chain-following run splits into its first transfer and a run following the rest of the chain. */
  lemma FollowsChainTail(ts: seq<Transfer>, k: nat)
    requires FollowsChain(ts, k) && k + 1 < ChainLength
    ensures CompletesOk(ts[0], OpAt(k)) && (k == Rank(ReadLocalVersionInfo) ==> VersionsSupported(ts[0]))
    ensures FollowsChain(ts[1..], k + 1)
  {
    assert forall j :: 0 <= j < |ts[1..]| ==> ts[1..][j] == ts[j + 1];
  }

  /** Every transfer of a chain-following run is readable. */
  lemma FollowsChainReadable(ts: seq<Transfer>, k: nat)
    requires FollowsChain(ts, k)
    ensures AllReadable(ts)
  {
    forall j | 0 <= j < |ts| ensures Readable(ts[j].buf, ts[j].n) {
      assert CompletesOk(ts[j], OpAt(k + j));
    }
  }

  /** A run is its first invocation followed by the run of the rest. */
  lemma RunCons(c: Context, ts: seq<Transfer>)
    requires AllReadable(ts) && ts != []
    ensures AllReadable(ts[1..])
    ensures var first := Step(c, ts[0].buf, ts[0].n, ts[0].ok);
      var rest := Run(first.ctx, ts[1..]);
      Run(c, ts) == Outcome(rest.ctx, first.actions + rest.actions)
  {
    assert forall j :: 0 <= j < |ts[1..]| ==> ts[1..][j] == ts[j + 1];
  }

  /** Issuing the successor of position `k` and then the chain after it issues the chain after `k`. */
  lemma IssuesChainCons(actions: seq<Action>, k: nat)
    requires k + 1 < ChainLength && IssuesChainAfter(actions, k + 1)
    ensures IssuesChainAfter([Send(Plain(OpAt(k + 1)))] + actions, k)
  {
  }

  /**
    Following the chain from position `k` after Reset on a started adapter:
    the handler issues the rest of the chain in order and ends Initialized.
   */
  lemma {:induction false} ChainRun(c: Context, ts: seq<Transfer>, k: nat)
    requires 1 <= k < ChainLength && FollowsChain(ts, k)
    requires c.started && !c.disableSsp
    ensures AllReadable(ts)
    ensures var o := Run(c, ts);
      o.ctx.initialized && o.ctx.started && !o.ctx.disableSsp && IssuesChainAfter(o.actions, k)
    decreases ChainLength - k
  {
    FollowsChainReadable(ts, k);
    RunCons(c, ts);
    assert CompletesOk(ts[0], OpAt(k));
    RankOfOpAt(k);
    ChainStep(c, ts[0], OpAt(k));
    if k + 1 == ChainLength {
      assert ts[1..] == [];
    } else {
      FollowsChainTail(ts, k);
      var first := Step(c, ts[0].buf, ts[0].n, ts[0].ok);
      ChainRun(first.ctx, ts[1..], k + 1);
      IssuesChainCons(Run(first.ctx, ts[1..]).actions, k);
    }
  }

  /**
    Eighteen successful Command Complete events, one per bring-up command in
    chain order, on a controller of major version 3 or more with SSP available:
    the handler purges the children, issues the other seventeen commands in
    order and ends Initialized.
   */
  lemma BringUpReachesInitialized(c: Context, ts: seq<Transfer>)
    requires FollowsChain(ts, 0)
    requires !c.started && !c.disableSsp
    ensures AllReadable(ts)
    ensures var o := Run(c, ts);
      && o.ctx.initialized && o.ctx.started && !o.ctx.disableSsp
      && o.actions[0] == Purge && IssuesChainAfter(o.actions[1..], 0)
  {
    FollowsChainReadable(ts, 0);
    RunCons(c, ts);
    FollowsChainTail(ts, 0);
    ResetCompletion(c, ts[0].buf, ts[0].n, ts[0].ok);
    var first := Step(c, ts[0].buf, ts[0].n, ts[0].ok);
    ChainRun(first.ctx, ts[1..], 1);
    IssuesChainCons(Run(first.ctx, ts[1..]).actions, 0);
    assert Run(c, ts).actions[1..] == [Send(Plain(ReadBdAddr))] + Run(first.ctx, ts[1..]).actions;
  }

  /**
    After a successful Connection Complete whose handle the registry accepts, a successful
    Disconnection Complete carrying the same handle bytes marks that address
    missing (whatever bit 5 of the high byte says); once that succeeds the
    address owns no handle.
   */
  lemma ConnectThenDisconnect(c: Context, connect: Transfer, disconnect: Transfer)
    requires IsEvent(connect.buf, connect.n, ConnectionCompleteEvent) && connect.buf[2] == 0
    requires connect.ok(SetHandle(connect.buf[5..11], HandleAt(connect.buf)))
    requires IsEvent(disconnect.buf, disconnect.n, DisconnectionCompleteEvent) && disconnect.buf[2] == 0
    requires disconnect.buf[3] == connect.buf[3]
    requires disconnect.buf[4] | HandleTag == connect.buf[4] | HandleTag
    ensures var o := Run(c, [connect, disconnect]);
      var a := connect.buf[5..11];
      && o.actions == [SetHandle(a, HandleAt(connect.buf)), Send(RemoteNameRequest(a)), MarkMissing(a)]
      && (disconnect.ok(MarkMissing(a)) ==> forall g :: g in o.ctx.bindings ==> o.ctx.bindings[g] != a)
  {
    var first := Step(c, connect.buf, connect.n, connect.ok);
    var h, a := HandleAt(connect.buf), connect.buf[5..11];
    assert first.ctx.bindings == Rebind(c.bindings, h, a);
    SameHandle(connect.buf, disconnect.buf);
    var second := Step(first.ctx, disconnect.buf, disconnect.n, disconnect.ok);
    assert second == StepDisconnectionComplete(first.ctx, disconnect.buf, disconnect.ok);
    assert [connect, disconnect][1..] == [disconnect];
    assert Run(first.ctx, [disconnect]) == Outcome(second.ctx, second.actions);
  }
}
