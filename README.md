# WireShock interrupt-endpoint handler, modelled in Dafny

WireShock is a Windows driver for USB Bluetooth dongles that serves Sony
DualShock 3/4, Navigation and Motion controllers. The dongle delivers HCI
event packets on its interrupt endpoint. The driver's continuous reader hands
each packet to `WireShockEvtUsbInterruptPipeReadComplete`. This model covers
that handler and the readers-failed callback `WireShockEvtUsbInterruptReadersFailed`.

The handler does four things:

- **Bring-up chain.** Each successful Command Complete issues the next command,
  from HCI_Reset through Write_Scan_Enable. The last one sets `Initialized`.
- **Version gate.** After Read_Local_Version_Info, a controller whose HCI or
  LMP major version is below 3 is reset.
- **SSP demotion.** If Write_Simple_Pairing_Mode, Write_Authentication_Enable
  or Set_Event_Mask fails, reported by Command Complete or by Command Status,
  the driver sets `DisableSSP` and jumps straight to Write_Scan_Enable.
- **Child devices.** It drives the registry of child devices on four events:
  - Connection Request: add the child, delete its stored link key, accept the
    connection as master.
  - Connection Complete: set the child's tagged ACL handle and request its name.
  - Disconnection Complete: mark the owner of the handle missing.
  - Remote Name Request Complete: store the name, set the type from its first
    letter, and initialise the output report.

Event codes and opcodes follow the Bluetooth Core Specification, Volume 4,
Part E, sections 7.3, 7.4 and 7.6 (opcodes) and 7.7 (events).

The project has three modules:

- `Hci` (hci.dfy) decodes packet bytes:
  - little-endian opcodes and the opcode table;
  - device addresses, and the connection handle with its tag bit 0x20;
  - the remote-name length scan, as a function and as the source's loop;
  - the device-type table.
- `Interrupt` (interrupt.dfy) holds the handler itself:
  - `Step` is the specification of one invocation. It maps a device
    `Context`, the receive buffer `buf`, the transferred count `n`, and the
    results `ok` of the collaborator calls to a new context and the list of
    calls made (`Outcome`).
  - `Controller` is a class holding the same device-context fields. Its
    method `HandleEvent` updates them in place branch by branch, as the source
    does. Each method is proved to agree with the corresponding piece of `Step`.
- `InterruptProperties` (properties.dfy) proves properties of `Step`, and of
  `Run`, which applies `Step` to a sequence of transfers:
  - what each event does;
  - the complete eighteen-command bring-up, ending `Initialized`;
  - that `DisableSSP` and `Initialized` are never cleared, and exactly which
    events set them;
  - a connection followed by its disconnection.

Interfaces to the outside:

- **Collaborator calls.** The command encoder (`HCI_Command_*`) and the
  child-list and bus calls (`WdfChildList*`, `WireBus*`) are not modelled.
  Each is an `Action`, logged in order. Whether it succeeded is the external
  result `ok(action)`. The source tests that result in two places: the
  version-gate Reset and the Connection Request sequence. The model also reads
  it in two places where the source does not:
  - `WireBusSetChildHandle` (sys/Interrupt.c:605) returns nothing the source
    looks at. The model binds the handle only when `ok(SetHandle(..))` holds,
    which stands for the bus call having stored it.
  - The status of `WdfChildListUpdateChildDescriptionAsMissing`
    (sys/Interrupt.c:651-661) is only traced. The model drops the child's
    handles only when `ok(MarkMissing(..))` holds, which stands for the child
    list having removed the child.

  Within one invocation neither choice changes the calls that are made. Across
  invocations they decide whether a later Disconnection Complete finds an
  owner for the handle and calls `MarkMissing`.
- **Handle table.** The registry's mapping from ACL handles to child addresses
  is the `bindings` map of the context:
  - it is emptied by the purge after Reset;
  - it is set by an accepted `SetHandle`, and a child holds one handle;
  - it loses a child's handles when that child is successfully marked missing.

  This is what `WireBusGetPdoAddressDescriptionByHandle` looks up.
- **Buffer reads.** The handler reads fixed offsets up to byte 11 whatever the
  count is, so the model requires a buffer of at least 12 bytes. The
  remote-name scan tests byte `8 + length` before it compares with the count.
  It can therefore read byte `n`, and the model requires that byte to exist.
  Both requirements are written in `Interrupt.Readable`.

Two consequences of the code that are easy to miss:

- The stored remote-name length counts the terminating null byte.
  "Wireless Controller" is stored with length 20, not 19. See
  `InterruptProperties.WirelessControllerName`.
- `Initialized` is set by the Write_Scan_Enable completion and this handler
  never clears it, not even in a new Reset cycle. See
  `InterruptProperties.InitializedNeverCleared` and
  `InterruptProperties.InitializedPermanent`.

## Model

| member | source | states |
|---|---|---|
| Hci.Le16 | sys/Interrupt.c:109-117 | the 16-bit field built from two bytes gives back the low byte and the high byte |
| Hci.OpOf | sys/Interrupt.c:109-112 | an opcode names a bring-up command exactly when it is that command's opcode |
| Hci.HandleAt | sys/Interrupt.c:593-596 | the handle keeps byte 3 as its low byte; its high byte has tag bit 0x20 set and otherwise equals byte 4 |
| Hci.DeviceTypeOf | sys/Interrupt.c:713-750 | a first name byte gives a device type exactly when it is that type's letter (P, N, M or W); any other byte gives none |
| Hci.NameLengthFrom | sys/Interrupt.c:695-698 | the scan stops at a null byte or at the transferred count; every byte it passes is nonzero and below the count |
| Hci.NameLength | sys/Interrupt.c:689-711 | the length is between 1 and max(1, n - 8); every name byte before the last is nonzero; the last is the first null or byte n |
| Hci.ScanNameLength | sys/Interrupt.c:695-698 | the for loop that scans the name computes `NameLength` |
| Hci.AddrAt | sys/Interrupt.c:520 | the address is the six bytes from the given offset, in packet order, as `BD_ADDR_FROM_BUFFER` is read at lines 520, 603 and 691 |
| Interrupt.Readable | sys/Interrupt.c:696-701 | the buffer holds the fixed offsets up to byte 11 and the count, and for a successful remote name also byte `n`, which the scan may read |
| Interrupt.IsSspCommand | sys/Interrupt.c:129-131 | the three commands whose failure reported by Command Status demotes SSP: Write_Simple_Pairing_Mode, Write_Authentication_Enable and Set_Event_Mask |
| Interrupt.Demote | sys/Interrupt.c:133-139 | the SSP demotion, shared by the Command Status case and lines 354-360, 385-391 and 407-413: DisableSSP set, nothing else changed, and only Write_Scan_Enable issued |
| Interrupt.TypeActions | sys/Interrupt.c:713-750 | a device type is set exactly when the first name byte is a type letter, and then it is that type for that address; otherwise no call |
| Interrupt.Unbind | sys/Interrupt.c:646-663 | exactly the bindings of other addresses remain, unchanged |
| Interrupt.Rebind | sys/Interrupt.c:603-605 | the address owns the new handle and no other; other addresses keep their handles |
| Interrupt.ReadersFailed | sys/Interrupt.c:994-1009 | a failed read never stops the continuous reader; the callback returns TRUE |
| Interrupt.Controller.constructor | sys/Interrupt.c:162 | a new adapter starts from the zero-filled context that the handler first reads (`Started` false) and an empty call log |
| Interrupt.Controller.Perform | sys/Interrupt.c:74-992 | each collaborator call is appended to the log, and its result is the external result |
| Interrupt.Controller.HandleEvent | sys/Interrupt.c:74-992 | the in-place handler leaves the fields equal to `Step`'s new context and logs exactly `Step`'s calls |
| Interrupt.Controller.DisableSsp | sys/Interrupt.c:133-139 | sets DisableSSP, issues Write_Scan_Enable and changes nothing else |
| Interrupt.Controller.OnVersionInfo | sys/Interrupt.c:207-340 | records both major versions and applies the version gate, as `StepVersion` |
| Interrupt.Controller.OnCommandStatus | sys/Interrupt.c:114-146 | the Command Status branch agrees with `StepCommandStatus` |
| Interrupt.Controller.OnCommandComplete | sys/Interrupt.c:156-507 | the Command Complete chain agrees with `StepCommandComplete` |
| Interrupt.Controller.OnConnectionRequest | sys/Interrupt.c:513-581 | the Connection Request sequence, stopping at the first failure, agrees with `StepConnectionRequest` |
| Interrupt.Controller.OnConnectionComplete | sys/Interrupt.c:587-617 | the Connection Complete branch agrees with `StepConnectionComplete` |
| Interrupt.Controller.OnDisconnectionComplete | sys/Interrupt.c:623-665 | the Disconnection Complete branch agrees with `StepDisconnectionComplete` |
| Interrupt.Controller.OnRemoteNameComplete | sys/Interrupt.c:683-758 | the Remote Name branch, including its scan loop, agrees with `StepRemoteNameComplete` |
| Hci.CompleteOpcode | sys/Interrupt.c:109-112 | the Command Complete opcode has byte 3 as its low byte and byte 4 as its high byte |
| Hci.StatusOpcode | sys/Interrupt.c:114-117 | the Command Status opcode has byte 4 as its low byte and byte 5 as its high byte |
| Interrupt.StepCommandStatus | sys/Interrupt.c:114-146 | a Command Status either does nothing or is the SSP demotion |
| Interrupt.StepCommandComplete | sys/Interrupt.c:156-507 | a Command Complete makes at most two calls, and leaves the handle table alone or empties it |
| Interrupt.StepVersion | sys/Interrupt.c:207-340 | a version report makes exactly one call, stores bytes 6 and 9 as the versions, and changes nothing else but Started |
| Interrupt.StepConnectionRequest | sys/Interrupt.c:513-581 | a Connection Request leaves the context unchanged, first adds the address in bytes 2 to 7 as present, and makes at most three calls |
| Interrupt.StepConnectionComplete | sys/Interrupt.c:587-617 | a Connection Complete changes only the handle table |
| Interrupt.StepDisconnectionComplete | sys/Interrupt.c:623-665 | a Disconnection Complete changes only the handle table, only removes entries from it, and makes at most one call |
| Interrupt.StepRemoteNameComplete | sys/Interrupt.c:683-758 | a Remote Name Request Complete leaves the context unchanged, makes at least two calls exactly when its status byte is zero, and no call at all otherwise |
| Interrupt.Step | sys/Interrupt.c:94-980 | one invocation of the handler, dispatched on the event code: only Command Complete and Command Status change the flags, versions or host address, and only Command Complete, Connection Complete and Disconnection Complete change the handle table |
| Interrupt.CompleteSucceeded | sys/Interrupt.c:162-498 | the `HCI_COMMAND_SUCCESS` test of each Command Complete branch: the status byte 5 is zero |
| InterruptProperties.Run | sys/Interrupt.c:74-992 | successive invocations of the handler, each starting from the context the previous one left; the calls are logged in order |
| InterruptProperties.CompleteDispatch | sys/Interrupt.c:107-112 | a Command Complete for a command is handled by the Command Complete branch, keyed on that command |
| InterruptProperties.CompleteOpcodeIdentifies | sys/Interrupt.c:109-112 | bytes 3 and 4 name a command if and only if they are that command's opcode, low byte first |
| InterruptProperties.SameHandle | sys/Interrupt.c:593-596 | two packets give the same handle if and only if byte 3 agrees and byte 4 agrees once bit 0x20 is set |
| InterruptProperties.TaggedHandleKept | sys/Interrupt.c:593-596 | a high byte that already has the tag bit is kept unchanged |
| InterruptProperties.TypeLetterRoundTrip | sys/Interrupt.c:713-750 | every device type is recognised from its own letter |
| InterruptProperties.FirstNullLength | sys/Interrupt.c:695-698 | with the first null byte at p, the length is p - 8, and the stored name ends with that null |
| InterruptProperties.UnterminatedNameReadsByteN | sys/Interrupt.c:695-698 | with no null byte below the count, the stored name runs up to and includes byte n |
| InterruptProperties.WirelessControllerName | sys/Interrupt.c:689-750 | "Wireless Controller" followed by a null byte is stored with length 20 and typed as a DualShock 4 |
| InterruptProperties.ZeroLengthTransfer | sys/Interrupt.c:94-100 | a zero-length read changes nothing and makes no call |
| InterruptProperties.ResetCompletion | sys/Interrupt.c:162-179 | the first successful Reset purges the children, sets Started, empties the handle table and issues Read_BD_ADDR; any other Reset completion does nothing |
| InterruptProperties.ReadBdAddrCompletion | sys/Interrupt.c:181-196 | on success bytes 6 to 11 become the host address, nothing else changes, and only Read_Buffer_Size is issued; a failure does nothing |
| InterruptProperties.ReadBufferSizeCompletion | sys/Interrupt.c:198-205 | success issues Read_Local_Version_Info; failure does nothing |
| InterruptProperties.VersionGate | sys/Interrupt.c:207-340 | a failure does nothing. On success bytes 6 and 9 are stored as the versions. A major version below 3 issues only Reset, and clears Started exactly when that Reset was issued. Otherwise Write_Scan_Enable is issued if SSP is disabled, Write_Simple_Pairing_Mode if not |
| InterruptProperties.SspDemotion | sys/Interrupt.c:114-146 | a failed SSP command, reported by Command Complete or by Command Status, sets DisableSSP and issues exactly Write_Scan_Enable |
| InterruptProperties.SspChain | sys/Interrupt.c:342-415 | a successful SSP command issues its successor: Debug_Mode, Set_Event_Mask or Write_Page_Timeout |
| InterruptProperties.DebugModeBestEffort | sys/Interrupt.c:364-371 | Write_Simple_Pairing_Debug_Mode completion issues Write_Authentication_Enable whatever its status |
| InterruptProperties.StatusOtherwiseIgnored | sys/Interrupt.c:121-146 | a Command Status that is not the failure of one of the three SSP commands does nothing: a success, a failure of any other command, and a failure for an unknown opcode |
| InterruptProperties.OpAt | sys/Interrupt.c:162-505 | the order of the bring-up chain, from HCI_Reset at position 0 to Write_Scan_Enable at position 17, as each branch issues its successor |
| InterruptProperties.Rank | sys/Interrupt.c:162-505 | every bring-up command has a position in the chain, and the chain table gives it back at that position |
| InterruptProperties.FixedSuccessor | sys/Interrupt.c:417-496 | from Write_Page_Timeout to Write_Local_Name, success issues exactly the next command of the chain and failure does nothing |
| InterruptProperties.ScanEnableCompletion | sys/Interrupt.c:498-505 | a successful Write_Scan_Enable sets Initialized and issues nothing; failure does nothing |
| InterruptProperties.OtherCompletionIgnored | sys/Interrupt.c:156-507 | a Command Complete for a command outside the chain does nothing |
| InterruptProperties.DisableSspNeverCleared | sys/Interrupt.c:74-992 | no event clears DisableSSP |
| InterruptProperties.DisableSspSetOnlyBySspFailure | sys/Interrupt.c:114-146 | DisableSSP becomes set if and only if the event is a failure of one of the three SSP commands |
| InterruptProperties.InitializedNeverCleared | sys/Interrupt.c:74-992 | no event clears Initialized |
| InterruptProperties.InitializedOnlyByScanEnable | sys/Interrupt.c:498-505 | Initialized becomes set if and only if the event is a successful Write_Scan_Enable completion |
| InterruptProperties.ConnectionRequestOrder | sys/Interrupt.c:513-581 | the calls are add-as-present, Delete_Stored_Link_Key, then Accept_Connection_Request as master, each made only after the one before succeeded; the context is unchanged |
| InterruptProperties.ConnectionCompleteBinds | sys/Interrupt.c:587-617 | success sets the tagged handle for the address in bytes 5 to 10 and requests its name; once the handle is accepted the child owns it and no other, and every other address keeps exactly the handles it had; failure does nothing |
| InterruptProperties.DisconnectIgnored | sys/Interrupt.c:623-665 | a failed disconnection, whether or not a child owns the handle, and a disconnection of a handle that no child owns both do nothing |
| InterruptProperties.KnownHandleDisconnect | sys/Interrupt.c:623-665 | a successful disconnection of an owned handle marks exactly its owner missing; the owner's bindings go once that succeeds |
| InterruptProperties.RemoteNameHandled | sys/Interrupt.c:683-758 | on success: the name from byte 9, of the scanned length, is stored for the address in bytes 3 to 8; the type is set when the first letter is P, N, M or W; the output report is initialised last. On failure nothing happens |
| InterruptProperties.LogOnlyEventsIgnored | sys/Interrupt.c:669-980 | every other event changes nothing and makes no call |
| InterruptProperties.DisableSspPermanent | sys/Interrupt.c:74-992 | once set, DisableSSP stays set through any sequence of events, including a new bring-up |
| InterruptProperties.InitializedPermanent | sys/Interrupt.c:74-992 | once set, Initialized stays set through any sequence of events |
| InterruptProperties.ChainStep | sys/Interrupt.c:181-505 | on a started adapter with SSP available, each successful completion after Reset issues the next command of the chain, and Write_Scan_Enable sets Initialized |
| InterruptProperties.ChainRun | sys/Interrupt.c:181-505 | successful completions from any position of the chain issue the rest of the chain in order and end Initialized, Started, with SSP still enabled |
| InterruptProperties.BringUpReachesInitialized | sys/Interrupt.c:162-505 | eighteen successful completions in chain order, on a controller of major version 3 or more: purge, then the other seventeen commands in order, ending Initialized |
| InterruptProperties.ConnectThenDisconnect | sys/Interrupt.c:587-665 | a connection followed by a disconnection with the same handle bytes marks that address missing; once that succeeds the address owns no handle |

## Left out

- Tracing is not modelled: every `TraceEvents` call, including the final
  "sending response failed" trace, has no effect on state.
- `WdfChildListRetrieveAddressDescription` (sys/Interrupt.c:534-543) fills
  the address description that is then handed to
  `WdfChildListAddOrUpdateChildDescriptionAsPresent` (sys/Interrupt.c:548-551).
  The model does not model the description's contents. It keeps only the add as
  the `AddPresent` action, which leaves the handle table unchanged.
- The bodies of the command encoder and of the child-list and bus calls are
  not modelled: each is a logged action with an external success result.
  `Interrupt.Controller.HandleEvent` therefore does not model what those calls
  send or store beyond the handle table.
- The handle table is an abstraction. The body of
  `WireBusGetPdoAddressDescriptionByHandle` is not part of this model. The
  model assumes that it finds the child that was last given the handle by
  `WireBusSetChildHandle`. It keeps one owner per handle, and the latest
  `SetHandle` wins.
- The continuous-reader configuration, the pipe and WDF memory objects are not
  modelled: the buffer is a byte sequence and the count a natural number.
- Concurrency between reader callbacks is not modelled: invocations are
  sequential.
- WireShock/Interrupt.c is not part of this model.
- The enum header with the event codes and opcodes is not part of this model.
  The values come from the Bluetooth Core Specification.
- The body of `BD_ADDR_FROM_BUFFER` is not part of this model. It is taken to
  copy the six address bytes in packet order (`Hci.AddrAt`).
- `HCI_COMMAND_SUCCESS` is taken to test the Command Complete status, byte 5.
- Interrupt.Readable excludes every successful remote-name transfer that fills
  the whole buffer (`n == |buf|`), including those with a null byte below `n`
  that would stop the scan early. The scan can read byte `n`, which would then
  lie past the end of the buffer.
