# FAP-4P telemetry/interlock handling and the M3–C28 IPC layer, in Dafny

This project models two parts of the ARM (M3) firmware of the Sirius power-supply
controller:

- `fap4p.dfy`, module `Fap4p`, models the FAP-4P module's CAN telemetry decoder
  and interlock aggregator.
  - Four isolated interface boards (IIB) send eight-byte frames.
  - A data frame stores one raw 32-bit sample in one of eleven fields of the
    addressed board's record (`iib_fap`).
  - An interlock frame copies its raw 32-bit payload into that board's
    interlock-register signal in `net_signals`, then requests the `IIB_Itlk`
    hard interlock for the module.
  - The records are objects of class `IibModule`, updated in place. The global
    state (the `iib_fap` array, the net-signal array and the interlock
    requests) is class `Fap4pState`.
  - Each method is proved against a function on values:
    - `UpdateField` for one record;
    - `ApplyCanData` for the four records;
    - `ApplyInterlockSignals` for the net signals.
  - The properties are lemmas about those functions.
- `ipc.dfy`, module `IpcLib`, models the inter-processor message layer between
  the M3 and the C28 cores.
  - Low-priority message packing and unpacking.
  - The two shared-memory address translators, with unsigned 32-bit
    wrap-around written out.
  - The busy test on the flag register, and acknowledgement.
  - The state is class `Ipc`, holding:
    - the M3-to-C28 message fields;
    - the module status table;
    - the flag and status registers;
    - the HRADC reset level;
    - the firmware version arrays.
  - Its methods are `init_ipc`, the two sends, the busy test, the version copy
    and the low-priority interrupt handler.

Telemetry values and set-points are IEEE-754 floats in the firmware. Here they
are the raw 32-bit words the unions hold, and they are never interpreted.

Every operation is one atomic sequential step. Interrupt preemption and the
concurrency between the two cores are not modelled.

Two behaviours differ from what one might expect of an interlock aggregator
and a tagged message lane. The model follows the code in both:

- **Interlock register.** One might expect an interlock frame's raw payload to
  be OR'd into the board's interlock signal, so that bits accumulate.
  `handle_interlock_message` assigns it. `ApplyInterlockSignals` overwrites,
  and `InterlockRegisterOverwritten` states that the second of two frames from
  the same board leaves only its own payload.
- **Tag test.** One might expect the low-priority handler to check the tag
  nibble before dispatching. No tag test appears in `isr_ipc_lowpriority_msg`.
  It switches on `GET_IPC_CTOM_LOWPRIORITY_MSG`, a macro of `ipc_lib.h`, which
  is not part of this model, so a tag test could sit inside the macro. The
  handler is installed on the `INT_CTOMPIC1` vector (ipc_lib.c:88), so which
  flags reach it is decided outside this file. With the macro taken as bits
  [7:4] (see below), `IsrIpcLowPriorityMsg` dispatches on the code alone.

Seven names used here are defined outside fap_4p.c and ipc_lib.c, in files
that are not part of this model. What the model takes for each is an
assumption, stated where it is used:

- `set_hard_interlock`: its body is in another file, not part of this model. `handle_interlock_message`
  passes it the enum value `IIB_Itlk` (22) itself. Each call is recorded as an
  `InterlockRequest`. Two things are assumed:
  - `InterlockBit`: the encoding of a cause as bit `1 << value`;
  - `Latched`: the meaning of the requests, each one ORing its cause's bit
    into the module's hard-interlock register.
- `GET_IPC_CTOM_LOWPRIORITY_MSG`: taken to extract bits [7:4].
- `IPC_MTOC_LOWPRIORITY_MSG`, `Enable_HRADC_Boards`, `Disable_HRADC_Boards`,
  `NUM_MAX_PS_MODULES` and `SIZE_VERSION`: parameters of the `Ipc`
  constructor. The codes are below 16, and the sizes fit the `uint8_t` loop
  counters.

## Model

| member | source | states |
|---|---|---|
| Fap4p.Ordinal | app/communication_drivers/psmodules/fap_4p/fap_4p.c:110-135 | each hard-interlock cause has a C value below 23, and that value maps back to the same cause |
| Fap4p.CausesAreConsecutive | app/communication_drivers/psmodules/fap_4p/fap_4p.c:110-135 | the causes are exactly the consecutive values 0..22: every value names one cause, no two causes share a value, and IIB_Itlk is 22 |
| Fap4p.InterlockBit | app/communication_drivers/psmodules/fap_4p/fap_4p.c:110-135 | the register bit of a cause is a single set bit of a 32-bit word |
| Fap4p.InterlockBitsDisjoint | app/communication_drivers/psmodules/fap_4p/fap_4p.c:110-135 | distinct causes occupy distinct, non-overlapping bits of the interlock register |
| Fap4p.DataId | app/communication_drivers/psmodules/fap_4p/fap_4p.c:344-388 | every telemetry quantity has a data id in 2..12 |
| Fap4p.FieldOfId | app/communication_drivers/psmodules/fap_4p/fap_4p.c:344-391 | a data id names a quantity exactly when it lies in 2..12, and the named quantity's id is that id |
| Fap4p.DataIdIsInverse | app/communication_drivers/psmodules/fap_4p/fap_4p.c:344-388 | ids 2..12 and the eleven quantities correspond one to one, in both directions |
| Fap4p.UpdateField | app/communication_drivers/psmodules/fap_4p/fap_4p.c:339-393 | a sample never changes the record's CAN address; an id outside 2..12 leaves the record identical |
| Fap4p.UpdateFieldIsolation | app/communication_drivers/psmodules/fap_4p/fap_4p.c:344-391 | a sample sets exactly the quantity its id names and leaves the other ten unchanged; an unknown id changes none |
| Fap4p.UpdateFieldIdempotent | app/communication_drivers/psmodules/fap_4p/fap_4p.c:347-387 | applying the same sample twice gives the state of applying it once |
| Fap4p.UpdateFieldLastWins | app/communication_drivers/psmodules/fap_4p/fap_4p.c:347-387 | of two samples with the same id, the later value is the one kept |
| Fap4p.WordOfBytes | app/communication_drivers/psmodules/fap_4p/fap_4p.c:325-333 | the word assembled from u8[0..3] splits back, least significant byte first, into those same four bytes |
| Fap4p.WordBytesRoundTrip | app/communication_drivers/psmodules/fap_4p/fap_4p.c:330-333 | splitting a word into bytes and reassembling gives the word back |
| Fap4p.Payload | app/communication_drivers/psmodules/fap_4p/fap_4p.c:330-333 | the stored value's bytes, least significant first, are frame bytes 4..7 in order |
| Fap4p.Slot | app/communication_drivers/psmodules/fap_4p/fap_4p.c:335 | an address 1..4 selects slot address-1, inside the four-entry table |
| Fap4p.CanDataIndex | app/communication_drivers/psmodules/fap_4p/fap_4p.c:327-335 | the unchecked index address-1 lies inside iib_fap exactly when the address is 1..4 |
| Fap4p.UncheckedAddressLeavesTable | app/communication_drivers/psmodules/fap_4p/fap_4p.c:335 | address bytes 0 and 5 give the indexes -1 and 4, and every address outside 1..4 indexes outside iib_fap |
| Fap4p.ApplyCanData | app/communication_drivers/psmodules/fap_4p/fap_4p.c:320-337 | a data frame from address a in 1..4 updates only record a-1, with its data id and payload; the other three records are unchanged; an address outside 1..4 changes nothing |
| Fap4p.ReservedBytesIgnored | app/communication_drivers/psmodules/fap_4p/fap_4p.c:327-333 | frames that differ only in bytes 2 and 3 have the same effect |
| Fap4p.UnknownIdIsNoOp | app/communication_drivers/psmodules/fap_4p/fap_4p.c:390-391 | a frame whose data id is outside 2..12 leaves all four records identical |
| Fap4p.FrameReachesAddressedRecord | app/communication_drivers/psmodules/fap_4p/fap_4p.c:311-335 | with the addresses init_iib assigns, a frame changes only the record whose CAN address equals the frame's address, and keeps every address |
| Fap4p.OtherRecordUntouched | app/communication_drivers/psmodules/fap_4p/fap_4p.c:320-337 | any sequence of data frames, none from board b, leaves record b unchanged |
| Fap4p.IgbtTemperatureFrame | app/communication_drivers/psmodules/fap_4p/fap_4p.c:362-364 | frame [3, 6, 0, 0, b0..b3] sets TempIGBT1 of slot 2 to the word b0..b3 and changes nothing else |
| Fap4p.ApplyInterlockSignals | app/communication_drivers/psmodules/fap_4p/fap_4p.c:408-422 | for address a in 1..4, net signal 11+a becomes the raw payload; every other signal, and all of them for any other address, is unchanged |
| Fap4p.InterlockRegisterOverwritten | app/communication_drivers/psmodules/fap_4p/fap_4p.c:408-422 | the interlock signal is assigned, not accumulated: after two frames from one board it holds the second payload |
| Fap4p.InterlockRequestOf | app/communication_drivers/psmodules/fap_4p/fap_4p.c:424 | every interlock frame requests cause IIB_Itlk for module address-1, whatever its payload |
| Fap4p.LatchedMonotone | app/communication_drivers/psmodules/fap_4p/fap_4p.c:424 | under the assumed latch, further requests never clear a latched bit |
| Fap4p.InterlockFrameLatches | app/communication_drivers/psmodules/fap_4p/fap_4p.c:424 | under the assumed latch, an interlock frame sets the IIB_Itlk bit of module address-1 (even with a zero payload) and leaves every other module's latch as it was |
| Fap4p.IibModule.constructor | app/communication_drivers/psmodules/fap_4p/fap_4p.c:137 | a board record starts with address and all quantities zero, as static storage does |
| Fap4p.IibModule.UpdateIibStructure | app/communication_drivers/psmodules/fap_4p/fap_4p.c:339-393 | the record afterwards is UpdateField of the record before: the named field takes the value, nothing else changes |
| Fap4p.Fap4pState.constructor | app/communication_drivers/psmodules/fap_4p/fap_4p.c:137 | four distinct zeroed board records, zeroed net signals, no interlock requested |
| Fap4p.Fap4pState.InitIib | app/communication_drivers/psmodules/fap_4p/fap_4p.c:309-314 | slot i gets CAN address i+1 and every quantity is kept |
| Fap4p.Fap4pState.HandleCanData | app/communication_drivers/psmodules/fap_4p/fap_4p.c:320-337 | the four records afterwards are ApplyCanData of the records before |
| Fap4p.Fap4pState.SetHardInterlock | app/communication_drivers/psmodules/fap_4p/fap_4p.c:424 | the request (module id, cause) is appended to the requests issued so far |
| Fap4p.Fap4pState.HandleInterlockMessage | app/communication_drivers/psmodules/fap_4p/fap_4p.c:395-425 | the net signals afterwards are ApplyInterlockSignals of the signals before; IIB_Itlk for module address-1 is requested; the board records are unchanged |
| IpcLib.LowPriorityMsgToReg | app/communication_drivers/ipc/ipc_lib.c:133-136 | the register value never exceeds 0xFFFF |
| IpcLib.LowPriorityCode | app/communication_drivers/ipc/ipc_lib.c:233 | the extracted command is below 16 and is bits [7:4] of the register value |
| IpcLib.LowPriorityRoundTrip | app/communication_drivers/ipc/ipc_lib.c:133-136 | for command and tag below 16, the low nibble is the tag, the receiver extracts the command back, and no bit above 7 is set |
| IpcLib.MtocTranslate | app/communication_drivers/ipc/ipc_lib.c:143-158 | the C28 address is below 0x80000000; message-RAM addresses map at or above the C28 message-RAM start |
| IpcLib.CtomTranslate | app/communication_drivers/ipc/ipc_lib.c:166-183 | the M3 address is always even |
| IpcLib.CtomTranslateRegions | app/communication_drivers/ipc/ipc_lib.c:166-183 | for C28 addresses below 0x70000000, message-RAM addresses map into M3 message RAM and Sx addresses into [0x1FFF0000, 0x2006F000) |
| IpcLib.CtomThenMtoc | app/communication_drivers/ipc/ipc_lib.c:143-183 | every C28 address below 0x70000000 survives translation to the M3 and back, in both branches |
| IpcLib.MtocThenCtom | app/communication_drivers/ipc/ipc_lib.c:143-183 | an M3 address in message RAM or in [0x1FFF0000, 0x2006F000) survives translation to the C28 and back when even, and loses bit 0 when odd |
| IpcLib.BusyOf | app/communication_drivers/ipc/ipc_lib.c:190-204 | the result is 0 or 1, and 1 exactly when a bit of the mask is pending; a zero mask is never busy |
| IpcLib.Acknowledge | app/communication_drivers/ipc/ipc_lib.c:231 | acknowledged bits are clear afterwards and every other pending bit is kept |
| IpcLib.BusyUntilAcknowledged | app/communication_drivers/ipc/ipc_lib.c:190-204 | a nonzero flag just set tests busy, and tests not busy once the peer acknowledges it |
| IpcLib.AcknowledgeKeepsOthers | app/communication_drivers/ipc/ipc_lib.c:190-204 | acknowledging a flag does not change the busy result of any disjoint mask |
| IpcLib.EveryOther | app/communication_drivers/ipc/ipc_lib.c:216 | byte i of the result is byte 2i of the source, for each of the n positions |
| IpcLib.WidenAt | app/communication_drivers/ipc/ipc_lib.c:216 | character i of a C28 string sits at M3 byte 2i, followed by a zero byte |
| IpcLib.EveryOtherOfWiden | app/communication_drivers/ipc/ipc_lib.c:216 | the stride-2 copy of a C28 string, as the M3 sees it, is the string itself |
| IpcLib.InitialModule | app/communication_drivers/ipc/ipc_lib.c:61-74 | an initialised entry has zero interlocks, set-point and reference, the configured model, no other status bit, and is active exactly when its index is below the module count |
| IpcLib.Ipc.constructor | app/communication_drivers/ipc/ipc_lib.c:44-45 | the header constants and version strings as given, zeroed registers, interrupt not enabled |
| IpcLib.Ipc.InitIpc | app/communication_drivers/ipc/ipc_lib.c:53-94 | msg_ctom, msg_id and error_ctom are reset; every table entry is InitialModule of its index; siggen and DSP ids are zero; the interrupt is enabled |
| IpcLib.Ipc.SendIpcMsg | app/communication_drivers/ipc/ipc_lib.c:104-108 | msg_id is the argument; the flag register keeps every bit it had and gains every bit of the flag; nothing else changes |
| IpcLib.Ipc.SendIpcLowPriorityMsg | app/communication_drivers/ipc/ipc_lib.c:119-124 | msg_id is the argument; the flag register gains the packed command and keeps every bit it had; nothing else changes |
| IpcLib.Ipc.IpcMtocBusy | app/communication_drivers/ipc/ipc_lib.c:190-204 | returns 1 exactly when a bit of the mask is pending in the flag register, else 0, and changes nothing |
| IpcLib.Ipc.GetFirmwaresVersion | app/communication_drivers/ipc/ipc_lib.c:209-223 | for every i below SIZE_VERSION, udc_arm[i] is the M3 version's byte i and udc_c28[i] is the C28 version's byte 2i |
| IpcLib.Ipc.IsrIpcLowPriorityMsg | app/communication_drivers/ipc/ipc_lib.c:228-247 | msg_ctom latches the status register, exactly those bits are acknowledged; Enable_HRADC_Boards drives reset to 0, Disable_HRADC_Boards to 1, any other code leaves it |

## Findings

| source | as written | input that shows it | evidently intended | confidence | as-written member | corrected member |
|---|---|---|---|---|---|---|
| app/communication_drivers/psmodules/fap_4p/fap_4p.c:327-335 | `handle_can_data` indexes `iib_fap[iib_address - 1]` with the frame's address byte and no range check | a data frame whose byte 0 is 0 (index -1) or 5 (index 4) | a frame whose address names no board updates no record. `handle_interlock_message` only half supports this reading: it writes no register signal for such an address, but it still passes the unchecked `iib_address - 1` to `set_hard_interlock` (fap_4p.c:424), which the model records as `InterlockRequest(-1, IibItlk)` for address 0 | medium: depends on whether the CAN driver, which is not part of this model, filters addresses; not executed | Fap4p.UncheckedAddressLeavesTable | Fap4p.ApplyCanData |

## Left out

- `adcp_channel_config`: ADC gain constants (floating point) and the binding of ADC channels to their signals.
- `bsmp_init_server`: it only registers variables through `create_bsmp_var`, which is not part of this model.
- `init_iib_module` and `handle_alarm_message`: callback registration with the CAN driver, and an empty body.
- `fap_4p_system_config`: it only calls `adcp_channel_config`, `bsmp_init_server` and `init_iib`.
- The body of `set_hard_interlock` is not part of this model. `InterlockBit`, `InterlockBitsDisjoint`, `Latched`, `LatchedMonotone` and `InterlockFrameLatches` hold for the assumed bit encoding and OR-latch. They are not verified behaviour of the firmware.
- The IEEE-754 meaning of telemetry, set-point and reference values: only raw 32-bit words are modelled.
- The declaration of `iib_fap_module_t` is not part of this model. The record holds the CAN address and the eleven quantities that `update_iib_structure` writes.
- `IntRegister`/`IntEnable` are modelled only as the flag `lowPriorityIsrEnabled`.
- `IPCCtoMFlagAcknowledge` is modelled only as `Acknowledge` on the status register.
- `hradc_rst_ctrl` is modelled only as the level it drives.
- `HWREG` register accesses become fields of `Ipc`.
- Writing the M3-to-C28 set register is modelled as ORing into the pending-flag register that `ipc_mtoc_busy` reads.
- The C28's side is left out: it consumes the flags and acknowledges them.
- `get_param(PS_Model, 0)` and `get_param(Num_PS_Modules, 0)` are inputs to `InitIpc`. The model takes the module count after its `uint8_t` conversion.
- IpcLib.Ipc.InitIpc: requires the module count to be at most `NUM_MAX_PS_MODULES`. The second loop has no bound check and would write past `ps_module` for a larger count.
- IpcLib.Ipc.InitIpc: stores the model parameter as a whole number. The width of the `model` bit-field is in `ipc_lib.h`, which is not part of this model, so its truncation is not modelled.
- The other fields of `g_ipc_mtoc` and `g_ipc_ctom` are left out: signal-generator parameters beyond its enable, waveform reference, sample buffers, and DSP-module fields other than `dsp_class` and `id`. `init_ipc` leaves them as a TODO.
- The address translators are modelled on integers below 2^32, with the wrap-around of `uint32_t` subtraction, addition and shift written out, rather than on 32-bit bit-vectors.
- Concurrency between the two cores and interrupt preemption: every operation is one atomic step.
- `timer.c`, `usb_to_serial.c` and `system_task.h`: tick scheduling, UART I/O and task declarations, outside the modelled core.
