/**
 * Inter-processor communication between the M3 (communications) core and the
 * C28 (control) core.
 *
 * The M3 sends by setting bits in its M3-to-C28 flag register and records the
 * message id in the shared M3-to-C28 message RAM. A low-priority message packs
 * a command code into bits [7:4] next to a tag in bits [3:0]. The C28 sends
 * the same way; the M3's interrupt handler latches the incoming status, clears
 * it, and acts on two HRADC reset commands. A pair of pure translators maps
 * shared-memory addresses between the two cores' address spaces.
 *
 * Registers are 32-bit words and every operation is one atomic sequential step.
 */
module IpcLib {

  type Word = bv32
  type Byte = bv8

  /**
   * Addresses are the source's uint32_t values, kept as integers so that the
   * wrap-around of its unsigned arithmetic is written out by Wrap.
   */
  type U32 = x: int | 0 <= x < 0x1_0000_0000

  /** First M3 address of the C28-to-M3 message RAM. */
  const M3_CTOMMSGRAM_START: U32 := 0x2007F000
  /** First C28 address of the C28-to-M3 message RAM. */
  const C28_CTOMMSGRAM_START: U32 := 0x0003F800
  /** Offset between the two cores' views of message RAM (in M3 bytes). */
  const MSGRAM_OFFSET: U32 := 0x20000000
  /** Offset between the two cores' views of the Sx shared RAM (in M3 bytes). */
  const SXRAM_OFFSET: U32 := 0x1FFF0000

  /** Reduction modulo 2^32: what uint32_t arithmetic keeps of a result. */
  function Wrap(x: int): (r: U32)
    ensures 0 <= x < 0x1_0000_0000 ==> r == x
  {
    x % 0x1_0000_0000
  }

  // ---------------------------------------------------------------------------
  // Low-priority message format
  // ---------------------------------------------------------------------------

  /**
   * The register value that carries low-priority command `msg` under `tag`:
   * the command shifted into bits [7:4], the tag OR'd in, masked to 16 bits.
   */
  function LowPriorityMsgToReg(msg: Word, tag: Word): (r: Word)
    ensures r <= 0xFFFF
  {
    ((msg << 4) | tag) & 0xFFFF
  }

  /**
   * GET_IPC_CTOM_LOWPRIORITY_MSG: the command code a receiver reads back from a
   * register value. Its macro lives in ipc_lib.h, which is not part of this
   * model; it is taken to be bits [7:4], where the sender packs the code.
   */
  function LowPriorityCode(reg: Word): (code: Word)
    ensures code < 16
    ensures code << 4 == reg & 0xF0
  {
    (reg >> 4) & 0xF
  }

  /**
   * Every code in range survives the encoding: encoding and then extracting
   * gives the code back, and the tag stays in the low nibble.
   */
  lemma LowPriorityRoundTrip(msg: Word, tag: Word)
    requires msg < 16 && tag < 16
    ensures LowPriorityCode(LowPriorityMsgToReg(msg, tag)) == msg
    ensures LowPriorityMsgToReg(msg, tag) & 0xF == tag
    ensures LowPriorityMsgToReg(msg, tag) >> 8 == 0
  {
  }

  // ---------------------------------------------------------------------------
  // Shared-memory address translation
  // ---------------------------------------------------------------------------

  /**
   * ipc_mtoc_translate: an M3 byte address to the C28 word address. Message
   * RAM (from M3_CTOMMSGRAM_START up) and Sx RAM use different offsets; the
   * subtraction wraps and the shift right by one halves.
   */
  function MtocTranslate(sharedAdd: U32): (r: U32)
    ensures r < 0x80000000
    ensures sharedAdd >= M3_CTOMMSGRAM_START ==> r >= C28_CTOMMSGRAM_START
  {
    if sharedAdd >= M3_CTOMMSGRAM_START then
      Wrap(sharedAdd - MSGRAM_OFFSET) / 2
    else
      Wrap(sharedAdd - SXRAM_OFFSET) / 2
  }

  /**
   * ipc_ctom_translate: a C28 word address to the M3 byte address. The shift
   * left by one and the addition both wrap.
   */
  function CtomTranslate(sharedAdd: U32): (r: U32)
    ensures r % 2 == 0
  {
    if sharedAdd >= C28_CTOMMSGRAM_START then
      Wrap(Wrap(sharedAdd * 2) + MSGRAM_OFFSET)
    else
      Wrap(Wrap(sharedAdd * 2) + SXRAM_OFFSET)
  }

  /**
   * A C28 address below 0x70000000 lands in the M3 region of its own kind:
   * message-RAM addresses at or above M3_CTOMMSGRAM_START, Sx addresses in
   * [SXRAM_OFFSET, 0x2006F000).
   */
  lemma CtomTranslateRegions(y: U32)
    requires y < 0x70000000
    ensures y >= C28_CTOMMSGRAM_START ==> CtomTranslate(y) >= M3_CTOMMSGRAM_START
    ensures y < C28_CTOMMSGRAM_START ==> SXRAM_OFFSET <= CtomTranslate(y) < 0x2006F000
  {
  }

  /**
   * Every C28 address below 0x70000000, in either region, comes back
   * unchanged after translating to the M3 and back.
   */
  lemma CtomThenMtoc(y: U32)
    requires y < 0x70000000
    ensures MtocTranslate(CtomTranslate(y)) == y
  {
  }

  /**
   * An M3 address in message RAM, or in [SXRAM_OFFSET, 0x2006F000), comes
   * back after translating to the C28 and back with bit 0 cleared: unchanged
   * when even, one lower when odd.
   */
  lemma MtocThenCtom(x: U32)
    requires x >= M3_CTOMMSGRAM_START || SXRAM_OFFSET <= x < 0x2006F000
    ensures CtomTranslate(MtocTranslate(x)) == x - x % 2
  {
  }

  // ---------------------------------------------------------------------------
  // Flag register arithmetic
  // ---------------------------------------------------------------------------

  /** ipc_mtoc_busy's test: 1 when a flag of `mask` is pending in `flags`, else 0. */
  function BusyOf(flags: Word, mask: Word): (r: bv16)
    ensures r <= 1
    ensures r == 1 <==> flags & mask != 0
    ensures mask == 0 ==> r == 0
  {
    if flags & mask == 0 then 0 else 1
  }

  /**
   * A flag register after the receiver acknowledges the bits of `ack`
   * (IPCCtoMFlagAcknowledge on the M3, its counterpart on the C28): those
   * bits are clear and every other pending bit is kept.
   */
  function Acknowledge(pending: Word, ack: Word): (r: Word)
    ensures r & ack == 0
    ensures r | ack == pending | ack
  {
    pending & !ack
  }

  /**
   * A flag just set is busy; once the peer acknowledges (clears) it, the same
   * mask tests not busy, whatever else is pending.
   */
  lemma BusyUntilAcknowledged(pending: Word, flag: Word)
    requires flag != 0
    ensures BusyOf(pending | flag, flag) == 1
    ensures BusyOf(Acknowledge(pending | flag, flag), flag) == 0
  {
  }

  /**
   * Acknowledging one flag leaves the busy state of every disjoint mask as it
   * was before that flag was set.
   */
  lemma AcknowledgeKeepsOthers(pending: Word, flag: Word, other: Word)
    requires other & flag == 0
    ensures BusyOf(Acknowledge(pending | flag, flag), other) == BusyOf(pending, other)
  {
    assert Acknowledge(pending | flag, flag) & other == pending & other;
  }

  // ---------------------------------------------------------------------------
  // Firmware version strings
  // ---------------------------------------------------------------------------

  /**
   * How the M3 sees a C28 string in message RAM: C28 characters are 16 bits
   * wide and stored little-endian, so each character byte is followed by a
   * zero high byte.
   */
  function Widen(s: seq<Byte>): (w: seq<Byte>)
    ensures |w| == 2 * |s|
  {
    if s == [] then [] else [s[0], 0] + Widen(s[1..])
  }

  /** Every other byte of `s`, starting with the first: n of them. */
  function EveryOther(s: seq<Byte>, n: nat): (r: seq<Byte>)
    requires 2 * n <= |s| + 1
    ensures |r| == n
    ensures forall i :: 0 <= i < n ==> r[i] == s[2 * i]
  {
    seq(n, i requires 0 <= i < n => s[2 * i])
  }

  /** Character i of a widened string sits at byte 2 * i. */
  lemma {:induction false} WidenAt(s: seq<Byte>, i: nat)
    requires i < |s|
    ensures Widen(s)[2 * i] == s[i] && Widen(s)[2 * i + 1] == 0
    decreases |s|
  {
    if i > 0 {
      WidenAt(s[1..], i - 1);
      assert Widen(s) == [s[0], 0] + Widen(s[1..]);
    }
  }

  /** Taking every other byte of a widened C28 string gives back the string. */
  lemma EveryOtherOfWiden(s: seq<Byte>)
    ensures EveryOther(Widen(s), |s|) == s
  {
    forall i | 0 <= i < |s|
      ensures EveryOther(Widen(s), |s|)[i] == s[i]
    {
      WidenAt(s, i);
    }
  }

  // ---------------------------------------------------------------------------
  // State: the M3-to-C28 message RAM, the flag registers, the version arrays.
  // ---------------------------------------------------------------------------

  /** error_ctom: only its "no error" value is used by this code. */
  datatype CtoMError = NoErrorCtoM | ErrorCtoM(code: nat)

  /**
   * ps_status of one power-supply module: the active bit, the model field,
   * and all remaining status bits taken together.
   */
  datatype PsStatus = PsStatus(active: bool, model: nat, otherBits: nat)

  /**
   * One entry of ps_module: status, set-point, reference and the interlock
   * registers, each as its 32-bit pattern (the float 0.0 is the zero word).
   */
  datatype PsModule = PsModule(
    status: PsStatus, setpoint: Word, reference: Word,
    softInterlock: Word, hardInterlock: Word)

  /** A module entry as init_ipc leaves it. */
  function InitialModule(i: nat, numPsModules: nat, psModel: nat): (m: PsModule)
    ensures m.softInterlock == 0 && m.hardInterlock == 0
    ensures m.setpoint == 0 && m.reference == 0
    ensures m.status.active <==> i < numPsModules
    ensures m.status.model == psModel && m.status.otherBits == 0
  {
    PsModule(PsStatus(i < numPsModules, psModel, 0), 0, 0, 0, 0)
  }

  class Ipc {
    // Values of ipc_lib.h, which is not part of this model.
    /** IPC_MTOC_LOWPRIORITY_MSG: the tag of an M3-to-C28 low-priority message. */
    const mtocLowPriorityTag: Word
    /** Command codes Enable_HRADC_Boards and Disable_HRADC_Boards. */
    const enableHradcBoards: Word
    const disableHradcBoards: Word

    // g_ipc_mtoc
    var msgCtom: Word
    var msgId: bv16
    var errorCtom: CtoMError
    const psModule: array<PsModule>
    var siggenEnable: bv16
    var dspClass: nat
    var dspId: nat

    // Registers. Writing MTOCIPCSET sets bits in the pending-flag register
    // MTOCIPCFLG; the C28 clears them when it acknowledges.
    var mtocIpcFlg: Word
    var ctomIpcSts: Word
    var lowPriorityIsrEnabled: bool
    /** The level last driven on the HRADC reset control (1 holds the boards in reset). */
    var hradcRstCtrl: int

    // Versions: the M3 build string, g_ipc_ctom.udc_c28_version, and the two
    // SIZE_VERSION-long arrays of firmwares_version.cores.
    const udcArmVersion: array<Byte>
    const udcC28Version: array<Byte>
    const fwUdcArm: array<Byte>
    const fwUdcC28: array<Byte>

    /**
     * Class invariant: the header codes fit a nibble, the sizes fit the
     * uint8_t loop counters, the version arrays are large enough, and the
     * module table and the four version arrays are pairwise distinct objects,
     * so that writing one of them leaves the others alone. It reads only
     * const fields, so no method can break it.
     */
    ghost predicate Valid()
      reads this
    {
      && mtocLowPriorityTag < 16 && enableHradcBoards < 16 && disableHradcBoards < 16
      && psModule.Length < 256
      && fwUdcArm.Length == fwUdcC28.Length < 256
      && fwUdcArm.Length <= udcArmVersion.Length
      && 2 * fwUdcC28.Length <= udcC28Version.Length + 1
      && psModule as object !in {fwUdcArm, fwUdcC28, udcArmVersion, udcC28Version}
      && fwUdcArm != fwUdcC28
      && fwUdcArm != udcArmVersion && fwUdcArm != udcC28Version
      && fwUdcC28 != udcArmVersion && fwUdcC28 != udcC28Version
    }

    /**
     * State at reset: the given header constants and version strings,
     * zeroed message RAM and registers, interrupt not yet enabled.
     */
    constructor (tag: Word, enableCode: Word, disableCode: Word,
                 numMaxPsModules: nat, sizeVersion: nat,
                 armVersion: seq<Byte>, c28Version: seq<Byte>)
      requires tag < 16 && enableCode < 16 && disableCode < 16
      requires numMaxPsModules < 256 && sizeVersion < 256
      requires sizeVersion <= |armVersion| && 2 * sizeVersion <= |c28Version| + 1
      ensures Valid()
      ensures mtocLowPriorityTag == tag && enableHradcBoards == enableCode && disableHradcBoards == disableCode
      ensures psModule.Length == numMaxPsModules && fwUdcArm.Length == sizeVersion
      ensures udcArmVersion[..] == armVersion && udcC28Version[..] == c28Version
      ensures fresh(psModule) && fresh(udcArmVersion) && fresh(udcC28Version)
      ensures fresh(fwUdcArm) && fresh(fwUdcC28)
      ensures mtocIpcFlg == 0 && ctomIpcSts == 0 && !lowPriorityIsrEnabled
    {
      mtocLowPriorityTag, enableHradcBoards, disableHradcBoards := tag, enableCode, disableCode;
      msgCtom, msgId, errorCtom := 0, 0, NoErrorCtoM;
      psModule := new PsModule[numMaxPsModules] (_ => PsModule(PsStatus(false, 0, 0), 0, 0, 0, 0));
      siggenEnable, dspClass, dspId := 0, 0, 0;
      mtocIpcFlg, ctomIpcSts, lowPriorityIsrEnabled, hradcRstCtrl := 0, 0, false, 0;
      udcArmVersion := new Byte[|armVersion|] (i requires 0 <= i < |armVersion| => armVersion[i]);
      udcC28Version := new Byte[|c28Version|] (i requires 0 <= i < |c28Version| => c28Version[i]);
      fwUdcArm := new Byte[sizeVersion] (_ => 0);
      fwUdcC28 := new Byte[sizeVersion] (_ => 0);
    }

    /**
     * init_ipc: reset the message fields, give every module entry its initial
     * value, mark the first numPsModules entries active, clear the signal
     * generator enable and the DSP module id, and enable the low-priority
     * interrupt. psModel and numPsModules are the configured parameters.
     */
    method InitIpc(psModel: nat, numPsModules: nat)
      requires Valid()
      requires numPsModules <= psModule.Length
      modifies this`msgCtom, this`msgId, this`errorCtom, this`siggenEnable,
               this`dspClass, this`dspId, this`lowPriorityIsrEnabled, psModule
      ensures Valid()
      ensures msgCtom == 0 && msgId == 0 && errorCtom == NoErrorCtoM
      ensures forall i :: 0 <= i < psModule.Length ==>
        psModule[i] == InitialModule(i, numPsModules, psModel)
      ensures siggenEnable == 0 && dspClass == 0 && dspId == 0
      ensures lowPriorityIsrEnabled
    {
      msgCtom := 0;
      msgId := 0;
      errorCtom := NoErrorCtoM;

      var i := 0;
      while i < psModule.Length
        invariant 0 <= i <= psModule.Length
        invariant msgCtom == 0 && msgId == 0 && errorCtom == NoErrorCtoM
        invariant forall k :: 0 <= k < i ==> psModule[k] == InitialModule(k, 0, psModel)
      {
        psModule[i] := PsModule(PsStatus(false, psModel, 0), 0, 0, 0, 0);
        i := i + 1;
      }

      i := 0;
      while i < numPsModules
        invariant 0 <= i <= numPsModules
        invariant msgCtom == 0 && msgId == 0 && errorCtom == NoErrorCtoM
        invariant forall k :: 0 <= k < psModule.Length ==>
          psModule[k] == InitialModule(k, if k < i then numPsModules else 0, psModel)
      {
        psModule[i] := psModule[i].(status := psModule[i].status.(active := true));
        i := i + 1;
      }

      siggenEnable := 0;
      dspClass := 0;
      dspId := 0;
      lowPriorityIsrEnabled := true;
    }

    /** send_ipc_msg: record the message id and set the flag bits. */
    method SendIpcMsg(id: bv16, flag: Word)
      requires Valid()
      modifies this`msgId, this`mtocIpcFlg
      ensures Valid()
      ensures msgId == id
      ensures mtocIpcFlg == old(mtocIpcFlg) | flag
    {
      msgId := id;
      mtocIpcFlg := mtocIpcFlg | flag;
    }

    /** send_ipc_lowpriority_msg: record the message id and set the packed command. */
    method SendIpcLowPriorityMsg(id: bv16, msg: Word)
      requires Valid()
      modifies this`msgId, this`mtocIpcFlg
      ensures Valid()
      ensures msgId == id
      ensures mtocIpcFlg == old(mtocIpcFlg) | LowPriorityMsgToReg(msg, mtocLowPriorityTag)
    {
      msgId := id;
      mtocIpcFlg := mtocIpcFlg | LowPriorityMsgToReg(msg, mtocLowPriorityTag);
    }

    /** ipc_mtoc_busy: 1 when a flag of the mask is still pending, else 0. */
    method IpcMtocBusy(ulFlags: Word) returns (r: bv16)
      ensures r == BusyOf(mtocIpcFlg, ulFlags)
      ensures r <= 1
      ensures r == 1 <==> mtocIpcFlg & ulFlags != 0
      ensures ulFlags == 0 ==> r == 0
    {
      if mtocIpcFlg & ulFlags == 0 {
        r := 0;
      } else {
        r := 1;
      }
    }

    /** get_firmwares_version: copy both build strings into firmwares_version. */
    method GetFirmwaresVersion()
      requires Valid()
      modifies fwUdcArm, fwUdcC28
      ensures Valid()
      ensures fwUdcArm[..] == udcArmVersion[..fwUdcArm.Length]
      ensures fwUdcC28[..] == EveryOther(udcC28Version[..], fwUdcC28.Length)
    {
      var i := 0;
      while i < fwUdcArm.Length
        invariant 0 <= i <= fwUdcArm.Length
        invariant forall k :: 0 <= k < i ==> fwUdcArm[k] == udcArmVersion[k]
        invariant forall k :: 0 <= k < i ==> fwUdcC28[k] == udcC28Version[2 * k]
      {
        fwUdcArm[i] := udcArmVersion[i];
        fwUdcC28[i] := udcC28Version[2 * i];
        i := i + 1;
      }
    }

    /**
     * isr_ipc_lowpriority_msg: latch the incoming status into msg_ctom,
     * acknowledge exactly those bits, and act on the two HRADC commands;
     * any other command code is ignored.
     */
    method IsrIpcLowPriorityMsg()
      requires Valid()
      modifies this`msgCtom, this`ctomIpcSts, this`hradcRstCtrl
      ensures Valid()
      ensures msgCtom == old(ctomIpcSts)
      ensures ctomIpcSts == Acknowledge(old(ctomIpcSts), msgCtom)
      ensures LowPriorityCode(msgCtom) == enableHradcBoards ==> hradcRstCtrl == 0
      ensures LowPriorityCode(msgCtom) != enableHradcBoards && LowPriorityCode(msgCtom) == disableHradcBoards ==>
        hradcRstCtrl == 1
      ensures LowPriorityCode(msgCtom) != enableHradcBoards && LowPriorityCode(msgCtom) != disableHradcBoards ==>
        hradcRstCtrl == old(hradcRstCtrl)
    {
      msgCtom := ctomIpcSts;
      ctomIpcSts := Acknowledge(ctomIpcSts, msgCtom);
      var code := LowPriorityCode(msgCtom);
      if code == enableHradcBoards {
        hradcRstCtrl := 0;
      } else if code == disableHradcBoards {
        hradcRstCtrl := 1;
      }
    }
  }
}
