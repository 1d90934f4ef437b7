/**
 * FAP-4P field-bus (CAN) telemetry decoder and interlock aggregator.
 *
 * Four isolated interface boards (IIB), one per power module, send eight-byte
 * CAN frames. A data frame carries one telemetry sample, which lands in exactly
 * one field of the addressed module's record. An interlock frame carries the
 * board's raw 32-bit interlock register, which is copied into one net signal of
 * the control core's shared memory, and it always requests the IIB hard
 * interlock for the module.
 *
 * Telemetry values are IEEE-754 floats in the firmware; here they are the raw
 * 32-bit words the float union holds, and they are never interpreted.
 */
module Fap4p {

  type Byte = bv8
  type Word = bv32

  /** A CAN frame as the handlers receive it: eight bytes. */
  type Frame = s: seq<Byte> | |s| == 8 witness [0, 0, 0, 0, 0, 0, 0, 0]

  datatype Option<T> = None | Some(value: T)

  /** Number of IIB boards, and of entries in the module record array. */
  const NUM_IIB: nat := 4

  /** Index in `net_signals` of the interlock register of IIB 1; IIB a uses FIRST + a - 1. */
  const IIB_ITLK_REG_FIRST: nat := 12

  // ---------------------------------------------------------------------------
  // Hard-interlock causes (hard_interlocks_t), in declaration order. The
  // handlers pass the enum value itself to set_hard_interlock, whose body is
  // not part of this model; its use of the value as a bit position is assumed.
  // ---------------------------------------------------------------------------

  datatype HardInterlock =
    | LoadOvercurrent
    | LoadOvervoltage
    | Igbt1Mod1Overcurrent
    | Igbt2Mod1Overcurrent
    | Igbt1Mod2Overcurrent
    | Igbt2Mod2Overcurrent
    | Igbt1Mod3Overcurrent
    | Igbt2Mod3Overcurrent
    | Igbt1Mod4Overcurrent
    | Igbt2Mod4Overcurrent
    | DcLinkMod1ContactorFault
    | DcLinkMod2ContactorFault
    | DcLinkMod3ContactorFault
    | DcLinkMod4ContactorFault
    | DcLinkMod1Overvoltage
    | DcLinkMod2Overvoltage
    | DcLinkMod3Overvoltage
    | DcLinkMod4Overvoltage
    | DcLinkMod1Undervoltage
    | DcLinkMod2Undervoltage
    | DcLinkMod3Undervoltage
    | DcLinkMod4Undervoltage
    | IibItlk

  /** The C enumeration value of a cause: its position in the declaration. */
  function Ordinal(c: HardInterlock): (n: nat)
    ensures n < 23
    ensures FromOrdinal(n) == c
  {
    match c
    case LoadOvercurrent => 0
    case LoadOvervoltage => 1
    case Igbt1Mod1Overcurrent => 2
    case Igbt2Mod1Overcurrent => 3
    case Igbt1Mod2Overcurrent => 4
    case Igbt2Mod2Overcurrent => 5
    case Igbt1Mod3Overcurrent => 6
    case Igbt2Mod3Overcurrent => 7
    case Igbt1Mod4Overcurrent => 8
    case Igbt2Mod4Overcurrent => 9
    case DcLinkMod1ContactorFault => 10
    case DcLinkMod2ContactorFault => 11
    case DcLinkMod3ContactorFault => 12
    case DcLinkMod4ContactorFault => 13
    case DcLinkMod1Overvoltage => 14
    case DcLinkMod2Overvoltage => 15
    case DcLinkMod3Overvoltage => 16
    case DcLinkMod4Overvoltage => 17
    case DcLinkMod1Undervoltage => 18
    case DcLinkMod2Undervoltage => 19
    case DcLinkMod3Undervoltage => 20
    case DcLinkMod4Undervoltage => 21
    case IibItlk => 22
  }

  /** The cause declared at position `n`. */
  function FromOrdinal(n: nat): HardInterlock
    requires n < 23
  {
    if n == 0 then LoadOvercurrent
    else if n == 1 then LoadOvervoltage
    else if n == 2 then Igbt1Mod1Overcurrent
    else if n == 3 then Igbt2Mod1Overcurrent
    else if n == 4 then Igbt1Mod2Overcurrent
    else if n == 5 then Igbt2Mod2Overcurrent
    else if n == 6 then Igbt1Mod3Overcurrent
    else if n == 7 then Igbt2Mod3Overcurrent
    else if n == 8 then Igbt1Mod4Overcurrent
    else if n == 9 then Igbt2Mod4Overcurrent
    else if n == 10 then DcLinkMod1ContactorFault
    else if n == 11 then DcLinkMod2ContactorFault
    else if n == 12 then DcLinkMod3ContactorFault
    else if n == 13 then DcLinkMod4ContactorFault
    else if n == 14 then DcLinkMod1Overvoltage
    else if n == 15 then DcLinkMod2Overvoltage
    else if n == 16 then DcLinkMod3Overvoltage
    else if n == 17 then DcLinkMod4Overvoltage
    else if n == 18 then DcLinkMod1Undervoltage
    else if n == 19 then DcLinkMod2Undervoltage
    else if n == 20 then DcLinkMod3Undervoltage
    else if n == 21 then DcLinkMod4Undervoltage
    else IibItlk
  }

  /**
   * The causes are the consecutive values 0..22: every value below 23 names
   * exactly one cause, two causes never share a value, and IIB_Itlk is 22.
   */
  lemma CausesAreConsecutive()
    ensures forall n :: 0 <= n < 23 ==> Ordinal(FromOrdinal(n)) == n
    ensures forall c, d :: Ordinal(c) == Ordinal(d) ==> c == d
    ensures Ordinal(IibItlk) == 22
  {
  }

  /**
   * The interlock-register bit that a cause is assumed to occupy: bit number
   * Ordinal(c). This encoding belongs to set_hard_interlock, which is not part
   * of this model, and is an assumption like Latched below.
   */
  function InterlockBit(c: HardInterlock): (b: Word)
    ensures b != 0
    ensures b & (b - 1) == 0
  {
    (1 as Word) << Ordinal(c)
  }

  /** Distinct causes occupy distinct bits of a 32-bit interlock register. */
  lemma InterlockBitsDisjoint(c: HardInterlock, d: HardInterlock)
    requires c != d
    ensures InterlockBit(c) & InterlockBit(d) == 0
  {
    CausesAreConsecutive();
    assert Ordinal(c) != Ordinal(d);
    ShiftedOnesDisjoint(Ordinal(c), Ordinal(d));
  }

  /** Two different single-bit words below bit 32 share no bit. */
  lemma ShiftedOnesDisjoint(i: nat, j: nat)
    requires i < 32 && j < 32 && i != j
    ensures ((1 as Word) << i) & ((1 as Word) << j) == 0
  {
  }

  // ---------------------------------------------------------------------------
  // Telemetry record of one IIB board (iib_fap_module_t) and the data ids.
  // ---------------------------------------------------------------------------

  /** The eleven telemetry quantities an IIB board of a FAP module reports. */
  datatype TelemetryField =
    | Vin | Vout | IoutA1 | IoutA2 | TempIgbt1 | TempIgbt2
    | DriveVoltage | Drive1Current | Drive2Current | TempL | TempHeatSink

  /** The data id under which an IIB board reports a quantity. */
  function DataId(f: TelemetryField): (id: Byte)
    ensures 2 <= id <= 12
  {
    match f
    case Vin => 2
    case Vout => 3
    case IoutA1 => 4
    case IoutA2 => 5
    case TempIgbt1 => 6
    case TempIgbt2 => 7
    case DriveVoltage => 8
    case Drive1Current => 9
    case Drive2Current => 10
    case TempL => 11
    case TempHeatSink => 12
  }

  /** The quantity a data id names; ids outside 2..12 name none. */
  function FieldOfId(id: Byte): (r: Option<TelemetryField>)
    ensures r.Some? <==> 2 <= id <= 12
    ensures r.Some? ==> DataId(r.value) == id
  {
    if id == 2 then Some(Vin)
    else if id == 3 then Some(Vout)
    else if id == 4 then Some(IoutA1)
    else if id == 5 then Some(IoutA2)
    else if id == 6 then Some(TempIgbt1)
    else if id == 7 then Some(TempIgbt2)
    else if id == 8 then Some(DriveVoltage)
    else if id == 9 then Some(Drive1Current)
    else if id == 10 then Some(Drive2Current)
    else if id == 11 then Some(TempL)
    else if id == 12 then Some(TempHeatSink)
    else None
  }

  /** Data ids and quantities are in one-to-one correspondence on 2..12. */
  lemma DataIdIsInverse(id: Byte, f: TelemetryField)
    ensures FieldOfId(id) == Some(f) <==> id == DataId(f)
  {
  }

  /**
   * The raw words of the eleven quantities, in data-id order: position k holds
   * the quantity with data id k + 2.
   */
  type Quantities = s: seq<Word> | |s| == 11 witness [0, 0, 0, 0, 0, 0, 0, 0, 0, 0, 0]

  /** Value of one module record: its CAN address and the raw word of each quantity. */
  datatype Telemetry = Telemetry(canAddress: Byte, quantities: Quantities)

  /** A record as static storage starts it: every byte zero. */
  const ZeroTelemetry: Telemetry := Telemetry(0, [0, 0, 0, 0, 0, 0, 0, 0, 0, 0, 0])

  /** The raw word of one quantity in a record. */
  function Get(t: Telemetry, f: TelemetryField): Word {
    t.quantities[DataId(f) as int - 2]
  }

  /**
   * What update_iib_structure does to a record value: a data id in 2..12
   * replaces the quantity it names, any other id leaves the record as it was.
   */
  function UpdateField(t: Telemetry, id: Byte, v: Word): (r: Telemetry)
    ensures r.canAddress == t.canAddress
    ensures !(2 <= id <= 12) ==> r == t
  {
    if 2 <= id <= 12 then t.(quantities := t.quantities[id as int - 2 := v]) else t
  }

  /**
   * A sample changes exactly the quantity its data id names and leaves the
   * other ten as they were; an unknown id changes none.
   */
  lemma UpdateFieldIsolation(t: Telemetry, id: Byte, v: Word, f: TelemetryField)
    ensures Get(UpdateField(t, id, v), f) == if FieldOfId(id) == Some(f) then v else Get(t, f)
  {
  }

  /** Applying the same sample twice leaves the record as applying it once. */
  lemma UpdateFieldIdempotent(t: Telemetry, id: Byte, v: Word)
    ensures UpdateField(UpdateField(t, id, v), id, v) == UpdateField(t, id, v)
  {
  }

  /** The second of two samples with the same id replaces the first. */
  lemma UpdateFieldLastWins(t: Telemetry, id: Byte, v1: Word, v2: Word)
    ensures UpdateField(UpdateField(t, id, v1), id, v2) == UpdateField(t, id, v2)
  {
  }

  // ---------------------------------------------------------------------------
  // Frame payload: bytes 4..7 written into u8[0..3] of a little-endian union.
  // ---------------------------------------------------------------------------

  /** The four bytes of a word, least significant first (the union's u8[0..3]). */
  function BytesOfWord(w: Word): (s: seq<Byte>)
    ensures |s| == 4
  {
    [(w & 0xFF) as Byte, ((w >> 8) & 0xFF) as Byte,
     ((w >> 16) & 0xFF) as Byte, ((w >> 24) & 0xFF) as Byte]
  }

  /** The word a little-endian union holds once u8[0..3] are b0..b3. */
  function WordOfBytes(b0: Byte, b1: Byte, b2: Byte, b3: Byte): (w: Word)
    ensures BytesOfWord(w) == [b0, b1, b2, b3]
  {
    (b0 as Word) | ((b1 as Word) << 8) | ((b2 as Word) << 16) | ((b3 as Word) << 24)
  }

  /** Splitting a word into its bytes and putting them back gives the word. */
  lemma WordBytesRoundTrip(w: Word)
    ensures var s := BytesOfWord(w); WordOfBytes(s[0], s[1], s[2], s[3]) == w
  {
  }

  /** The raw 32-bit payload of a frame: bytes 4..7, in that order. */
  function Payload(frame: Frame): (w: Word)
    ensures BytesOfWord(w) == frame[4..8]
  {
    WordOfBytes(frame[4], frame[5], frame[6], frame[7])
  }

  // ---------------------------------------------------------------------------
  // handle_can_data on the value of the four module records.
  // ---------------------------------------------------------------------------

  /** The frame's source address names one of the four boards. */
  predicate AddressInRange(frame: Frame) {
    1 <= frame[0] <= 4
  }

  /**
   * The index handle_can_data computes into iib_fap, as written: the address
   * byte minus one, with no range check. It lies inside the four-slot table
   * exactly when the address is 1..4.
   */
  function CanDataIndex(frame: Frame): (i: int)
    ensures 0 <= i < NUM_IIB <==> AddressInRange(frame)
    ensures i + 1 == frame[0] as int
  {
    frame[0] as int - 1
  }

  /**
   * Address bytes 0 and 5 (and every one above 4) make the unchecked index
   * point outside iib_fap: one slot below it and one slot past it.
   */
  lemma UncheckedAddressLeavesTable()
    ensures CanDataIndex([0, 2, 0, 0, 0, 0, 0, 0]) == -1
    ensures CanDataIndex([5, 2, 0, 0, 0, 0, 0, 0]) == NUM_IIB
    ensures forall f: Frame :: !AddressInRange(f) ==> !(0 <= CanDataIndex(f) < NUM_IIB)
  {
  }

  /** The array slot of the board a frame comes from (address - 1). */
  function Slot(frame: Frame): (i: nat)
    requires AddressInRange(frame)
    ensures i < NUM_IIB && i + 1 == frame[0] as int
  {
    frame[0] as nat - 1
  }

  /**
   * The four module records after a data frame: the addressed record gets the
   * payload in the quantity the data id names, the other three are untouched.
   * A frame whose address names no board changes nothing (the range check
   * handle_can_data lacks; see CanDataIndex).
   */
  function ApplyCanData(modules: seq<Telemetry>, frame: Frame): (r: seq<Telemetry>)
    requires |modules| == NUM_IIB
    ensures |r| == NUM_IIB
    ensures !AddressInRange(frame) ==> r == modules
    ensures AddressInRange(frame) ==>
      && (forall i :: 0 <= i < NUM_IIB && i != Slot(frame) ==> r[i] == modules[i])
      && r[Slot(frame)] == UpdateField(modules[Slot(frame)], frame[1], Payload(frame))
  {
    if AddressInRange(frame) then
      var i := Slot(frame);
      modules[i := UpdateField(modules[i], frame[1], Payload(frame))]
    else
      modules
  }

  /** Bytes 2 and 3 of a data frame never influence the result. */
  lemma ReservedBytesIgnored(modules: seq<Telemetry>, f: Frame, g: Frame)
    requires |modules| == NUM_IIB
    requires f[0] == g[0] && f[1] == g[1] && f[4..8] == g[4..8]
    ensures ApplyCanData(modules, f) == ApplyCanData(modules, g)
  {
  }

  /** A frame with an unknown data id leaves every record identical. */
  lemma UnknownIdIsNoOp(modules: seq<Telemetry>, frame: Frame)
    requires |modules| == NUM_IIB
    requires !(2 <= frame[1] <= 12)
    ensures ApplyCanData(modules, frame) == modules
  {
  }

  /** Records whose CAN addresses are as init_iib leaves them: slot i has address i + 1. */
  predicate SlotsAddressed(modules: seq<Telemetry>) {
    |modules| == NUM_IIB && forall i :: 0 <= i < NUM_IIB ==> modules[i].canAddress as int == i + 1
  }

  /**
   * With the addresses init_iib assigns, a data frame changes only the record
   * whose CAN address is the frame's source address, and keeps the addresses.
   */
  lemma FrameReachesAddressedRecord(modules: seq<Telemetry>, frame: Frame)
    requires SlotsAddressed(modules)
    ensures SlotsAddressed(ApplyCanData(modules, frame))
    ensures forall i :: 0 <= i < NUM_IIB && ApplyCanData(modules, frame)[i] != modules[i] ==>
      modules[i].canAddress == frame[0]
  {
  }

  /** The records after a sequence of data frames, handled in order. */
  function ApplyCanFrames(modules: seq<Telemetry>, frames: seq<Frame>): (r: seq<Telemetry>)
    requires |modules| == NUM_IIB
    ensures |r| == NUM_IIB
    decreases |frames|
  {
    if frames == [] then modules
    else ApplyCanFrames(ApplyCanData(modules, frames[0]), frames[1..])
  }

  /**
   * Cross-module non-interference: frames none of which comes from the board
   * in slot `b` leave the record in slot `b` unchanged, however many there are.
   */
  lemma {:induction false} OtherRecordUntouched(modules: seq<Telemetry>, frames: seq<Frame>, b: nat)
    requires |modules| == NUM_IIB && b < NUM_IIB
    requires forall k :: 0 <= k < |frames| ==> frames[k][0] as int != b + 1
    ensures ApplyCanFrames(modules, frames)[b] == modules[b]
    decreases |frames|
  {
    if frames != [] {
      var next := ApplyCanData(modules, frames[0]);
      assert next[b] == modules[b];
      OtherRecordUntouched(next, frames[1..], b);
    }
  }

  /**
   * A frame [3, 6, 0, 0, b0, b1, b2, b3] sets the first IGBT temperature of
   * the record in slot 2 to the word b0..b3 and changes nothing else.
   */
  lemma IgbtTemperatureFrame(modules: seq<Telemetry>, b0: Byte, b1: Byte, b2: Byte, b3: Byte)
    requires |modules| == NUM_IIB
    ensures var frame: Frame := [3, 6, 0, 0, b0, b1, b2, b3];
      var r := ApplyCanData(modules, frame);
      && Get(r[2], TempIgbt1) == WordOfBytes(b0, b1, b2, b3)
      && (forall f :: f != TempIgbt1 ==> Get(r[2], f) == Get(modules[2], f))
      && r[2].canAddress == modules[2].canAddress
      && r[0] == modules[0] && r[1] == modules[1] && r[3] == modules[3]
  {
  }

  // ---------------------------------------------------------------------------
  // handle_interlock_message on the value of the net signals.
  // ---------------------------------------------------------------------------

  /**
   * The net signals after an interlock frame: for address a in 1..4 the
   * interlock register of IIB a (signal 11 + a) is overwritten with the raw
   * payload; any other address writes no signal.
   */
  function ApplyInterlockSignals(signals: seq<Word>, frame: Frame): (r: seq<Word>)
    requires |signals| >= IIB_ITLK_REG_FIRST + NUM_IIB
    ensures |r| == |signals|
    ensures AddressInRange(frame) ==> r[IIB_ITLK_REG_FIRST + Slot(frame)] == Payload(frame)
    ensures forall i :: 0 <= i < |signals| && !(AddressInRange(frame) && i == IIB_ITLK_REG_FIRST + Slot(frame)) ==>
      r[i] == signals[i]
  {
    var payload := Payload(frame);
    var s1 := if frame[0] == 1 then signals[12 := payload] else signals;
    var s2 := if frame[0] == 2 then s1[13 := payload] else s1;
    var s3 := if frame[0] == 3 then s2[14 := payload] else s2;
    if frame[0] == 4 then s3[15 := payload] else s3
  }

  /**
   * The interlock register is assigned, not accumulated: after two frames from
   * the same board it holds the second payload alone.
   */
  lemma InterlockRegisterOverwritten(signals: seq<Word>, f: Frame, g: Frame)
    requires |signals| >= IIB_ITLK_REG_FIRST + NUM_IIB
    requires AddressInRange(f) && g[0] == f[0]
    ensures ApplyInterlockSignals(ApplyInterlockSignals(signals, f), g)[IIB_ITLK_REG_FIRST + Slot(f)]
      == Payload(g)
  {
  }

  // ---------------------------------------------------------------------------
  // set_hard_interlock: its body is not part of this model. Each call is
  // recorded as a request; the latch below is the ASSUMED meaning of the
  // recorded requests (each one ORs its cause bit into the module's register).
  // ---------------------------------------------------------------------------

  /** One call set_hard_interlock(id, cause); `id` is the C value address - 1. */
  datatype InterlockRequest = InterlockRequest(id: int, cause: HardInterlock)

  /** The request an interlock frame issues: IIB_Itlk for id address - 1, whatever the payload. */
  function InterlockRequestOf(frame: Frame): (req: InterlockRequest)
    ensures req.cause == IibItlk && req.id + 1 == frame[0] as int
  {
    InterlockRequest(frame[0] as int - 1, IibItlk)
  }

  /** Assumed latch: the bits of every cause requested so far for module `id`. */
  function Latched(log: seq<InterlockRequest>, id: int): Word
    decreases |log|
  {
    if log == [] then 0
    else
      var last := log[|log| - 1];
      Latched(log[..|log| - 1], id) | (if last.id == id then InterlockBit(last.cause) else 0)
  }

  /** Interlock monotonicity: further requests never clear a latched bit. */
  lemma {:induction false} LatchedMonotone(log: seq<InterlockRequest>, more: seq<InterlockRequest>, id: int)
    ensures Latched(log, id) & Latched(log + more, id) == Latched(log, id)
    decreases |more|
  {
    if more == [] {
      assert log + more == log;
    } else {
      var prefix := more[..|more| - 1];
      LatchedMonotone(log, prefix, id);
      assert (log + more)[..|log + more| - 1] == log + prefix;
    }
  }

  /**
   * Receipt of an interlock frame latches IIB_Itlk for module address - 1,
   * even when the payload is zero, and leaves every other module's latch alone.
   */
  lemma InterlockFrameLatches(log: seq<InterlockRequest>, frame: Frame, other: int)
    requires other != frame[0] as int - 1
    ensures Latched(log + [InterlockRequestOf(frame)], frame[0] as int - 1) & InterlockBit(IibItlk) != 0
    ensures Latched(log + [InterlockRequestOf(frame)], other) == Latched(log, other)
  {
  }

  // ---------------------------------------------------------------------------
  // State: the records of the four boards and the control core's net signals.
  // ---------------------------------------------------------------------------

  /** One iib_fap_module_t record, updated in place by address. */
  class IibModule {
    var canAddress: Byte
    var vin: Word
    var vout: Word
    var ioutA1: Word
    var ioutA2: Word
    var tempIgbt1: Word
    var tempIgbt2: Word
    var driveVoltage: Word
    var drive1Current: Word
    var drive2Current: Word
    var tempL: Word
    var tempHeatSink: Word

    /** The record's current value. */
    function Snapshot(): Telemetry
      reads this
    {
      var q: seq<Word> := [vin, vout, ioutA1, ioutA2, tempIgbt1, tempIgbt2,
                           driveVoltage, drive1Current, drive2Current, tempL, tempHeatSink];
      assert |q| == 11;
      Telemetry(canAddress, q)
    }

    /** A record in zero-initialised static storage. */
    constructor ()
      ensures Snapshot() == ZeroTelemetry
    {
      canAddress, vin, vout, ioutA1, ioutA2 := 0, 0, 0, 0, 0;
      tempIgbt1, tempIgbt2, driveVoltage := 0, 0, 0;
      drive1Current, drive2Current, tempL, tempHeatSink := 0, 0, 0, 0;
    }

    /** update_iib_structure: store one sample in the field its data id names. */
    method UpdateIibStructure(dataId: Byte, dataVal: Word)
      modifies this
      ensures Snapshot() == UpdateField(old(Snapshot()), dataId, dataVal)
    {
      match dataId
      case 2 =>
        vin := dataVal;
        assert Snapshot().quantities == old(Snapshot().quantities)[0 := dataVal];
      case 3 =>
        vout := dataVal;
        assert Snapshot().quantities == old(Snapshot().quantities)[1 := dataVal];
      case 4 =>
        ioutA1 := dataVal;
        assert Snapshot().quantities == old(Snapshot().quantities)[2 := dataVal];
      case 5 =>
        ioutA2 := dataVal;
        assert Snapshot().quantities == old(Snapshot().quantities)[3 := dataVal];
      case 6 =>
        tempIgbt1 := dataVal;
        assert Snapshot().quantities == old(Snapshot().quantities)[4 := dataVal];
      case 7 =>
        tempIgbt2 := dataVal;
        assert Snapshot().quantities == old(Snapshot().quantities)[5 := dataVal];
      case 8 =>
        driveVoltage := dataVal;
        assert Snapshot().quantities == old(Snapshot().quantities)[6 := dataVal];
      case 9 =>
        drive1Current := dataVal;
        assert Snapshot().quantities == old(Snapshot().quantities)[7 := dataVal];
      case 10 =>
        drive2Current := dataVal;
        assert Snapshot().quantities == old(Snapshot().quantities)[8 := dataVal];
      case 11 =>
        tempL := dataVal;
        assert Snapshot().quantities == old(Snapshot().quantities)[9 := dataVal];
      case 12 =>
        tempHeatSink := dataVal;
        assert Snapshot().quantities == old(Snapshot().quantities)[10 := dataVal];
      case _ =>
    }
  }

  /**
   * The file's global state: the array iib_fap of four board records, the
   * M3-to-C28 net signals, and the hard-interlock requests issued so far.
   */
  class Fap4pState {
    const iibFap: array<IibModule>
    const netSignals: array<Word>
    var hardInterlockRequests: seq<InterlockRequest>

    ghost predicate Valid()
      reads this, iibFap
    {
      && iibFap.Length == NUM_IIB
      && netSignals.Length >= IIB_ITLK_REG_FIRST + NUM_IIB
      && forall i, j :: 0 <= i < j < iibFap.Length ==> iibFap[i] != iibFap[j]
    }

    /** The values of the four board records, slot by slot. */
    ghost function Modules(): (ms: seq<Telemetry>)
      requires Valid()
      reads this, iibFap, iibFap[0], iibFap[1], iibFap[2], iibFap[3]
      ensures |ms| == NUM_IIB
    {
      [iibFap[0].Snapshot(), iibFap[1].Snapshot(), iibFap[2].Snapshot(), iibFap[3].Snapshot()]
    }

    /** Start-up state: zeroed records and signals, no interlock requested. */
    constructor (signalCount: nat)
      requires signalCount >= IIB_ITLK_REG_FIRST + NUM_IIB
      ensures Valid() && fresh(iibFap) && fresh(netSignals) && fresh(iibFap[..])
      ensures Modules() == [ZeroTelemetry, ZeroTelemetry, ZeroTelemetry, ZeroTelemetry]
      ensures netSignals.Length == signalCount && forall i :: 0 <= i < signalCount ==> netSignals[i] == 0
      ensures hardInterlockRequests == []
    {
      var m0 := new IibModule();
      var m1 := new IibModule();
      var m2 := new IibModule();
      var m3 := new IibModule();
      var slots := new IibModule[NUM_IIB] [m0, m1, m2, m3];
      assert slots[0] == m0 && slots[1] == m1 && slots[2] == m2 && slots[3] == m3;
      iibFap := slots;
      netSignals := new Word[signalCount] (_ => 0);
      hardInterlockRequests := [];
    }

    /** init_iib: slot i gets CAN address i + 1; nothing else changes. */
    method InitIib()
      requires Valid()
      modifies iibFap[..]
      ensures Valid()
      ensures SlotsAddressed(Modules())
      ensures Modules() == [old(Modules()[0]).(canAddress := 1), old(Modules()[1]).(canAddress := 2),
                            old(Modules()[2]).(canAddress := 3), old(Modules()[3]).(canAddress := 4)]
    {
      iibFap[0].canAddress := 1;
      iibFap[1].canAddress := 2;
      iibFap[2].canAddress := 3;
      iibFap[3].canAddress := 4;
    }

    /**
     * handle_can_data: decode the frame and update the addressed record. The
     * address is range-checked first; the source indexes without the check
     * (see CanDataIndex).
     */
    method HandleCanData(frame: Frame)
      requires Valid()
      modifies iibFap[..]
      ensures Valid()
      ensures Modules() == ApplyCanData(old(Modules()), frame)
    {
      var iibAddress := frame[0];
      var dataId := frame[1];
      var converter := WordOfBytes(frame[4], frame[5], frame[6], frame[7]);
      if 1 <= iibAddress <= 4 {
        iibFap[iibAddress as int - 1].UpdateIibStructure(dataId, converter);
      }
    }

    /** set_hard_interlock, recorded as a request (its body is not part of this model). */
    method SetHardInterlock(id: int, cause: HardInterlock)
      modifies this`hardInterlockRequests
      ensures hardInterlockRequests == old(hardInterlockRequests) + [InterlockRequest(id, cause)]
    {
      hardInterlockRequests := hardInterlockRequests + [InterlockRequest(id, cause)];
    }

    /**
     * handle_interlock_message: copy the raw payload into the addressed
     * board's interlock-register signal, then request IIB_Itlk for the module.
     */
    method HandleInterlockMessage(frame: Frame)
      requires Valid()
      modifies this`hardInterlockRequests, netSignals
      ensures Valid()
      ensures netSignals[..] == ApplyInterlockSignals(old(netSignals[..]), frame)
      ensures hardInterlockRequests == old(hardInterlockRequests) + [InterlockRequestOf(frame)]
      ensures Modules() == old(Modules())
    {
      var iibAddress := frame[0];
      var converter := WordOfBytes(frame[4], frame[5], frame[6], frame[7]);
      if iibAddress == 1 {
        netSignals[12] := converter;
      }
      if iibAddress == 2 {
        netSignals[13] := converter;
      }
      if iibAddress == 3 {
        netSignals[14] := converter;
      }
      if iibAddress == 4 {
        netSignals[15] := converter;
      }
      SetHardInterlock(iibAddress as int - 1, IibItlk);
    }
  }
}
