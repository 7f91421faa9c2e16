/** Function codes, states and operation handles of the PHY handler
    (src/dect_mac_phy_handler_types.h, with the encoding side of a handle in
    src/dect_mac_phy_handler.c and its decoding side in src/dect_mac_phy_handler_cb.c). */
module PhyTypes {

  datatype Option<+T> = None | Some(value: T)

  datatype Function =
    | Placeholder | CapabilityGet | Init | Deinit | Rx | Tx | TxHarq | TxRx
    | Rssi | RxStop | LinkConfig | TimeGet

  datatype PhyState =
    | Idling | GettingCapability | Initializing | Deinitializing | Transmitting | Receiving
    | MeasuringRssi | StoppingReception | GettingTime | Unknown

  /** The result a modem callback reports, as far as the handler distinguishes it. */
  datatype ModemErr = NoErr | InvalidStartTime | CombinedOpFailed | OtherErr

  const QUEUE_FLAG: bv32 := 0x0800_0000
  const HANDLE_MASK: bv32 := 0x0FFF_FFFF
  const HANDLE_HARQ: bv32 := 0xA0

  function Code(f: Function): bv32 {
    match f
    case Placeholder => 0
    case CapabilityGet => 1
    case Init => 2
    case Deinit => 3
    case Rx => 4
    case Tx => 5
    case TxHarq => 6
    case TxRx => 7
    case Rssi => 8
    case RxStop => 9
    case LinkConfig => 10
    case TimeGet => 11
  }

  /** The four operations whose handle carries the queue flag and whose end is reported by op_complete. */
  predicate IsRadio(f: Function) {
    f == Rx || f == Tx || f == TxHarq || f == TxRx
  }

  /** Bit 27 says that the operation was started by the queue. */
  function MarkQueued(handle: bv32): bv32 {
    handle | QUEUE_FLAG
  }

  /** The handle given to the modem: function code in the top four bits. */
  function TrueHandle(f: Function, handle: bv32): bv32 {
    (Code(f) << 28) | (handle & HANDLE_MASK)
  }

  function OperationCode(handle: bv32): bv32 {
    handle >> 28
  }

  predicate FromQueue(handle: bv32) {
    ((handle & QUEUE_FLAG) >> 27) == 1
  }

  /** The HARQ process whose retransmission timer a finished transmission arms. */
  function HarqTimer(handle: bv32): Option<bv32> {
    if handle & 0x07FF_FFF0 == HANDLE_HARQ then Some(handle & 0x0000_000F) else None
  }

  /** What op_complete does with one report (dect_mac_phy_op_complete_cb). */
  datatype Completion =
    | Retry
    | Ignore
    | SwitchToReception(harq: Option<bv32>)
    | Release
    | NotOurs

  function OpComplete(state: PhyState, err: ModemErr, handle: bv32): Completion {
    if err == InvalidStartTime then Retry
    else if err != NoErr then Ignore
    else if state == Transmitting && OperationCode(handle) == Code(TxRx) then
      SwitchToReception(HarqTimer(handle))
    else if FromQueue(handle) then Release
    else NotOurs
  }

  lemma TopBits(c: bv32, h: bv32)
    requires c < 16
    ensures var t := (c << 28) | (h & HANDLE_MASK);
            && t >> 28 == c
            && t & QUEUE_FLAG == h & QUEUE_FLAG
            && t & 0x07FF_FFF0 == (h & HANDLE_MASK) & 0x07FF_FFF0
            && t & 0xF == (h & HANDLE_MASK) & 0xF
  {
  }

  lemma FlagIsAboveTimerBits(h: bv32)
    ensures (MarkQueued(h) & HANDLE_MASK) & 0x07FF_FFF0 == h & 0x07FF_FFF0
    ensures (MarkQueued(h) & HANDLE_MASK) & 0xF == h & 0xF
  {
  }

  lemma TimerBits(h: bv32, n: bv32)
    requires h < QUEUE_FLAG && n < 16
    ensures h & 0x07FF_FFF0 == HANDLE_HARQ && h & 0xF == n <==> h == HANDLE_HARQ + n
    ensures h & 0x07FF_FFF0 == HANDLE_HARQ <==> HANDLE_HARQ <= h <= HANDLE_HARQ + 15
  {
  }

  /** The word the modem gets for a queued operation with a 27-bit user handle. */
  lemma HandleLayout(f: Function, handle: bv32)
    requires handle < QUEUE_FLAG
    ensures TrueHandle(f, MarkQueued(handle)) == 0x1000_0000 * Code(f) + 0x0800_0000 + handle
  {
  }

  /** The top five bits, for the four radio operations. */
  lemma HandleWords(handle: bv32)
    requires handle < QUEUE_FLAG
    ensures TrueHandle(Rx, MarkQueued(handle)) >> 27 == 0x9
    ensures TrueHandle(Tx, MarkQueued(handle)) >> 27 == 0xB
    ensures TrueHandle(TxHarq, MarkQueued(handle)) >> 27 == 0xD
    ensures TrueHandle(TxRx, MarkQueued(handle)) >> 27 == 0xF
  {
    TopFive(4, handle);
    TopFive(5, handle);
    TopFive(6, handle);
    TopFive(7, handle);
  }

  lemma TopFive(c: bv32, handle: bv32)
    requires handle < QUEUE_FLAG && c < 16
    ensures ((c << 28) | (MarkQueued(handle) & HANDLE_MASK)) >> 27 == (c << 1) | 1
  {
  }

  /** No two functions share a code. */
  lemma CodesDiffer(f: Function, g: Function)
    ensures Code(f) < 16 && (Code(f) == Code(g) <==> f == g)
  {
  }

  /** Every queued operation is recognised by op_complete, whatever handle the user chose:
      its code and its queue flag come back, and only TX_RX is ever held back for its second phase. */
  lemma HandleRoundTrip(f: Function, handle: bv32, state: PhyState)
    requires IsRadio(f)
    ensures var t := TrueHandle(f, MarkQueued(handle));
            && OperationCode(t) == Code(f)
            && FromQueue(t)
            && OpComplete(state, NoErr, t)
               == if f == TxRx && state == Transmitting
                  then SwitchToReception(HarqTimer(MarkQueued(handle) & HANDLE_MASK))
                  else Release
  {
    TopBits(Code(f), MarkQueued(handle));
  }

  /** For a 27-bit user handle, the timer of process n is armed exactly when the handle is HANDLE_HARQ + n. */
  lemma HarqTimerExact(handle: bv32, n: bv32)
    requires handle < QUEUE_FLAG && n < 16
    ensures HarqTimer(TrueHandle(TxRx, MarkQueued(handle))) == Some(n) <==> handle == HANDLE_HARQ + n
    ensures HarqTimer(TrueHandle(TxRx, MarkQueued(handle))) == None
            <==> handle < HANDLE_HARQ || HANDLE_HARQ + 15 < handle
  {
    TopBits(7, MarkQueued(handle));
    FlagIsAboveTimerBits(handle);
    TimerBits(handle, n);
  }

  /** The acknowledgement a receiver sends past the queue carries the queue flag itself, so its end gives the permit. */
  lemma AcknowledgementReleases(n: bv32, state: PhyState)
    requires n < 8
    ensures OpComplete(state, NoErr, TrueHandle(TxHarq, (HANDLE_HARQ + n) | QUEUE_FLAG)) == Release
  {
    HandleRoundTrip(TxHarq, HANDLE_HARQ + n, state);
  }
}
