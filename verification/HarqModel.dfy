/** The pool of HARQ processes of src/dect_mac_harq.c, one function call at a time. */
module HarqModel {
  import opened PhyTypes

  type Bytes = seq<bv8>

  /** The heap: live blocks with their contents, and every block given back so far, in order. */
  datatype Heap = Heap(live: map<nat, Bytes>, next: nat, freed: seq<nat>)

  datatype Payload = Payload(data: Option<nat>, len: nat, receiver: nat)

  datatype Process = Process(
    number: nat,
    payload: Payload,
    count: nat,      // transmission_count, 8 bits
    rv: nat,         // redundancy_version
    ndi: bool,       // new_data_indication
    pending: bool)   // retransmission_work is scheduled

  /** The parameters of one TX_RX operation handed to dect_phy_queue_put. */
  datatype Descriptor = Descriptor(handle: bv32, payload: Payload, rv: nat, ndi: bool, process: nat)

  /** A descriptor, with the number of NACKs at the time it was handed over. */
  datatype Sent = Sent(descriptor: Descriptor, nacks: nat)

  /** Bookkeeping of one process: what it handed over since its last re-initialisation or transmit, and the
      NACKs since its last re-initialisation or format 6 response. */
  datatype Track = Track(sent: seq<Sent>, nacks: nat)

  datatype Pool = Pool(procs: seq<Process>, occupied: seq<bool>, initialized: bool, heap: Heap, tracks: seq<Track>)

  /** The Kconfig choices the pool depends on. */
  datatype Config = Config(processCount: nat, maxTransmissions: nat)

  predicate ValidConfig(c: Config) {
    1 <= c.processCount <= 8 && 1 <= c.maxTransmissions <= 255
  }

  datatype Code = Ok | NoFreeHarq | NoMemHeap

  /** The allocator may refuse any request. */
  function Malloc(h: Heap, bytes: Bytes): Heap {
    Heap(h.live[h.next := bytes], h.next + 1, h.freed)
  }

  /** k_free: nothing for a null pointer. */
  function Free(h: Heap, data: Option<nat>): Heap {
    if data.Some? then Heap(h.live - {data.value}, h.next, h.freed + [data.value]) else h
  }

  const NO_PAYLOAD := Payload(None, 0, 0)

  const EMPTY_TRACK := Track([], 0)

  /** dect_mac_harq_init_process; the new-data bit and the work item are left as they are. */
  function InitProcess(p: Pool, i: nat): Pool
    requires i < |p.procs| && i < |p.tracks|
  {
    var was := p.procs[i];
    p.(procs := p.procs[i := Process(i, NO_PAYLOAD, 0, 0, was.ndi, was.pending)],
       heap := Free(p.heap, was.payload.data),
       tracks := p.tracks[i := EMPTY_TRACK])
  }

  /** One round of the loop of dect_mac_harq_initialize. */
  function BootProcess(p: Pool, i: nat): Pool
    requires i < |p.procs| && i < |p.tracks| && i < |p.occupied|
  {
    var q := InitProcess(p, i);
    q.(procs := q.procs[i := q.procs[i].(ndi := true, pending := false)], occupied := q.occupied[i := false])
  }

  predicate Sized(p: Pool, n: nat) {
    |p.procs| == |p.occupied| == |p.tracks| == n
  }

  /** Processes 0 to k - 1 booted. */
  function BootUpTo(p: Pool, k: nat): (r: Pool)
    requires Sized(p, |p.procs|) && k <= |p.procs|
    ensures Sized(r, |p.procs|)
  {
    if k == 0 then p else BootProcess(BootUpTo(p, k - 1), k - 1)
  }

  /** dect_mac_harq_initialize, which every take and give calls first. */
  function Initialize(p: Pool): (r: Pool)
    requires Sized(p, |p.procs|)
    ensures Sized(r, |p.procs|) && r.initialized
  {
    if p.initialized then p else BootUpTo(p, |p.procs|).(initialized := true)
  }

  /** The first free process from index k on; the number of processes if there is none. */
  function FirstFree(occupied: seq<bool>, k: nat): (i: nat)
    requires k <= |occupied|
    ensures k <= i <= |occupied|
    ensures i < |occupied| ==> !occupied[i]
    ensures forall j :: k <= j < i ==> occupied[j]
    decreases |occupied| - k
  {
    if k == |occupied| || !occupied[k] then k else FirstFree(occupied, k + 1)
  }

  /** Occupies process i and toggles its new-data bit. */
  function Occupy(p: Pool, i: nat): Pool
    requires i < |p.procs| && i < |p.occupied|
  {
    p.(occupied := p.occupied[i := true], procs := p.procs[i := p.procs[i].(ndi := !p.procs[i].ndi)])
  }

  /** dect_mac_harq_give_process for the process at index i. */
  function Give(p: Pool, i: nat): Pool
    requires Sized(p, |p.procs|) && i < |p.procs|
  {
    var q := InitProcess(Initialize(p), i);
    q.(occupied := q.occupied[i := false], procs := q.procs[i := q.procs[i].(pending := false)])
  }

  /** The redundancy version after k NACKs: 0, 2, 3, 1, 0, ... */
  function Version(k: nat): nat {
    match k % 4
    case 0 => 0
    case 1 => 2
    case 2 => 3
    case _ => 1
  }

  /** dect_mac_harq_increment_redundancy_version. */
  function NextVersion(rv: nat): nat {
    match rv
    case 0 => 2
    case 1 => 0
    case 2 => 3
    case 3 => 1
    case _ => rv
  }

  function DescriptorOf(q: Process): Descriptor {
    Descriptor(HANDLE_HARQ + NumberBits(q.number), q.payload, q.rv, q.ndi, q.number)
  }

  function NumberBits(n: nat): bv32 {
    (n % 16) as bv32
  }

  /** dect_mac_harq_transmit; ok is the answer of the allocator. */
  function Transmit(p: Pool, bytes: Bytes, receiver: nat, ok: bool): (Pool, Code)
    requires Sized(p, |p.procs|)
  {
    var q := Initialize(p);
    var i := FirstFree(q.occupied, 0);
    if i == |q.occupied| then (q, NoFreeHarq)
    else if !ok then (Give(Occupy(q, i), i), NoMemHeap)
    else (Launch(Occupy(q, i), i, bytes, receiver), Ok)
  }

  /** Copies the data into process i and hands over its first descriptor. */
  function Launch(p: Pool, i: nat, bytes: Bytes, receiver: nat): Pool
    requires i < |p.procs| && i < |p.tracks|
  {
    var q := p.procs[i].(payload := Payload(Some(p.heap.next), |bytes|, receiver), count := 1);
    p.(heap := Malloc(p.heap, bytes),
       procs := p.procs[i := q],
       tracks := p.tracks[i := Track([Sent(DescriptorOf(q), p.tracks[i].nacks)], p.tracks[i].nacks)])
  }

  /** dect_mac_harq_retransmit for the process at index i. */
  function Retransmit(p: Pool, i: nat): Pool
    requires i < |p.procs| && i < |p.tracks|
  {
    var q := p.procs[i].(count := (p.procs[i].count + 1) % 256);
    var t := p.tracks[i];
    p.(procs := p.procs[i := q], tracks := p.tracks[i := t.(sent := t.sent + [Sent(DescriptorOf(q), t.nacks)])])
  }

  function SetPending(p: Pool, i: nat, pending: bool): Pool
    requires i < |p.procs|
  {
    p.(procs := p.procs[i := p.procs[i].(pending := pending)])
  }

  /** dect_mac_harq_retransmission_work_handler, started by the work queue. */
  function Work(c: Config, p: Pool, i: nat): Pool
    requires Sized(p, |p.procs|) && i < |p.procs|
  {
    var q := SetPending(p, i, false);
    if q.procs[i].count < c.maxTransmissions then Retransmit(q, i) else Give(q, i)
  }

  /** The NACK branch of dect_mac_harq_response. */
  function Nacked(p: Pool, i: nat): Pool
    requires i < |p.procs| && i < |p.tracks|
  {
    var q := p.procs[i];
    p.(procs := p.procs[i := q.(rv := NextVersion(q.rv), pending := true)],
       tracks := p.tracks[i := p.tracks[i].(nacks := p.tracks[i].nacks + 1)])
  }

  /** Its format 6 branch: the receiver could not store the data. */
  function Refused(p: Pool, i: nat): Pool
    requires i < |p.procs| && i < |p.tracks|
  {
    p.(procs := p.procs[i := p.procs[i].(rv := 0, pending := true)],
       tracks := p.tracks[i := p.tracks[i].(nacks := 0)])
  }

  datatype Event =
    | Transmitted(bytes: Bytes, receiver: nat, ok: bool)
    | AckReceived(i: nat)
    | NackReceived(i: nat)
    | RefusalReceived(i: nat)
    | TimerArmed(i: nat)         // by op_complete, after the transmission phase of a TX_RX of process i
    | WorkRuns(i: nat)
    | RequestReceived(i: nat)    // dect_mac_harq_request re-initialises the entry it shares with transmit

  predicate Enabled(c: Config, p: Pool, e: Event) {
    e.Transmitted? || (e.i < c.processCount && (e.WorkRuns? ==> p.initialized && e.i < |p.procs| && p.procs[e.i].pending))
  }

  function Next(c: Config, p: Pool, e: Event): Pool
    requires Sized(p, c.processCount) && Enabled(c, p, e)
  {
    match e
    case Transmitted(bytes, receiver, ok) => Transmit(p, bytes, receiver, ok).0
    case AckReceived(i) => Give(SetPending(p, i, false), i)
    case NackReceived(i) => Nacked(p, i)
    case RefusalReceived(i) => Refused(p, i)
    case TimerArmed(i) => SetPending(p, i, true)
    case WorkRuns(i) => Work(c, p, i)
    case RequestReceived(i) => InitProcess(p, i)
  }

  /** Boot: all variables zero. */
  function Boot(c: Config): (p: Pool)
    ensures Sized(p, c.processCount)
  {
    Pool(seq(c.processCount, _ => Process(0, NO_PAYLOAD, 0, 0, false, false)), seq(c.processCount, _ => false),
         false, Heap(map[], 0, []), seq(c.processCount, _ => EMPTY_TRACK))
  }

  ghost predicate IsSegment(c: Config, pools: seq<Pool>, events: seq<Event>) {
    && |pools| == |events| + 1
    && (forall k :: 0 <= k < |pools| ==> Sized(pools[k], c.processCount))
    && forall k :: 0 <= k < |events| ==>
         Enabled(c, pools[k], events[k]) && pools[k + 1] == Next(c, pools[k], events[k])
  }

  ghost predicate IsRun(c: Config, pools: seq<Pool>, events: seq<Event>) {
    IsSegment(c, pools, events) && pools[0] == Boot(c)
  }
}
