/** The HARQ process pool over whole runs of transmissions, responses, requests, timers and work items. */
module HarqTheorems {
  import opened PhyTypes
  import opened HarqModel
  import opened HarqProofs

  /** A process never hands over more than the configured number of descriptors for one packet, and its
      transmission count is their number: since its last transmit, or its last re-initialisation. */
  lemma TransmissionBound(c: Config, pools: seq<Pool>, events: seq<Event>, k: nat, i: nat)
    requires ValidConfig(c) && IsRun(c, pools, events) && k < |pools| && i < c.processCount
    ensures |pools[k].tracks[i].sent| == pools[k].procs[i].count <= c.maxTransmissions
  {
    RunKeeps(c, pools, events, k);
    assert ProcessOk(c, pools[k], i);
  }

  /** All descriptors of one packet are for the same data, receiver, process and new-data bit; they differ in
      the redundancy version only, and that one is 0, 2, 3, 1, 0, ... by the number of NACKs. */
  lemma PacketConsistency(c: Config, pools: seq<Pool>, events: seq<Event>, k: nat, i: nat, a: nat, b: nat)
    requires ValidConfig(c) && IsRun(c, pools, events) && k < |pools| && i < c.processCount
    requires a < |pools[k].tracks[i].sent| && b < |pools[k].tracks[i].sent|
    ensures var sent := pools[k].tracks[i].sent;
            && sent[b].descriptor == sent[a].descriptor.(rv := sent[b].descriptor.rv)
            && sent[b].descriptor.rv == Version(sent[b].nacks)
            && sent[b].descriptor.process == i && sent[b].descriptor.handle == HANDLE_HARQ + NumberBits(i)
            && sent[b].descriptor.payload == pools[k].procs[i].payload && sent[b].descriptor.ndi == pools[k].procs[i].ndi
  {
    RunKeeps(c, pools, events, k);
    assert ProcessOk(c, pools[k], i);
    assert Carries(pools[k].tracks[i].sent[a], pools[k].procs[i]) && Carries(pools[k].tracks[i].sent[b], pools[k].procs[i]);
  }

  /** The timer that the end of such a descriptor's transmission arms is the one of its own process. */
  lemma TimerOfItsOwnProcess(d: Descriptor, i: nat)
    requires i < 8 && d.handle == HANDLE_HARQ + NumberBits(i)
    ensures HarqTimer(TrueHandle(TxRx, MarkQueued(d.handle))) == Some(NumberBits(i))
  {
    HarqTimerExact(d.handle, NumberBits(i));
  }

  /** Heap: the live blocks are exactly the non-null data pointers, no two processes share one, a free process
      has none, and every block ever allocated is either live or was freed, once. */
  lemma HeapAccounting(c: Config, pools: seq<Pool>, events: seq<Event>, k: nat)
    requires ValidConfig(c) && IsRun(c, pools, events) && k < |pools|
    ensures var p := pools[k];
            && (forall b: nat :: b in p.heap.live <==> exists i :: 0 <= i < c.processCount && Owns(p, i, b))
            && (forall i, j, b: nat :: 0 <= i < j < c.processCount && Owns(p, i, b) ==> !Owns(p, j, b))
            && (forall i :: 0 <= i < c.processCount && !p.occupied[i] ==>
                  p.procs[i].payload.data == None && p.procs[i].payload.len == 0)
            && (forall b: nat :: b < p.heap.next ==> (b in p.heap.live <==> b !in p.heap.freed))
            && (forall x, y :: 0 <= x < y < |p.heap.freed| ==> p.heap.freed[x] != p.heap.freed[y])
  {
    RunKeeps(c, pools, events, k);
    var p := pools[k];
    forall i | 0 <= i < c.processCount && !p.occupied[i]
      ensures p.procs[i].payload.data == None && p.procs[i].payload.len == 0
    {
      assert ProcessOk(c, p, i);
    }
    forall b: nat, i | 0 <= i < c.processCount && Owns(p, i, b) ensures b in p.heap.live {
      assert BlockOk(p, i);
    }
  }

  // ---- blocks are written once ----

  ghost predicate Unwritten(h: Heap, g: Heap) {
    h.next <= g.next && forall b :: b in h.live && b in g.live ==> g.live[b] == h.live[b]
  }

  ghost predicate Descends(h: Heap, g: Heap) {
    Unwritten(h, g) && forall b :: b in g.live && b < h.next ==> b in h.live
  }

  lemma DescendsOn(h: Heap, g: Heap, f: Heap)
    requires HeapOk(h) && Descends(h, g) && Descends(g, f)
    ensures Descends(h, f)
  {
  }

  lemma GiveDescends(c: Config, p: Pool, i: nat)
    requires Invariant(c, p) && i < c.processCount
    ensures Descends(p.heap, Give(p, i).heap)
  {
    InitializeKeeps(c, p);
  }

  lemma TransmitDescends(c: Config, p: Pool, bytes: Bytes, receiver: nat, ok: bool)
    requires Invariant(c, p)
    ensures Descends(p.heap, Transmit(p, bytes, receiver, ok).0.heap)
  {
    InitializeKeeps(c, p);
  }

  lemma StepDescends(c: Config, p: Pool, e: Event)
    requires ValidConfig(c) && Invariant(c, p) && Enabled(c, p, e)
    ensures Descends(p.heap, Next(c, p, e).heap)
  {
    match e {
      case Transmitted(bytes, receiver, ok) => TransmitDescends(c, p, bytes, receiver, ok);
      case AckReceived(i) =>
        PendingKeeps(c, p, i, false);
        GiveDescends(c, SetPending(p, i, false), i);
      case WorkRuns(i) =>
        PendingKeeps(c, p, i, false);
        GiveDescends(c, SetPending(p, i, false), i);
      case _ =>
    }
  }

  lemma RunStepDescends(c: Config, pools: seq<Pool>, events: seq<Event>, k: nat)
    requires ValidConfig(c) && IsRun(c, pools, events) && k < |events|
    ensures HeapOk(pools[k].heap) && Descends(pools[k].heap, pools[k + 1].heap)
  {
    RunKeeps(c, pools, events, k);
    StepDescends(c, pools[k], events[k]);
  }

  lemma {:induction false} ChainDescends(heaps: seq<Heap>, a: nat, b: nat)
    requires a <= b < |heaps|
    requires forall k :: 0 <= k < |heaps| - 1 ==> HeapOk(heaps[k]) && Descends(heaps[k], heaps[k + 1])
    ensures Descends(heaps[a], heaps[b])
  {
    if a < b {
      ChainDescends(heaps, a, b - 1);
      assert HeapOk(heaps[a]) && Descends(heaps[b - 1], heaps[b]);
      DescendsOn(heaps[a], heaps[b - 1], heaps[b]);
    }
  }

  /** Whatever happens in between, a block that is still live holds what it held: a retransmission sends the
      bytes that were given to transmit. */
  lemma DataUnchanged(c: Config, pools: seq<Pool>, events: seq<Event>, a: nat, b: nat)
    requires ValidConfig(c) && IsRun(c, pools, events) && a <= b < |pools|
    ensures Descends(pools[a].heap, pools[b].heap)
  {
    var heaps := seq(|pools|, k requires 0 <= k < |pools| => pools[k].heap);
    forall k | 0 <= k < |heaps| - 1 ensures HeapOk(heaps[k]) && Descends(heaps[k], heaps[k + 1]) {
      RunStepDescends(c, pools, events, k);
    }
    ChainDescends(heaps, a, b);
  }

  // ---- the new-data bit ----

  /** The process a transmit takes, if any. */
  function Taken(p: Pool, e: Event): Option<nat>
    requires Sized(p, |p.procs|)
  {
    if e.Transmitted? && FirstFree(p.occupied, 0) < |p.occupied| then Some(FirstFree(p.occupied, 0)) else None
  }

  /** Once the pool is initialised the new-data bit of a process changes exactly when transmit takes it. */
  lemma NewDataBit(c: Config, p: Pool, e: Event, i: nat)
    requires ValidConfig(c) && Invariant(c, p) && p.initialized && Enabled(c, p, e) && i < c.processCount
    ensures Next(c, p, e).procs[i].ndi != p.procs[i].ndi <==> Taken(p, e) == Some(i)
  {
  }

  /** A transmission hands over a first descriptor with redundancy version 0 if and only if the NACKs since
      the last re-initialisation of the process it takes are a multiple of four. */
  lemma FirstVersion(c: Config, p: Pool, bytes: Bytes, receiver: nat)
    requires ValidConfig(c) && Invariant(c, p)
    requires Transmit(p, bytes, receiver, true).1 == Ok
    ensures var (q, i) := (Transmit(p, bytes, receiver, true).0, FirstFree(Initialize(p).occupied, 0));
            && i < c.processCount && |q.tracks[i].sent| == 1
            && (q.tracks[i].sent[0].descriptor.rv == 0 <==> Initialize(p).tracks[i].nacks % 4 == 0)
  {
    InitializeKeeps(c, p);
    var i := FirstFree(Initialize(p).occupied, 0);
    assert ProcessOk(c, Initialize(p), i);
  }

  /** It can be another one: a NACK that arrives a second time, for a process already free again. */
  lemma StaleNackStartsAtVersionTwo(bytes: Bytes)
    ensures var c := Config(1, 5);
            var p1 := Next(c, Boot(c), Transmitted(bytes, 7, true));
            var p2 := Next(c, p1, AckReceived(0));
            var p3 := Next(c, p2, NackReceived(0));
            var p4 := Next(c, p3, Transmitted(bytes, 7, true));
            !p3.occupied[0] && p4.occupied[0] && p4.tracks[0].sent[0].descriptor.rv == 2
  {
    var c := Config(1, 5);
    var b := Boot(c);
    assert BootUpTo(b, 1) == BootProcess(BootUpTo(b, 0), 0);
    var p1 := Next(c, b, Transmitted(bytes, 7, true));
    assert FirstFree(Initialize(b).occupied, 0) == 0;
    assert p1.initialized && p1.procs[0].count == 1;
    var p2 := Next(c, p1, AckReceived(0));
    assert p2.initialized && !p2.occupied[0] && p2.procs[0].rv == 0;
    var p3 := Next(c, p2, NackReceived(0));
    assert !p3.occupied[0] && p3.procs[0].rv == 2 && p3.initialized;
    assert FirstFree(p3.occupied, 0) == 0;
  }

  // ---- the last attempt ----

  /** How often the work handler of process i runs in a list of events. */
  function Works(events: seq<Event>, i: nat): (n: nat) {
    if events == [] then 0
    else Works(events[..|events| - 1], i) + (if events[|events| - 1] == WorkRuns(i) then 1 else 0)
  }

  /** A step that is neither an acknowledgement nor a request for an occupied process i: the process stays
      occupied and counts the work handler's run, or that run was the last one and the process is free. */
  lemma OccupiedStep(c: Config, p: Pool, e: Event, i: nat)
    requires ValidConfig(c) && Invariant(c, p) && p.initialized && Enabled(c, p, e) && i < c.processCount
    requires p.occupied[i] && e != AckReceived(i) && e != RequestReceived(i)
    ensures var q := Next(c, p, e);
            && q.initialized
            && (q.occupied[i] <==> !(e == WorkRuns(i) && p.procs[i].count == c.maxTransmissions))
            && (q.occupied[i] ==> q.procs[i].count == p.procs[i].count + (if e == WorkRuns(i) then 1 else 0)
                                  && q.procs[i].payload == p.procs[i].payload)
  {
    assert ProcessOk(c, p, i);
  }

  /** Between a transmit and the next acknowledgement or request for its process, the handler runs at most
      maxTransmissions - 1 times without freeing the process, and each run is one more transmission. */
  lemma {:induction false} HandlerRunsCounted(c: Config, pools: seq<Pool>, events: seq<Event>, i: nat)
    requires ValidConfig(c) && IsSegment(c, pools, events) && i < c.processCount
    requires Invariant(c, pools[0]) && pools[0].initialized
    requires forall k :: 0 <= k < |events| ==> events[k] != AckReceived(i) && events[k] != RequestReceived(i)
    requires forall k :: 0 <= k < |pools| ==> pools[k].occupied[i]
    ensures var last := pools[|events|];
            && Invariant(c, last) && last.initialized
            && last.procs[i].count == pools[0].procs[i].count + Works(events, i) <= c.maxTransmissions
            && last.procs[i].payload == pools[0].procs[i].payload
  {
    assert ProcessOk(c, pools[0], i);
    if |events| > 0 {
      var k := |events| - 1;
      HandlerRunsCounted(c, pools[..k + 1], events[..k], i);
      StepKeeps(c, pools[k], events[k]);
      OccupiedStep(c, pools[k], events[k], i);
      assert ProcessOk(c, pools[k + 1], i);
    }
  }

  /** So without acknowledgement and request the process is given back by the run that follows
      maxTransmissions - count others: after a transmit, by the maxTransmissions-th. */
  lemma ReleasedByTheLastRun(c: Config, pools: seq<Pool>, events: seq<Event>, i: nat)
    requires ValidConfig(c) && IsSegment(c, pools, events) && i < c.processCount
    requires Invariant(c, pools[0]) && pools[0].initialized
    requires forall k :: 0 <= k < |events| ==> events[k] != AckReceived(i) && events[k] != RequestReceived(i)
    requires forall k :: 0 <= k < |pools| ==> pools[k].occupied[i]
    requires Enabled(c, pools[|events|], WorkRuns(i))
    ensures !Next(c, pools[|events|], WorkRuns(i)).occupied[i]
            <==> Works(events, i) == c.maxTransmissions - pools[0].procs[i].count
  {
    HandlerRunsCounted(c, pools, events, i);
    OccupiedStep(c, pools[|events|], WorkRuns(i), i);
  }

  /** What transmit puts into the process it takes. */
  lemma LaunchedData(c: Config, p: Pool, bytes: Bytes, receiver: nat, i: nat)
    requires ValidConfig(c) && Invariant(c, p) && i < c.processCount
    requires i == FirstFree(Initialize(p).occupied, 0)
    ensures var q := Next(c, p, Transmitted(bytes, receiver, true));
            && q.initialized && q.occupied[i] && q.procs[i].count == 1
            && q.procs[i].payload == Payload(Some(p.heap.next), |bytes|, receiver)
            && p.heap.next in q.heap.live && q.heap.live[p.heap.next] == bytes
  {
    InitializeKeeps(c, p);
  }

  lemma PayloadKept(c: Config, pools: seq<Pool>, events: seq<Event>, a: nat, b: nat, i: nat)
    requires ValidConfig(c) && IsRun(c, pools, events) && a <= b < |pools| && i < c.processCount
    requires Invariant(c, pools[a]) && pools[a].initialized
    requires forall m :: a <= m <= b ==> pools[m].occupied[i]
    requires forall m :: a <= m < b ==> events[m] != AckReceived(i) && events[m] != RequestReceived(i)
    ensures pools[b].procs[i].payload == pools[a].procs[i].payload
  {
    var part, steps := pools[a..b + 1], events[a..b];
    assert part[0] == pools[a] && part[|steps|] == pools[b];
    HandlerRunsCounted(c, part, steps, i);
  }

  /** From a transmit at step a until process i is freed, acknowledged or requested: every descriptor handed over
      for the process points to a live block that holds the transmitted bytes, and names their receiver. */
  lemma RetransmissionsCarryTheData(c: Config, pools: seq<Pool>, events: seq<Event>, a: nat, b: nat,
                                    bytes: Bytes, receiver: nat, i: nat, k: nat)
    requires ValidConfig(c) && IsRun(c, pools, events) && a < b < |pools| && i < c.processCount
    requires events[a] == Transmitted(bytes, receiver, true) && i == FirstFree(Initialize(pools[a]).occupied, 0)
    requires forall m :: a < m <= b ==> pools[m].occupied[i]
    requires forall m :: a < m < b ==> events[m] != AckReceived(i) && events[m] != RequestReceived(i)
    requires k < |pools[b].tracks[i].sent|
    ensures var load := pools[b].tracks[i].sent[k].descriptor.payload;
            && load.data.Some? && load.data.value in pools[b].heap.live
            && pools[b].heap.live[load.data.value] == bytes
            && load.len == |bytes| && load.receiver == receiver
  {
    RunKeeps(c, pools, events, a);
    RunKeeps(c, pools, events, a + 1);
    RunKeeps(c, pools, events, b);
    LaunchedData(c, pools[a], bytes, receiver, i);
    PayloadKept(c, pools, events, a + 1, b, i);
    DataUnchanged(c, pools, events, a + 1, b);
    assert ProcessOk(c, pools[b], i) && BlockOk(pools[b], i);
    assert Carries(pools[b].tracks[i].sent[k], pools[b].procs[i]);
  }

  // ---- descriptors that wait in the queue ----

  /** The step gives process i back, or initialises it anew. */
  predicate Clears(c: Config, p: Pool, e: Event, i: nat)
    requires i < |p.procs|
  {
    || e == AckReceived(i) || e == RequestReceived(i)
    || (e == WorkRuns(i) && p.procs[i].count >= c.maxTransmissions)
  }

  lemma ClearingStep(c: Config, p: Pool, e: Event, i: nat, block: nat)
    requires ValidConfig(c) && Invariant(c, p) && Enabled(c, p, e) && i < c.processCount && Owns(p, i, block)
    ensures Clears(c, p, e, i) ==> block !in Next(c, p, e).heap.live
    ensures !Clears(c, p, e, i) ==> Next(c, p, e).procs[i].payload == p.procs[i].payload
  {
    assert ProcessOk(c, p, i);
  }

  ghost predicate ClearedBetween(c: Config, pools: seq<Pool>, events: seq<Event>, i: nat, a: nat, b: nat)
    requires IsRun(c, pools, events) && b <= |events| && i < c.processCount
  {
    exists m :: a <= m < b && Clears(c, pools[m], events[m], i)
  }

  lemma ClearingRunStep(c: Config, pools: seq<Pool>, events: seq<Event>, i: nat, k: nat, block: nat)
    requires ValidConfig(c) && IsRun(c, pools, events) && i < c.processCount && k < |events| && Owns(pools[k], i, block)
    ensures if Clears(c, pools[k], events[k], i) then block !in pools[k + 1].heap.live
            else pools[k + 1].procs[i].payload == pools[k].procs[i].payload
  {
    RunKeeps(c, pools, events, k);
    ClearingStep(c, pools[k], events[k], i, block);
  }

  lemma GoneStaysGone(c: Config, pools: seq<Pool>, events: seq<Event>, i: nat, a: nat, k: nat, block: nat)
    requires ValidConfig(c) && IsRun(c, pools, events) && i < c.processCount && a <= k < |events|
    requires Owns(pools[a], i, block) && block !in pools[k].heap.live
    ensures block !in pools[k + 1].heap.live
  {
    RunKeeps(c, pools, events, a);
    assert BlockOk(pools[a], i);
    DataUnchanged(c, pools, events, a, k);
    RunStepDescends(c, pools, events, k);
  }

  lemma {:induction false} BlockUntilCleared(c: Config, pools: seq<Pool>, events: seq<Event>, i: nat, a: nat, b: nat,
                                             block: nat)
    requires ValidConfig(c) && IsRun(c, pools, events) && i < c.processCount && a <= b < |pools|
    requires Owns(pools[a], i, block)
    ensures if ClearedBetween(c, pools, events, i, a, b) then block !in pools[b].heap.live
            else pools[b].procs[i].payload == pools[a].procs[i].payload
  {
    if a < b {
      BlockUntilCleared(c, pools, events, i, a, b - 1, block);
      if ClearedBetween(c, pools, events, i, a, b - 1) {
        GoneStaysGone(c, pools, events, i, a, b - 1, block);
      } else {
        ClearingRunStep(c, pools, events, i, b - 1, block);
        if Clears(c, pools[b - 1], events[b - 1], i) {
          assert ClearedBetween(c, pools, events, i, a, b);
        }
      }
    }
  }

  /** A descriptor with data that was handed over for process i before state a, and waits in the queue until state b,
      points to a live block then if and only if the process was neither given back nor initialised anew in
      between; and the block holds what it held. */
  lemma WaitingDescriptor(c: Config, pools: seq<Pool>, events: seq<Event>, i: nat, a: nat, b: nat, k: nat)
    requires ValidConfig(c) && IsRun(c, pools, events) && i < c.processCount && a <= b < |pools|
    requires k < |pools[a].tracks[i].sent| && pools[a].tracks[i].sent[k].descriptor.payload.data.Some?
    ensures var block := pools[a].tracks[i].sent[k].descriptor.payload.data.value;
            && block in pools[a].heap.live
            && (block in pools[b].heap.live <==> !ClearedBetween(c, pools, events, i, a, b))
            && (block in pools[b].heap.live ==> pools[b].heap.live[block] == pools[a].heap.live[block])
  {
    var block := pools[a].tracks[i].sent[k].descriptor.payload.data.value;
    RunKeeps(c, pools, events, a);
    RunKeeps(c, pools, events, b);
    assert ProcessOk(c, pools[a], i) && Carries(pools[a].tracks[i].sent[k], pools[a].procs[i]);
    assert Owns(pools[a], i, block) && BlockOk(pools[a], i);
    BlockUntilCleared(c, pools, events, i, a, b, block);
    assert BlockOk(pools[b], i);
    DataUnchanged(c, pools, events, a, b);
  }

  /** It can dangle: a retransmission is queued after a NACK, and the acknowledgement of the first transmission
      arrives before it is dispatched. */
  lemma DanglingDescriptor(bytes: Bytes)
    ensures var c := Config(1, 5);
            var p1 := Next(c, Boot(c), Transmitted(bytes, 7, true));
            var p2 := Next(c, p1, NackReceived(0));
            var p3 := Next(c, p2, WorkRuns(0));
            var p4 := Next(c, p3, AckReceived(0));
            && |p3.tracks[0].sent| == 2 && p3.tracks[0].sent[1].descriptor.payload.data == Some(0)
            && 0 in p3.heap.live && 0 !in p4.heap.live
  {
    var c := Config(1, 5);
    var b := Boot(c);
    assert BootUpTo(b, 1) == BootProcess(BootUpTo(b, 0), 0);
    assert FirstFree(Initialize(b).occupied, 0) == 0;
    var p1 := Next(c, b, Transmitted(bytes, 7, true));
    assert p1.initialized && p1.procs[0].count == 1 && p1.procs[0].payload.data == Some(0);
    var p3 := Next(c, Next(c, p1, NackReceived(0)), WorkRuns(0));
    assert p3.initialized && p3.procs[0].payload.data == Some(0);
  }
}
