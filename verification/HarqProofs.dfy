/** What every run of the HARQ process pool keeps. */
module HarqProofs {
  import opened PhyTypes
  import opened HarqModel

  /** Process i, as far as it does not concern the heap. */
  ghost predicate ProcessOk(c: Config, p: Pool, i: nat)
    requires Sized(p, c.processCount) && i < c.processCount
  {
    var q, t := p.procs[i], p.tracks[i];
    && (!p.occupied[i] ==> q.payload.data == None && q.payload.len == 0)
    && |t.sent| == q.count <= c.maxTransmissions
    && (forall k :: 0 <= k < |t.sent| ==> Carries(t.sent[k], q))
    && q.rv == Version(t.nacks)
    && (if p.initialized then q.number == i
        else (q.number == 0 || q.number == i) && q.count == 0 && q.payload.data == None && !p.occupied[i])
  }

  /** The descriptor is for the data, receiver, process and new-data bit that process q has now, with the
      redundancy version its NACKs called for. */
  ghost predicate Carries(s: Sent, q: Process) {
    s.descriptor == DescriptorOf(q).(rv := Version(s.nacks))
  }

  /** The block of process i is live and as long as the process says. */
  ghost predicate BlockOk(p: Pool, i: nat)
    requires i < |p.procs|
  {
    var load := p.procs[i].payload;
    load.data.Some? ==> load.data.value in p.heap.live && |p.heap.live[load.data.value]| == load.len
  }

  ghost predicate Owns(p: Pool, i: nat, block: nat)
    requires i < |p.procs|
  {
    p.procs[i].payload.data == Some(block)
  }

  ghost predicate HeapOk(h: Heap) {
    && (forall b :: b in h.live ==> b < h.next && b !in h.freed)
    && (forall b :: b in h.freed ==> b < h.next)
    && (forall b: nat :: b < h.next ==> b in h.live || b in h.freed)
    && (forall k, l :: 0 <= k < l < |h.freed| ==> h.freed[k] != h.freed[l])
  }

  /** The live blocks are the non-null data pointers, one each. */
  ghost predicate OwnersOk(p: Pool) {
    && (forall i :: 0 <= i < |p.procs| ==> BlockOk(p, i))
    && (forall i, j, b: nat :: 0 <= i < j < |p.procs| && Owns(p, i, b) ==> !Owns(p, j, b))
    && (forall b :: b in p.heap.live ==> exists i :: 0 <= i < |p.procs| && Owns(p, i, b))
  }

  ghost predicate Invariant(c: Config, p: Pool) {
    && Sized(p, c.processCount)
    && (forall i :: 0 <= i < c.processCount ==> ProcessOk(c, p, i))
    && HeapOk(p.heap)
    && OwnersOk(p)
  }

  lemma NextOfVersion(k: nat)
    ensures NextVersion(Version(k)) == Version(k + 1)
  {
  }

  lemma FreeKeepsHeap(h: Heap, data: Option<nat>)
    requires HeapOk(h) && (data.Some? ==> data.value in h.live)
    ensures HeapOk(Free(h, data))
  {
  }

  /** Giving up the data of process i keeps the heap and its owners in order. */
  lemma FreeKeepsOwners(p: Pool, i: nat, q: Pool)
    requires HeapOk(p.heap) && OwnersOk(p) && i < |p.procs|
    requires q.heap == Free(p.heap, p.procs[i].payload.data) && |q.procs| == |p.procs|
    requires q.procs[i].payload == NO_PAYLOAD
    requires forall j :: 0 <= j < |p.procs| && j != i ==> q.procs[j] == p.procs[j]
    ensures HeapOk(q.heap) && OwnersOk(q)
  {
    assert BlockOk(p, i);
    FreeKeepsHeap(p.heap, p.procs[i].payload.data);
    forall j | 0 <= j < |q.procs| ensures BlockOk(q, j) {
      assert BlockOk(p, j);
      if j != i && p.procs[i].payload.data.Some? {
        var b := p.procs[i].payload.data.value;
        assert Owns(p, i, b);
        assert !Owns(p, j, b);
      }
    }
    forall j, k, b: nat | 0 <= j < k < |q.procs| && Owns(q, j, b) ensures !Owns(q, k, b) {
      if j != i && k != i {
        assert Owns(p, j, b);
        assert !Owns(p, k, b);
      }
    }
    forall b | b in q.heap.live ensures exists j :: 0 <= j < |q.procs| && Owns(q, j, b) {
      var j :| 0 <= j < |p.procs| && Owns(p, j, b);
      assert j != i;
      assert Owns(q, j, b);
    }
  }

  /** A new block for process i, which had none. */
  lemma MallocKeepsOwners(p: Pool, i: nat, bytes: Bytes, q: Pool)
    requires HeapOk(p.heap) && OwnersOk(p) && i < |p.procs| && p.procs[i].payload.data == None
    requires q.heap == Malloc(p.heap, bytes) && |q.procs| == |p.procs|
    requires q.procs[i].payload.data == Some(p.heap.next) && q.procs[i].payload.len == |bytes|
    requires forall j :: 0 <= j < |p.procs| && j != i ==> q.procs[j] == p.procs[j]
    ensures HeapOk(q.heap) && OwnersOk(q)
  {
    forall j | 0 <= j < |q.procs| ensures BlockOk(q, j) {
      assert BlockOk(p, j);
    }
    forall j, k, b: nat | 0 <= j < k < |q.procs| && Owns(q, j, b) ensures !Owns(q, k, b) {
      if j != i && k != i {
        assert Owns(p, j, b);
        assert !Owns(p, k, b);
      } else {
        assert BlockOk(p, j) && BlockOk(p, k);
      }
    }
    forall b | b in q.heap.live ensures exists j :: 0 <= j < |q.procs| && Owns(q, j, b) {
      if b == p.heap.next {
        assert Owns(q, i, b);
      } else {
        var j :| 0 <= j < |p.procs| && Owns(p, j, b);
        assert Owns(q, j, b);
      }
    }
  }

  /** Steps that leave data pointers and heap alone. */
  lemma SameOwners(p: Pool, q: Pool)
    requires HeapOk(p.heap) && OwnersOk(p) && q.heap == p.heap && |q.procs| == |p.procs|
    requires forall j :: 0 <= j < |p.procs| ==>
               q.procs[j].payload.data == p.procs[j].payload.data && q.procs[j].payload.len == p.procs[j].payload.len
    ensures OwnersOk(q)
  {
    forall j | 0 <= j < |q.procs| ensures BlockOk(q, j) {
      assert BlockOk(p, j);
    }
    forall j, k, b: nat | 0 <= j < k < |q.procs| && Owns(q, j, b) ensures !Owns(q, k, b) {
      assert Owns(p, j, b);
      assert !Owns(p, k, b);
    }
    forall b | b in q.heap.live ensures exists j :: 0 <= j < |q.procs| && Owns(q, j, b) {
      var j :| 0 <= j < |p.procs| && Owns(p, j, b);
      assert Owns(q, j, b);
    }
  }

  /** Only process i and what belongs to it changed. */
  ghost predicate OnlyAt(p: Pool, q: Pool, i: nat) {
    && |q.procs| == |p.procs| && |q.occupied| == |p.occupied| && |q.tracks| == |p.tracks|
    && q.initialized == p.initialized
    && (forall j :: 0 <= j < |p.procs| && j != i ==> q.procs[j] == p.procs[j])
    && (forall j :: 0 <= j < |p.occupied| && j != i ==> q.occupied[j] == p.occupied[j])
    && (forall j :: 0 <= j < |p.tracks| && j != i ==> q.tracks[j] == p.tracks[j])
  }

  lemma OthersOk(c: Config, p: Pool, q: Pool, i: nat)
    requires Invariant(c, p) && OnlyAt(p, q, i) && i < c.processCount
    requires ProcessOk(c, q, i)
    ensures forall j :: 0 <= j < c.processCount ==> ProcessOk(c, q, j)
  {
    forall j | 0 <= j < c.processCount ensures ProcessOk(c, q, j) {
      assert ProcessOk(c, p, j);
    }
  }

  lemma InitKeeps(c: Config, p: Pool, i: nat)
    requires Invariant(c, p) && i < c.processCount
    ensures Invariant(c, InitProcess(p, i))
  {
    var q := InitProcess(p, i);
    assert ProcessOk(c, p, i);
    FreeKeepsOwners(p, i, q);
    OthersOk(c, p, q, i);
  }

  // ---- initialisation ----

  lemma BootOneKeeps(c: Config, p: Pool, i: nat)
    requires Invariant(c, p) && !p.initialized && i < c.processCount
    ensures var q := BootProcess(p, i);
            && Invariant(c, q) && OnlyAt(p, q, i) && q.heap == p.heap && q.occupied == p.occupied
            && q.procs[i].number == i && q.procs[i].ndi && !q.procs[i].pending
  {
    assert ProcessOk(c, p, i);
    var q := BootProcess(p, i);
    assert q.occupied == p.occupied;
    SameOwners(p, q);
    OthersOk(c, p, q, i);
  }

  /** Before the first take or give the loop of initialize frees nothing. */
  lemma {:induction false} BootKeeps(c: Config, p: Pool, k: nat)
    requires Invariant(c, p) && !p.initialized && k <= c.processCount
    ensures var r := BootUpTo(p, k);
            && Invariant(c, r) && !r.initialized && r.heap == p.heap && r.occupied == p.occupied
            && (forall i :: 0 <= i < k ==> r.procs[i].number == i && r.procs[i].ndi && !r.procs[i].pending)
            && (forall i :: k <= i < c.processCount ==> r.procs[i] == p.procs[i])
  {
    if k > 0 {
      BootKeeps(c, p, k - 1);
      var r := BootUpTo(p, k - 1);
      BootOneKeeps(c, r, k - 1);
      assert forall i :: 0 <= i < k - 1 ==> BootProcess(r, k - 1).procs[i] == r.procs[i];
    }
  }

  lemma InitializeKeeps(c: Config, p: Pool)
    requires Invariant(c, p)
    ensures var r := Initialize(p);
            Invariant(c, r) && r.heap == p.heap && r.occupied == p.occupied && (p.initialized ==> r == p)
            && (!p.initialized ==> forall i :: 0 <= i < c.processCount ==> r.procs[i].ndi && !r.procs[i].pending)
  {
    if !p.initialized {
      BootKeeps(c, p, c.processCount);
      var b := BootUpTo(p, c.processCount);
      var r := Initialize(p);
      SameOwners(b, r);
      forall i | 0 <= i < c.processCount ensures ProcessOk(c, r, i) {
        assert ProcessOk(c, b, i);
      }
    }
  }

  // ---- the steps ----

  lemma GiveKeeps(c: Config, p: Pool, i: nat)
    requires Invariant(c, p) && i < c.processCount
    ensures Invariant(c, Give(p, i)) && Give(p, i).initialized && !Give(p, i).occupied[i]
  {
    InitializeKeeps(c, p);
    var q := Initialize(p);
    InitKeeps(c, q, i);
    var r := InitProcess(q, i);
    assert ProcessOk(c, r, i);
    SameOwners(r, Give(p, i));
    OthersOk(c, r, Give(p, i), i);
  }

  /** A free process that is occupied, and whose data allocation then fails, is free again and nothing leaked. */
  lemma RefusedLaunchKeeps(c: Config, p: Pool, i: nat)
    requires Invariant(c, p) && p.initialized && i < c.processCount && !p.occupied[i]
    ensures Invariant(c, Give(Occupy(p, i), i))
  {
    assert ProcessOk(c, p, i);
    var q := Give(Occupy(p, i), i);
    FreeKeepsOwners(p, i, q);
    OthersOk(c, p, q, i);
  }

  lemma LaunchKeeps(c: Config, p: Pool, i: nat, bytes: Bytes, receiver: nat)
    requires Invariant(c, p) && p.initialized && i < c.processCount && !p.occupied[i] && ValidConfig(c)
    ensures Invariant(c, Launch(Occupy(p, i), i, bytes, receiver))
  {
    assert ProcessOk(c, p, i);
    var q := Launch(Occupy(p, i), i, bytes, receiver);
    MallocKeepsOwners(p, i, bytes, q);
    OthersOk(c, p, q, i);
  }

  lemma TransmitKeeps(c: Config, p: Pool, bytes: Bytes, receiver: nat, ok: bool)
    requires Invariant(c, p) && ValidConfig(c)
    ensures Invariant(c, Transmit(p, bytes, receiver, ok).0)
  {
    InitializeKeeps(c, p);
    var q := Initialize(p);
    var i := FirstFree(q.occupied, 0);
    if i < |q.occupied| {
      if ok {
        LaunchKeeps(c, q, i, bytes, receiver);
      } else {
        RefusedLaunchKeeps(c, q, i);
      }
    }
  }

  lemma PendingKeeps(c: Config, p: Pool, i: nat, pending: bool)
    requires Invariant(c, p) && i < c.processCount
    ensures Invariant(c, SetPending(p, i, pending))
  {
    assert ProcessOk(c, p, i);
    var q := SetPending(p, i, pending);
    SameOwners(p, q);
    OthersOk(c, p, q, i);
  }

  lemma RetransmitKeeps(c: Config, p: Pool, i: nat)
    requires Invariant(c, p) && p.initialized && i < c.processCount && ValidConfig(c)
    requires p.procs[i].count < c.maxTransmissions
    ensures Invariant(c, Retransmit(p, i))
  {
    assert ProcessOk(c, p, i);
    var q := Retransmit(p, i);
    SameOwners(p, q);
    OthersOk(c, p, q, i);
  }

  lemma ResponseKeeps(c: Config, p: Pool, i: nat)
    requires Invariant(c, p) && i < c.processCount
    ensures Invariant(c, Nacked(p, i)) && Invariant(c, Refused(p, i))
  {
    assert ProcessOk(c, p, i);
    NextOfVersion(p.tracks[i].nacks);
    SameOwners(p, Nacked(p, i));
    OthersOk(c, p, Nacked(p, i), i);
    SameOwners(p, Refused(p, i));
    OthersOk(c, p, Refused(p, i), i);
  }

  lemma StepKeeps(c: Config, p: Pool, e: Event)
    requires ValidConfig(c) && Invariant(c, p) && Enabled(c, p, e)
    ensures Invariant(c, Next(c, p, e))
  {
    match e {
      case Transmitted(bytes, receiver, ok) => TransmitKeeps(c, p, bytes, receiver, ok);
      case AckReceived(i) =>
        PendingKeeps(c, p, i, false);
        GiveKeeps(c, SetPending(p, i, false), i);
      case NackReceived(i) => ResponseKeeps(c, p, i);
      case RefusalReceived(i) => ResponseKeeps(c, p, i);
      case TimerArmed(i) => PendingKeeps(c, p, i, true);
      case WorkRuns(i) =>
        PendingKeeps(c, p, i, false);
        if p.procs[i].count < c.maxTransmissions {
          RetransmitKeeps(c, SetPending(p, i, false), i);
        } else {
          GiveKeeps(c, SetPending(p, i, false), i);
        }
      case RequestReceived(i) => InitKeeps(c, p, i);
    }
  }

  lemma BootOk(c: Config)
    requires ValidConfig(c)
    ensures Invariant(c, Boot(c))
  {
    var p := Boot(c);
    forall i | 0 <= i < c.processCount ensures ProcessOk(c, p, i) && BlockOk(p, i) {
    }
  }

  lemma {:induction false} RunKeeps(c: Config, pools: seq<Pool>, events: seq<Event>, k: nat)
    requires ValidConfig(c) && IsRun(c, pools, events) && k < |pools|
    ensures Invariant(c, pools[k])
  {
    if k == 0 {
      BootOk(c);
    } else {
      RunKeeps(c, pools, events, k - 1);
      StepKeeps(c, pools[k - 1], events[k - 1]);
    }
  }
}
