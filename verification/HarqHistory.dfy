/** The HARQ processes seen from outside: their state as a function of the events of a run alone. */
module HarqHistory {
  import opened PhyTypes
  import opened HarqModel
  import opened HarqProofs
  import opened HarqTheorems

  /** The step is a transmit that takes process i. */
  predicate TakesProcess(p: Pool, e: Event, i: nat)
    requires Sized(p, |p.procs|)
  {
    e.Transmitted? && FirstFree(Initialize(p).occupied, 0) == i && i < |p.procs|
  }

  /** The first take or give initialises all processes. */
  predicate Starts(p: Pool, e: Event) {
    !p.initialized && (e.Transmitted? || e.AckReceived?)
  }

  /** The event initialises process i anew, given how many descriptors were handed over for it so far: an
      acknowledgement, a request, a transmit without memory, the work handler after the last transmission. */
  predicate Resets(c: Config, p: Pool, e: Event, i: nat, handed: nat)
    requires Sized(p, |p.procs|)
  {
    || Starts(p, e) || e == AckReceived(i) || e == RequestReceived(i)
    || (e == WorkRuns(i) && handed >= c.maxTransmissions)
    || (TakesProcess(p, e, i) && !e.ok)
  }

  /** The descriptors handed over for process i since it was last taken or initialised, counted from the events. */
  function Handed(c: Config, pools: seq<Pool>, events: seq<Event>, i: nat, k: nat): nat
    requires IsRun(c, pools, events) && k <= |events|
  {
    if k == 0 then 0
    else
      var before := Handed(c, pools, events, i, k - 1);
      var p, e := pools[k - 1], events[k - 1];
      if TakesProcess(p, e, i) && e.ok then 1
      else if Resets(c, p, e, i, before) then 0
      else if e == WorkRuns(i) then before + 1
      else before
  }

  /** The NACKs received for process i since it was last initialised or refused, counted from the events. */
  function Nacks(c: Config, pools: seq<Pool>, events: seq<Event>, i: nat, k: nat): nat
    requires IsRun(c, pools, events) && k <= |events|
  {
    if k == 0 then 0
    else
      var before := Nacks(c, pools, events, i, k - 1);
      var p, e := pools[k - 1], events[k - 1];
      if e == RefusalReceived(i) || Resets(c, p, e, i, Handed(c, pools, events, i, k - 1)) then 0
      else if e == NackReceived(i) then before + 1
      else before
  }

  // ---- one step ----

  /** What a step does to the tracks, in terms of its event. */
  lemma TrackStep(c: Config, p: Pool, e: Event, i: nat)
    requires ValidConfig(c) && Invariant(c, p) && Enabled(c, p, e) && i < c.processCount
    ensures var q := Next(c, p, e);
            var before := |p.tracks[i].sent|;
            && |q.tracks[i].sent| == (if TakesProcess(p, e, i) && e.ok then 1
                                      else if Resets(c, p, e, i, before) then 0
                                      else if e == WorkRuns(i) then before + 1 else before)
            && q.tracks[i].nacks == (if e == RefusalReceived(i) || Resets(c, p, e, i, before) then 0
                                     else if e == NackReceived(i) then p.tracks[i].nacks + 1 else p.tracks[i].nacks)
  {
    assert ProcessOk(c, p, i);
    if Starts(p, e) {
      var q := if e.AckReceived? then SetPending(p, e.i, false) else p;
      BootTracks(q, |q.procs|, i);
    }
  }

  lemma {:induction false} BootTracks(p: Pool, k: nat, i: nat)
    requires Sized(p, |p.procs|) && i < k <= |p.procs|
    ensures |BootUpTo(p, k).tracks| == |p.tracks| && BootUpTo(p, k).tracks[i] == EMPTY_TRACK
  {
    if i < k - 1 {
      BootTracks(p, k - 1, i);
    }
  }

  lemma {:induction false} TracksAreCounts(c: Config, pools: seq<Pool>, events: seq<Event>, i: nat, k: nat)
    requires ValidConfig(c) && IsRun(c, pools, events) && i < c.processCount && k <= |events|
    ensures |pools[k].tracks[i].sent| == Handed(c, pools, events, i, k)
    ensures pools[k].tracks[i].nacks == Nacks(c, pools, events, i, k)
  {
    if k > 0 {
      TracksAreCounts(c, pools, events, i, k - 1);
      RunKeeps(c, pools, events, k - 1);
      TrackStep(c, pools[k - 1], events[k - 1], i);
    }
  }

  // ---- runs ----

  /** The versions in their order. */
  lemma VersionCycle(k: nat)
    ensures Version(4 * k) == 0 && Version(4 * k + 1) == 2 && Version(4 * k + 2) == 3 && Version(4 * k + 3) == 1
  {
  }

  /** In every run the redundancy version and the transmission count of a process are what the events say. */
  lemma VersionAndCount(c: Config, pools: seq<Pool>, events: seq<Event>, i: nat, k: nat)
    requires ValidConfig(c) && IsRun(c, pools, events) && i < c.processCount && k <= |events|
    ensures pools[k].procs[i].rv == Version(Nacks(c, pools, events, i, k))
    ensures pools[k].procs[i].count == Handed(c, pools, events, i, k) <= c.maxTransmissions
  {
    RunKeeps(c, pools, events, k);
    TracksAreCounts(c, pools, events, i, k);
    assert ProcessOk(c, pools[k], i);
  }

  /** The step hands over a descriptor for process i. */
  predicate Hands(c: Config, p: Pool, e: Event, i: nat)
    requires Sized(p, |p.procs|) && i < |p.procs|
  {
    (TakesProcess(p, e, i) && e.ok) || (e == WorkRuns(i) && p.procs[i].count < c.maxTransmissions)
  }

  lemma HandedOver(c: Config, p: Pool, e: Event, i: nat)
    requires ValidConfig(c) && Invariant(c, p) && Enabled(c, p, e) && i < c.processCount && Hands(c, p, e, i)
    ensures var q := Next(c, p, e);
            q.tracks[i].sent != []
            && q.tracks[i].sent[|q.tracks[i].sent| - 1].descriptor == DescriptorOf(q.procs[i])
  {
    assert ProcessOk(c, p, i);
    InitializeKeeps(c, p);
  }

  /** Every descriptor is handed over with the version of the NACKs counted so far: 0, 2, 3, 1, 0, ... */
  lemma DescriptorVersion(c: Config, pools: seq<Pool>, events: seq<Event>, i: nat, k: nat)
    requires ValidConfig(c) && IsRun(c, pools, events) && i < c.processCount && k < |events|
    requires Hands(c, pools[k], events[k], i)
    ensures var sent := pools[k + 1].tracks[i].sent;
            && sent != [] && sent[|sent| - 1].descriptor.rv == Version(Nacks(c, pools, events, i, k + 1))
            && sent[|sent| - 1].descriptor.process == i
  {
    RunKeeps(c, pools, events, k);
    RunKeeps(c, pools, events, k + 1);
    HandedOver(c, pools[k], events[k], i);
    VersionAndCount(c, pools, events, i, k + 1);
    assert ProcessOk(c, pools[k + 1], i);
  }

  /** A refused packet is sent again from version 0: directly, and for the descriptor of the work handler's next run. */
  lemma RefusalStartsOver(c: Config, p: Pool, i: nat)
    requires ValidConfig(c) && Invariant(c, p) && i < c.processCount
    ensures var q := Next(c, p, RefusalReceived(i));
            && q.procs[i] == p.procs[i].(rv := 0, pending := true)
            && q.occupied == p.occupied && q.heap == p.heap
            && (forall j :: 0 <= j < c.processCount && j != i ==> q.procs[j] == p.procs[j])
            && (p.initialized && p.procs[i].count < c.maxTransmissions ==>
                  var sent := Next(c, q, WorkRuns(i)).tracks[i].sent;
                  sent != [] && sent[|sent| - 1].descriptor.rv == 0)
  {
    assert ProcessOk(c, p, i);
  }

  /** When the work handler of a process is scheduled: an armed timer, a NACK and a refusal schedule it; its run, an
      acknowledgement, a transmit that fails on the process, and the first initialisation end that; nothing else. */
  lemma PendingExact(c: Config, p: Pool, e: Event, i: nat)
    requires ValidConfig(c) && Invariant(c, p) && Enabled(c, p, e) && i < c.processCount
    ensures Next(c, p, e).procs[i].pending
            <==> e == TimerArmed(i) || e == NackReceived(i) || e == RefusalReceived(i)
                 || (p.procs[i].pending && e != WorkRuns(i) && e != AckReceived(i) && !Starts(p, e)
                     && !(TakesProcess(p, e, i) && !e.ok))
  {
    InitialPool(c, p, e);
  }

  /** The pool that take and give find after initialising it. */
  lemma InitialPool(c: Config, p: Pool, e: Event)
    requires ValidConfig(c) && Invariant(c, p) && Enabled(c, p, e)
    ensures var q := if e.Transmitted? then p else SetPending(p, e.i, false);
            var r := Initialize(q);
            && Invariant(c, r) && r.occupied == p.occupied && (p.initialized ==> r == q)
            && (!p.initialized ==> forall i :: 0 <= i < c.processCount ==> !r.procs[i].pending)
  {
    if e.Transmitted? {
      InitializeKeeps(c, p);
    } else {
      PendingKeeps(c, p, e.i, false);
      InitializeKeeps(c, SetPending(p, e.i, false));
    }
  }

  /** When a process is occupied: a transmit that gets memory occupies it; an acknowledgement and the work handler after
      the last transmission free it; nothing else changes it, not even a request. */
  lemma OccupiedExact(c: Config, p: Pool, e: Event, i: nat)
    requires ValidConfig(c) && Invariant(c, p) && Enabled(c, p, e) && i < c.processCount
    ensures Next(c, p, e).occupied[i]
            <==> (TakesProcess(p, e, i) && e.ok)
                 || (p.occupied[i] && e != AckReceived(i) && !(e == WorkRuns(i) && p.procs[i].count >= c.maxTransmissions))
  {
    InitialPool(c, p, e);
  }

  /** An acknowledgement and a request leave an empty process. The request keeps the work item scheduled; neither
      touches the new-data bit or another process. */
  lemma ResetExact(c: Config, p: Pool, e: Event, i: nat)
    requires ValidConfig(c) && Invariant(c, p) && p.initialized && i < c.processCount
    requires e == AckReceived(i) || e == RequestReceived(i)
    ensures var q := Next(c, p, e);
            && q.procs[i] == Process(i, Payload(None, 0, 0), 0, 0, p.procs[i].ndi, e.RequestReceived? && p.procs[i].pending)
            && (forall j :: 0 <= j < c.processCount && j != i ==> q.procs[j] == p.procs[j])
  {
    assert ProcessOk(c, p, i);
  }

  /** What transmit answers, and that a refusal leaves the processes free that were. */
  lemma TransmitCodes(c: Config, p: Pool, bytes: Bytes, receiver: nat, ok: bool)
    requires ValidConfig(c) && Invariant(c, p)
    ensures var (q, code) := Transmit(p, bytes, receiver, ok);
            && (code == NoFreeHarq <==> forall i :: 0 <= i < c.processCount ==> p.occupied[i])
            && (code == NoMemHeap <==> !ok && exists i :: 0 <= i < c.processCount && !p.occupied[i])
            && (code != Code.Ok ==> q.occupied == p.occupied && q.heap.live == p.heap.live)
  {
    InitializeKeeps(c, p);
    var r := Initialize(p);
    var i := FirstFree(r.occupied, 0);
    if i < |r.occupied| {
      assert ProcessOk(c, r, i);
      assert r.occupied[i := true][i := false] == r.occupied;
    }
  }
}
