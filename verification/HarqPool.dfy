/** The HARQ process pool as the program's object: src/dect_mac_harq.c on its two arrays. Each public method
    takes one step of HarqModel, so what HarqTheorems proves of all runs holds of this object. */
module HarqPoolObject {
  import opened PhyTypes
  import opened HarqModel
  import opened HarqProofs
  import Node = NodeModel
  import opened NodeTableObject
  import opened Wire
  import opened PhyQueueObject
  import Queue = QueueModel
  import Rates

  class HarqPool {
    const config: Config
    const processes: array<Process>
    const occupied: array<bool>
    var initialized: bool
    var heap: Heap
    ghost var tracks: seq<Track>

    ghost predicate Shape()
      reads this
    {
      ValidConfig(config) && processes.Length == occupied.Length == |tracks| == config.processCount
    }

    ghost function View(): Pool
      reads this, processes, occupied
    {
      Pool(processes[..], occupied[..], initialized, heap, tracks)
    }

    ghost predicate Valid()
      reads this, processes, occupied
    {
      Shape() && Invariant(config, View())
    }

    constructor (config: Config)
      requires ValidConfig(config)
      ensures Valid() && View() == Boot(config) && this.config == config
      ensures fresh(processes) && fresh(occupied)
    {
      this.config := config;
      processes := new Process[config.processCount](_ => Process(0, NO_PAYLOAD, 0, 0, false, false));
      occupied := new bool[config.processCount](_ => false);
      initialized, heap := false, Heap(map[], 0, []);
      tracks := seq(config.processCount, _ => EMPTY_TRACK);
      new;
      assert View() == Boot(config);
      BootOk(config);
    }

    // ---- processes ----

    /** dect_mac_harq_init_process. */
    method InitProcess(i: nat)
      requires Shape() && i < config.processCount
      modifies this, processes
      ensures Shape() && View() == HarqModel.InitProcess(old(View()), i)
    {
      heap := Free(heap, processes[i].payload.data);
      processes[i] := processes[i].(number := i, payload := NO_PAYLOAD, count := 0, rv := 0);
      tracks := tracks[i := EMPTY_TRACK];
    }

    /** dect_mac_harq_initialize. */
    method Initialize()
      requires Shape()
      modifies this, processes, occupied
      ensures Shape() && View() == HarqModel.Initialize(old(View()))
    {
      if initialized {
        return;
      }
      ghost var before := View();
      var i := 0;
      while i < processes.Length
        invariant 0 <= i <= processes.Length && Shape()
        invariant View() == BootUpTo(before, i)
      {
        InitProcess(i);
        occupied[i] := false;
        processes[i] := processes[i].(ndi := true, pending := false);
        assert View() == BootProcess(BootUpTo(before, i), i);
        i := i + 1;
      }
      initialized := true;
    }

    /** dect_mac_harq_take_process; None stands for the null pointer. */
    method TakeProcess() returns (taken: Option<nat>)
      requires Shape()
      modifies this, processes, occupied
      ensures Shape()
      ensures var p := HarqModel.Initialize(old(View()));
              var i := FirstFree(p.occupied, 0);
              if i == config.processCount then taken == None && View() == p
              else taken == Some(i) && View() == Occupy(p, i)
    {
      Initialize();
      var i := 0;
      while i < occupied.Length
        invariant 0 <= i <= occupied.Length && Shape()
        invariant View() == HarqModel.Initialize(old(View()))
        invariant FirstFree(occupied[..], 0) == FirstFree(occupied[..], i)
      {
        if !occupied[i] {
          occupied[i] := true;
          processes[i] := processes[i].(ndi := !processes[i].ndi);
          return Some(i);
        }
        i := i + 1;
      }
      taken := None;
    }

    /** dect_mac_harq_give_process: it finds the process's index in its own number. */
    method GiveProcess(i: nat)
      requires Shape() && i < config.processCount
      requires initialized ==> processes[i].number == i
      modifies this, processes, occupied
      ensures Shape() && View() == Give(old(View()), i)
    {
      NumberedByBoot(View(), i);
      Initialize();
      var number := processes[i].number;
      InitProcess(number);
      occupied[number] := false;
      processes[i] := processes[i].(pending := false);
    }

    // ---- transmission ----

    method DescriptorFor(i: nat) returns (d: Descriptor)
      requires Shape() && i < config.processCount
      ensures d == DescriptorOf(processes[i])
    {
      var q := processes[i];
      d := Descriptor(HANDLE_HARQ + NumberBits(q.number), q.payload, q.rv, q.ndi, q.number);
    }

    /** dect_mac_harq_transmit; ok is the answer of the allocator, queued the operation put into the queue. */
    method Transmit(bytes: Bytes, receiver: nat, ok: bool) returns (code: Code, queued: Option<Descriptor>)
      requires Valid()
      modifies this, processes, occupied
      ensures Valid() && View() == Next(config, old(View()), Transmitted(bytes, receiver, ok))
      ensures code == HarqModel.Transmit(old(View()), bytes, receiver, ok).1
      ensures queued.Some? <==> code == Ok
      ensures queued.Some? ==>
                var i := FirstFree(HarqModel.Initialize(old(View())).occupied, 0);
                i < config.processCount && tracks[i].sent == [Sent(queued.value, tracks[i].nacks)]
    {
      ghost var before := View();
      StepKeeps(config, before, Transmitted(bytes, receiver, ok));
      InitializeKeeps(config, before);
      var taken := TakeProcess();
      if taken == None {
        return NoFreeHarq, None;
      }
      var i := taken.value;
      assert ProcessOk(config, HarqModel.Initialize(before), i);
      if !ok {
        GiveProcess(i);
        return NoMemHeap, None;
      }
      var data := heap.next;
      heap := Malloc(heap, bytes);
      processes[i] := processes[i].(payload := Payload(Some(data), |bytes|, receiver), count := 1);
      var d := DescriptorFor(i);
      tracks := tracks[i := Track([Sent(d, tracks[i].nacks)], tracks[i].nacks)];
      return Ok, Some(d);
    }

    /** dect_mac_harq_retransmit: more power and a lower MCS for the receiver, then the next transmission. */
    method Retransmit(i: nat, nodes: NodeTable) returns (queued: Descriptor)
      requires Shape() && i < config.processCount && nodes.Valid()
      modifies this, processes, nodes
      ensures Shape() && View() == HarqModel.Retransmit(old(View()), i)
      ensures queued == DescriptorOf(processes[i])
      ensures nodes.Valid() && nodes.table == Backoff(nodes.radio, old(nodes.table), processes[i])
      ensures BackedOff(nodes.radio, old(nodes.table), nodes.table, processes[i].payload.receiver, processes[i].count)
    {
      BackoffExact(nodes.radio, nodes.table, processes[i].(count := (processes[i].count + 1) % 256));
      processes[i] := processes[i].(count := (processes[i].count + 1) % 256);
      var _ := nodes.AddPower(processes[i].payload.receiver, processes[i].count);
      var _ := nodes.ReduceMcs(processes[i].payload.receiver, 1);
      queued := DescriptorFor(i);
      tracks := tracks[i := tracks[i].(sent := tracks[i].sent + [Sent(queued, tracks[i].nacks)])];
    }

    /** dect_mac_harq_retransmission_work_handler. */
    method RetransmissionWorkHandler(i: nat, nodes: NodeTable) returns (queued: Option<Descriptor>)
      requires Valid() && i < config.processCount && nodes.Valid()
      requires Enabled(config, View(), WorkRuns(i))
      modifies this, processes, occupied, nodes
      ensures Valid() && View() == Next(config, old(View()), WorkRuns(i))
      ensures queued.Some? <==> old(processes[i]).count < config.maxTransmissions
      ensures queued.Some? ==> queued.value == DescriptorOf(processes[i])
      ensures nodes.Valid()
      ensures nodes.table == if queued.Some? then Backoff(nodes.radio, old(nodes.table), processes[i])
                             else old(nodes.table)
      ensures queued.Some? ==>
                BackedOff(nodes.radio, old(nodes.table), nodes.table, processes[i].payload.receiver, processes[i].count)
    {
      StepKeeps(config, View(), WorkRuns(i));
      assert ProcessOk(config, View(), i);
      processes[i] := processes[i].(pending := false);
      if processes[i].count < config.maxTransmissions {
        var d := Retransmit(i, nodes);
        queued := Some(d);
      } else {
        GiveProcess(i);
        queued := None;
      }
    }

    // ---- feedback ----

    /** dect_mac_harq_increment_redundancy_version: from the version of k NACKs to that of k + 1. Values that are no
        version stay. */
    method IncrementRedundancyVersion(i: nat, ghost k: nat)
      requires Shape() && i < config.processCount
      modifies processes
      ensures old(processes[i]).rv == Version(k) ==> processes[i].rv == Version(k + 1)
      ensures old(processes[i]).rv > 3 ==> processes[i].rv == old(processes[i]).rv
      ensures processes[..] == old(processes[..])[i := old(processes[i]).(rv := processes[i].rv)]
    {
      var rv := processes[i].rv;
      match processes[i].rv {
        case 0 => rv := 2;
        case 1 => rv := 0;
        case 2 => rv := 3;
        case 3 => rv := 1;
        case _ =>
      }
      processes[i] := processes[i].(rv := rv);
    }

    /** dect_mac_harq_response for an ACK. */
    method Acknowledge(i: nat)
      requires Valid() && i < config.processCount
      modifies this, processes, occupied
      ensures Valid() && View() == Next(config, old(View()), AckReceived(i))
    {
      StepKeeps(config, View(), AckReceived(i));
      assert ProcessOk(config, View(), i);
      processes[i] := processes[i].(pending := false);
      GiveProcess(i);
    }

    /** The same for a NACK. */
    method NegativeAcknowledge(i: nat)
      requires Valid() && i < config.processCount
      modifies this, processes
      ensures Valid() && View() == Next(config, old(View()), NackReceived(i))
    {
      StepKeeps(config, View(), NackReceived(i));
      assert ProcessOk(config, View(), i);
      NextOfVersion(tracks[i].nacks);
      IncrementRedundancyVersion(i, tracks[i].nacks);
      processes[i] := processes[i].(pending := true);
      tracks := tracks[i := tracks[i].(nacks := tracks[i].nacks + 1)];
      assert View() == Nacked(old(View()), i);
    }

    /** The same for format 6: the receiver could not store the packet. */
    method StartOver(i: nat)
      requires Valid() && i < config.processCount
      modifies this, processes
      ensures Valid() && View() == Next(config, old(View()), RefusalReceived(i))
    {
      StepKeeps(config, View(), RefusalReceived(i));
      processes[i] := processes[i].(rv := 0, pending := true);
      tracks := tracks[i := tracks[i].(nacks := 0)];
      assert View() == Refused(old(View()), i);
    }

    /** dect_mac_harq_response for the feedback that Dispatch reads from a header. */
    method Response(format: bv16, f: Feedback)
      requires Valid() && ValidFeedback(f) && Index(f) < config.processCount
      modifies this, processes, occupied
      ensures Valid()
      ensures View() == match ResponseEvent(format, f)
                        case None => old(View())
                        case Some(e) => Next(config, old(View()), e)
    {
      var i := Index(f);
      if format == FORMAT_1 {
        if f.first == ACK {
          Acknowledge(i);
        } else {
          NegativeAcknowledge(i);
        }
      } else if format == FORMAT_6 {
        StartOver(i);
      }
    }

    /** What op_complete does at the end of a HARQ transmission (src/dect_mac_phy_handler_cb.c). */
    method ArmTimer(i: nat)
      requires Valid() && i < config.processCount
      modifies processes
      ensures Valid() && View() == Next(config, old(View()), TimerArmed(i))
    {
      StepKeeps(config, View(), TimerArmed(i));
      processes[i] := processes[i].(pending := true);
    }

    /** dect_mac_harq_request: re-initialises the process, answers past the queue, and puts the placeholder that is to
        keep the queue away from the modem until the answer is sent. Looking up the quality of the channel marks
        or creates the sender's node; room, answer and soft stand for the hash map, the modem and its buffer. */
    method Request(h: Header2, soft: nat, status: bv16, room: bool, answer: bool, nodes: NodeTable, queue: PhyQueue)
      returns (reply: Reply, ok: bool)
      requires Valid() && Wire.Valid(h) && Value(h.harq.process) < config.processCount && status < 16
      requires nodes.Valid() && queue.Valid() && Queue.CanReceive(queue.PhyView())
      modifies this, processes, nodes, queue
      ensures Valid() && View() == Next(config, old(View()), RequestReceived(Value(h.harq.process)))
      ensures nodes.Valid() && nodes.table == Node.Looked(nodes.radio, old(nodes.table), Sender(h) as nat, room)
      ensures queue.Valid()
      ensures queue.events == old(queue.events) + [Queue.Request(h.harq.process, answer), Queue.PlaceholderAlloc]
      ensures reply == Answer(config, h, soft, CqiOf(nodes.radio, old(nodes.table), Sender(h) as nat), status)
    {
      reply := Prepare(h, soft, status, room, nodes);
      ok := Reserve(h.harq.process, answer, queue);
    }

    method Prepare(h: Header2, soft: nat, status: bv16, room: bool, nodes: NodeTable) returns (reply: Reply)
      requires Valid() && Wire.Valid(h) && Value(h.harq.process) < config.processCount && nodes.Valid()
      modifies this, processes, nodes
      ensures Valid() && View() == Next(config, old(View()), RequestReceived(Value(h.harq.process)))
      ensures nodes.Valid() && nodes.table == Node.Looked(nodes.radio, old(nodes.table), Sender(h) as nat, room)
      ensures reply == Answer(config, h, soft, CqiOf(nodes.radio, old(nodes.table), Sender(h) as nat), status)
    {
      Reinitialize(Value(h.harq.process));
      var cqi := nodes.GetCqi(Sender(h) as nat, room);
      reply := Decide(h, soft, CqiField(cqi), status);
    }

    static method Reserve(n: Queue.ProcessNumber, answer: bool, queue: PhyQueue) returns (ok: bool)
      requires queue.Valid() && Queue.CanReceive(queue.PhyView())
      modifies queue
      ensures queue.Valid()
      ensures queue.events == old(queue.events) + [Queue.Request(n, answer), Queue.PlaceholderAlloc]
    {
      queue.SendAcknowledgement(n, answer);
      ok := queue.PutPlaceholder();
    }

    method Reinitialize(i: nat)
      requires Valid() && i < config.processCount
      modifies this, processes
      ensures Valid() && View() == Next(config, old(View()), RequestReceived(i))
    {
      StepKeeps(config, View(), RequestReceived(i));
      InitProcess(i);
    }

    /** The feedback, the handle and the receiver of the answer. */
    method Decide(h: Header2, soft: nat, cqi: bv16, status: bv16) returns (reply: Reply)
      requires ValidConfig(config) && Wire.Valid(h)
      ensures reply == Answer(config, h, soft, cqi, status)
    {
      var fits := Fitting(h, soft);
      var feedback := Feedback(NACK, h.harq.process as bv16, cqi, status);
      reply := Reply(if fits then FORMAT_1 else FORMAT_6, feedback, (HANDLE_HARQ + h.harq.process) | QUEUE_FLAG,
                     (h.common.txHi << 8) | h.common.txLo);
    }

    method Fitting(h: Header2, soft: nat) returns (fits: bool)
      requires ValidConfig(config) && Wire.Valid(h)
      ensures fits == Holds(soft, config, h)
    {
      var bytes := Rates.BytesOf(Value(h.common.length), Value(h.rate.mcs));
      fits := bytes <= soft / 8 / config.processCount;
    }
  }

  /** The four bits that a channel quality indicator has in the feedback. */
  function CqiField(cqi: nat): bv16 {
    Nibble(cqi % 16) as bv16
  }

  function CqiOf(r: Node.Radio, t: Node.Table, a: nat): bv16 {
    CqiField(Node.Cqi(if a in t then t[a].mcs else r.mcsMax))
  }

  // ---- requests and their answers ----

  const ACK: bv16 := 1
  const NACK: bv16 := 0

  /** Each process has its share of the modem's soft buffer, which the announced packet must fit into. */
  predicate Holds(soft: nat, c: Config, h: Header2)
    requires ValidConfig(c) && Wire.Valid(h)
  {
    Rates.BytesOf(Value(h.common.length), Value(h.rate.mcs)) <= soft / 8 / c.processCount
  }

  /** The index of the process a response is for. */
  function Index(f: Feedback): nat
    requires ValidFeedback(f)
  {
    Value(f.process as bv32)
  }

  function ResponseEvent(format: bv16, f: Feedback): Option<Event>
    requires ValidFeedback(f)
  {
    if format == FORMAT_1 then
      Some(if f.first == ACK then AckReceived(Index(f)) else NackReceived(Index(f)))
    else if format == FORMAT_6 then Some(RefusalReceived(Index(f)))
    else None
  }

  /** The acknowledgement of a request: its feedback, the handle and the receiver. */
  datatype Reply = Reply(format: bv16, feedback: Feedback, handle: bv32, receiver: bv32)

  /** It says NACK; the modem turns that into ACK if the data it then receives is intact. */
  function Answer(c: Config, h: Header2, soft: nat, cqi: bv16, status: bv16): Reply
    requires ValidConfig(c) && Wire.Valid(h)
  {
    Reply(if Holds(soft, c, h) then FORMAT_1 else FORMAT_6,
          Feedback(NACK, h.harq.process as bv16, cqi, status),
          (HANDLE_HARQ + h.harq.process) | QUEUE_FLAG,
          Sender(h))
  }

  /** The answer to the request with header h, packed, sent, read back and dispatched by the requester, is a step
      of the requester's process h.harq.process: an acknowledgement exactly if the modem could confirm the data
      and the packet fits the process's share of the buffer, a NACK if only the data is broken, and a restart
      with redundancy version 0 if it does not fit. */
  lemma AnswerReachesProcess(c: Config, h: Header2, soft: nat, cqi: bv16, status: bv16, intact: bool,
                             self: bv32, network: bv32, power: bv32)
    requires ValidConfig(c) && Wire.Valid(h) && cqi < 16 && status < 16
    requires self < 65536 && network < 256 && power < 16
    ensures var reply := Answer(c, h, soft, cqi, status);
            var sent := reply.feedback.(first := if intact && reply.format == FORMAT_1 then ACK else NACK);
            var got := Header2Of(Pack(AckHeader(reply.receiver, self, network, power, reply.format, sent)));
            && Dispatch(got, Sender(h), network) == HarqResponse(sent)
            && sent.cqi == cqi && sent.status == status && sent.process as bv32 == h.harq.process
            && reply.handle == 0x0800_00A0 + h.harq.process
            && ResponseEvent(got.feedback.format, sent) == Some(
                 if !Holds(soft, c, h) then RefusalReceived(Value(h.harq.process))
                 else if intact then AckReceived(Value(h.harq.process))
                 else NackReceived(Value(h.harq.process)))
            && OpComplete(Transmitting, NoErr, TrueHandle(TxHarq, reply.handle)) == Release
  {
    var reply := Answer(c, h, soft, cqi, status);
    var sent := reply.feedback.(first := if intact && reply.format == FORMAT_1 then ACK else NACK);
    AcknowledgementFindsProcess(h, self, network, power, reply.format, sent);
    AcknowledgementReleases(h.harq.process, Transmitting);
  }

  /** What a retransmission of process q does to its receiver's entry. */
  function Backoff(r: Node.Radio, t: Node.Table, q: Process): Node.Table {
    Node.WithMcs(r, Node.WithPower(r, t, q.payload.receiver, q.count), q.payload.receiver, 1)
  }

  /** What a retransmission with the given count must do to the nodes: the receiver, if it is known, is marked, gets one
      MCS less but not less than 0, and count codes of power more up to the limit, as long as the sum fits into
      eight bits; nothing else changes. */
  ghost predicate BackedOff(r: Node.Radio, t: Node.Table, u: Node.Table, a: nat, count: nat) {
    && (forall b :: b in u <==> b in t)
    && (forall b :: b in t && b != a ==> u[b] == t[b])
    && (a in t && 0 <= t[a].mcs <= r.mcsMax && t[a].power <= r.txPower ==>
          && u[a].used
          && u[a].mcs == (if t[a].mcs == 0 then 0 else t[a].mcs - 1)
          && (t[a].power + count < 256 ==>
                u[a].power == if t[a].power + count <= r.txPower then t[a].power + count else r.txPower)
          && (256 <= t[a].power + count && count < 256 ==> u[a].power < t[a].power))
  }

  lemma BackoffExact(r: Node.Radio, t: Node.Table, q: Process)
    requires Node.ValidRadio(r)
    ensures BackedOff(r, t, Backoff(r, t, q), q.payload.receiver, q.count)
  {
  }

  /** The share of the modem's buffer decides: a packet with a capacity fits exactly if the capacity does not exceed
      the share, one without capacity needs 65535 bytes, and one of an unknown MCS always fits. */
  lemma HoldsExact(soft: nat, c: Config, h: Header2)
    requires ValidConfig(c) && Wire.Valid(h)
    ensures var (mcs, length, share) := (Value(h.rate.mcs), Value(h.common.length), soft / 8 / c.processCount);
            Holds(soft, c, h) <==> mcs > 4 || (if Rates.Row(mcs)[length] >= 0 then Rates.Row(mcs)[length] else 65535) <= share
  {
    var mcs, length := Value(h.rate.mcs), Value(h.common.length);
    if mcs <= 4 {
      Capacity(length, mcs);
    }
  }

  lemma Capacity(length: nat, mcs: nat)
    requires mcs <= 4 && length < 16
    ensures Rates.BytesOf(length, mcs) == if Rates.Row(mcs)[length] >= 0 then Rates.Row(mcs)[length] else 65535
  {
  }

  /** The indicator on the air is the MCS plus one, for the MCS values an entry can have. */
  lemma CqiExact(mcs: int)
    requires -1 <= mcs <= 4
    ensures CqiField(Node.Cqi(mcs)) < 16 && Value(CqiField(Node.Cqi(mcs)) as bv32) == mcs + 1
  {
    assert Node.Cqi(mcs) == mcs + 1;
    FieldOf(mcs + 1);
  }

  lemma FieldOf(n: nat)
    requires n <= 5
    ensures CqiField(n) < 16 && Value(CqiField(n) as bv32) == n
  {
    NibbleValue(n);
    SameBits(Nibble(n));
  }

  lemma SameBits(b: bv32)
    requires b < 16
    ensures (b as bv16) as bv32 == b && b as bv16 < 16
  {
  }

  /** Initialisation numbers the processes. */
  lemma NumberedByBoot(p: Pool, i: nat)
    requires Sized(p, |p.procs|) && i < |p.procs|
    requires p.initialized ==> p.procs[i].number == i
    ensures Initialize(p).procs[i].number == i
  {
    if !p.initialized {
      NumberedUpTo(p, |p.procs|, i);
    }
  }

  lemma {:induction false} NumberedUpTo(p: Pool, k: nat, i: nat)
    requires Sized(p, |p.procs|) && i < k <= |p.procs|
    ensures |BootUpTo(p, k).procs| == |p.procs| && BootUpTo(p, k).procs[i].number == i
  {
    if i < k - 1 {
      NumberedUpTo(p, k - 1, i);
    }
  }
}
