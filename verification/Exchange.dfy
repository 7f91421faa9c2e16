/** One HARQ exchange across the two devices: from a descriptor that the pool hands to the queue, over the bits of
    its header, to the event that the answer is for the pool. */
module Exchange {
  import opened PhyTypes
  import opened HarqModel
  import opened HarqTheorems
  import opened HarqPoolObject
  import opened Wire

  /** The rate tx_config chose, and the ids it fills in. */
  datatype Fields = Fields(length: bv32, mcs: bv32, power: bv32, self: bv32, to: bv32, network: bv32)

  /** The header of a transmission without feedback (format 0), as dect_mac_phy_handler_tx_config builds it. */
  function HeaderFor(d: Descriptor, f: Fields): Header2
    requires d.process <= 16 && d.rv <= 16
  {
    FillHeader(Some(HarqFields(Nibble(d.process), if d.ndi then 1 else 0, Nibble(d.rv), 0)), f.length, f.mcs, f.power,
               f.self, f.network, f.to, 0, 0)
  }

  predicate ValidIds(f: Fields) {
    f.self < 65536 && f.to < 65536 && f.network < 256
  }

  /** The receiver is asked for an answer, and sees the process, the new-data bit and the redundancy version of the
      descriptor and the id of the transmitter. */
  lemma RequestArrives(d: Descriptor, f: Fields)
    requires d.process < 8 && d.rv < 4 && ValidIds(f)
    ensures var got := Header2Of(Pack(HeaderFor(d, f)));
            && Wire.Valid(got) && Dispatch(got, f.to, f.network) == HarqRequest && Sender(got) == f.self
            && Value(got.harq.process) == d.process && Value(got.harq.rv) == d.rv
            && (got.harq.ind == 1 <==> d.ndi)
  {
    NibbleValue(d.process);
    NibbleValue(d.rv);
    SmallNibble(d.process);
    SmallNibble(d.rv);
    IdBytes(f.self);
    IdBytes(f.to);
    HeaderRoundTrip(HeaderFor(d, f));
  }

  lemma SmallNibble(n: nat)
    requires n < 8
    ensures Nibble(n) & 7 == Nibble(n) && (n < 4 ==> Nibble(n) & 3 == Nibble(n))
  {
  }

  /** What the receiver's answer does to the transmitter's pool. */
  function Outcome(i: nat, fits: bool, intact: bool): Event {
    if !fits then RefusalReceived(i) else if intact then AckReceived(i) else NackReceived(i)
  }

  /** In every run, for every descriptor of process i that is handed over: the device it is sent to, whatever its
      configuration, dispatches it as a request, and its answer, sent back as bits, is dispatched at the
      transmitter as an event of process i and of no other. */
  lemma AnswerIsForItsProcess(c: Config, pools: seq<Pool>, events: seq<Event>, k: nat, i: nat, a: nat, f: Fields,
                              other: Config, soft: nat, cqi: bv16, status: bv16, intact: bool, power: bv32)
    requires ValidConfig(c) && IsRun(c, pools, events) && k < |pools| && i < c.processCount
    requires a < |pools[k].tracks[i].sent|
    requires ValidIds(f) && ValidConfig(other) && cqi < 16 && status < 16 && power < 16
    ensures var d := pools[k].tracks[i].sent[a].descriptor;
            d.process == i && d.rv < 4
    ensures var d := pools[k].tracks[i].sent[a].descriptor;
            var request := Header2Of(Pack(HeaderFor(d, f)));
            Wire.Valid(request) && Dispatch(request, f.to, f.network) == HarqRequest
    ensures var d := pools[k].tracks[i].sent[a].descriptor;
            var request := Header2Of(Pack(HeaderFor(d, f)));
            var reply := Answer(other, request, soft, cqi, status);
            var sent := reply.feedback.(first := if intact && reply.format == FORMAT_1 then ACK else NACK);
            var response := Header2Of(Pack(AckHeader(reply.receiver, f.to, f.network, power, reply.format, sent)));
            && Dispatch(response, f.self, f.network) == HarqResponse(sent)
            && ResponseEvent(response.feedback.format, sent) == Some(Outcome(i, Holds(soft, other, request), intact))
  {
    PacketConsistency(c, pools, events, k, i, a, a);
    var d := pools[k].tracks[i].sent[a].descriptor;
    RequestArrives(d, f);
    AnswerReachesProcess(other, Header2Of(Pack(HeaderFor(d, f))), soft, cqi, status, intact, f.to, f.network, power);
  }
}
