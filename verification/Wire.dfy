/** The physical header field and the feedback info on the air (section 6.2 of ETSI TS 103 636-4), as the
    bit-field structures of src/dect_mac_phy_handler_types.h lay them out, least significant bits first,
    and the dispatch of a received header in dect_mac_phy_pcc_cb. */
module Wire {
  import opened PhyTypes

  // ---- feedback info ----

  /** union feedback_info in its format 1 or format 6 reading; the first bit is reserved in format 6. */
  datatype Feedback = Feedback(first: bv16, process: bv16, cqi: bv16, status: bv16)

  predicate ValidFeedback(f: Feedback) {
    f.first < 2 && f.process < 8 && f.cqi < 16 && f.status < 16
  }

  function Raw(f: Feedback): bv16 {
    f.first | (f.process << 1) | (f.cqi << 8) | (f.status << 12)
  }

  function FeedbackOf(raw: bv16): Feedback {
    Feedback(raw & 1, (raw >> 1) & 7, (raw >> 8) & 15, (raw >> 12) & 15)
  }

  /** The nibble and the byte the header has room for. */
  function Hi(raw: bv16): bv16 {
    raw & 15
  }

  function Lo(raw: bv16): bv16 {
    raw >> 8
  }

  function Joined(hi: bv16, lo: bv16): bv16 {
    hi | (lo << 8)
  }

  lemma FeedbackRoundTrip(f: Feedback)
    requires ValidFeedback(f)
    ensures Hi(Raw(f)) < 16 && Lo(Raw(f)) < 256
    ensures FeedbackOf(Joined(Hi(Raw(f)), Lo(Raw(f)))) == f
  {
  }

  /** Where the fields are on the air. */
  lemma FeedbackLayout(f: Feedback)
    requires ValidFeedback(f)
    ensures Raw(f) == f.first + 2 * f.process + 256 * f.cqi + 4096 * f.status
    ensures Hi(Raw(f)) == f.first + 2 * f.process && Lo(Raw(f)) == f.cqi + 16 * f.status
  {
  }

  // ---- headers ----

  datatype Common = Common(length: bv32, lengthType: bv32, format: bv32, network: bv32, txHi: bv32, txLo: bv32)

  datatype Rate = Rate(mcs: bv32, power: bv32)

  datatype Receiver = Receiver(hi: bv32, lo: bv32)

  datatype HarqFields = HarqFields(process: bv32, ind: bv32, rv: bv32, streams: bv32)

  datatype FeedbackFields = FeedbackFields(hi: bv16, format: bv16, lo: bv16)

  datatype Header2 = Header2(common: Common, rate: Rate, to: Receiver, harq: HarqFields, feedback: FeedbackFields)

  datatype Header1 = Header1(common: Common, rate: Rate)

  /** The 80 bits of a type 2 header. */
  datatype Words = Words(w0: bv32, w1: bv32, w2: bv16)

  predicate ValidCommon(c: Common) {
    c.length < 16 && c.lengthType < 2 && c.format < 8 && c.network < 256 && c.txHi < 256 && c.txLo < 256
  }

  predicate Valid(h: Header2) {
    && ValidCommon(h.common)
    && h.rate.mcs < 16 && h.rate.power < 16 && h.to.hi < 256 && h.to.lo < 256
    && h.harq.process < 8 && h.harq.ind < 2 && h.harq.rv < 4 && h.harq.streams < 4
    && h.feedback.hi < 16 && h.feedback.format < 16 && h.feedback.lo < 256
  }

  function Word0(c: Common): bv32 {
    c.length | (c.lengthType << 4) | (c.format << 5) | (c.network << 8) | (c.txHi << 16) | (c.txLo << 24)
  }

  function Word1(r: Rate, to: Receiver, q: HarqFields): bv32 {
    r.mcs | (r.power << 4) | (to.hi << 8) | (to.lo << 16) | (q.process << 24) | (q.ind << 27) | (q.rv << 28)
    | (q.streams << 30)
  }

  function Word2(f: FeedbackFields): bv16 {
    f.hi | (f.format << 4) | (f.lo << 8)
  }

  function Pack(h: Header2): Words {
    Words(Word0(h.common), Word1(h.rate, h.to, h.harq), Word2(h.feedback))
  }

  function CommonOf(w: bv32): Common {
    Common(w & 15, (w >> 4) & 1, (w >> 5) & 7, (w >> 8) & 255, (w >> 16) & 255, w >> 24)
  }

  function Header2Of(w: Words): Header2 {
    Header2(CommonOf(w.w0),
            Rate(w.w1 & 15, (w.w1 >> 4) & 15),
            Receiver((w.w1 >> 8) & 255, (w.w1 >> 16) & 255),
            HarqFields((w.w1 >> 24) & 7, (w.w1 >> 27) & 1, (w.w1 >> 28) & 3, w.w1 >> 30),
            FeedbackFields(w.w2 & 15, (w.w2 >> 4) & 15, w.w2 >> 8))
  }

  /** The same bits read as a type 1 header, which dect_mac_phy_pcc_cb does before it knows the type: one bit
      less for the MCS. */
  function Header1Of(w: Words): Header1 {
    Header1(CommonOf(w.w0), Rate(w.w1 & 7, (w.w1 >> 4) & 15))
  }

  lemma CommonRoundTrip(c: Common)
    requires ValidCommon(c)
    ensures CommonOf(Word0(c)) == c
  {
  }

  lemma SecondWordRoundTrip(r: Rate, to: Receiver, q: HarqFields)
    requires r.mcs < 16 && r.power < 16 && to.hi < 256 && to.lo < 256
    requires q.process < 8 && q.ind < 2 && q.rv < 4 && q.streams < 4
    ensures var w := Word1(r, to, q);
            && Rate(w & 15, (w >> 4) & 15) == r
            && Receiver((w >> 8) & 255, (w >> 16) & 255) == to
            && HarqFields((w >> 24) & 7, (w >> 27) & 1, (w >> 28) & 3, w >> 30) == q
  {
  }

  lemma HeaderRoundTrip(h: Header2)
    requires Valid(h)
    ensures Header2Of(Pack(h)) == h
  {
    CommonRoundTrip(h.common);
    SecondWordRoundTrip(h.rate, h.to, h.harq);
  }

  /** Where the fields are on the air. */
  lemma HeaderLayout(h: Header2)
    requires Valid(h)
    ensures Pack(h).w0 == h.common.length + 16 * h.common.lengthType + 32 * h.common.format + 256 * h.common.network
                          + 0x1_0000 * h.common.txHi + 0x100_0000 * h.common.txLo
    ensures Pack(h).w1 == h.rate.mcs + 16 * h.rate.power + 256 * h.to.hi + 0x1_0000 * h.to.lo
                          + 0x100_0000 * h.harq.process + 0x800_0000 * h.harq.ind + 0x1000_0000 * h.harq.rv
                          + 0x4000_0000 * h.harq.streams
    ensures Pack(h).w2 == h.feedback.hi + 16 * h.feedback.format + 256 * h.feedback.lo
  {
  }

  /** Every bit pattern is the header of exactly one set of fields. */
  lemma HeaderOnto(w: Words)
    ensures Valid(Header2Of(w)) && Pack(Header2Of(w)) == w
  {
  }

  /** The 40 bits of a type 1 header, the reserved bit 0. */
  function PackOne(h: Header1): Words {
    Words(Word0(h.common), h.rate.mcs | (h.rate.power << 4), 0)
  }

  lemma BeaconRoundTrip(h: Header1)
    requires ValidCommon(h.common) && h.rate.mcs < 8 && h.rate.power < 16
    ensures Header1Of(PackOne(h)) == h
  {
    CommonRoundTrip(h.common);
  }

  /** The type 1 view of a type 2 header gives its transmitter and its power, and its MCS if and only if that
      is at most 7. */
  lemma TypeOneView(h: Header2)
    requires Valid(h)
    ensures Header1Of(Pack(h)).common == h.common && Header1Of(Pack(h)).rate.power == h.rate.power
    ensures Header1Of(Pack(h)).rate.mcs == h.rate.mcs <==> h.rate.mcs <= 7
  {
    HeaderRoundTrip(h);
    LowBits(h.rate.mcs, Pack(h).w1);
  }

  lemma LowBits(mcs: bv32, w: bv32)
    requires mcs < 16 && w & 15 == mcs
    ensures w & 7 == mcs <==> mcs <= 7
  {
    assert w & 7 == mcs & 7;
  }

  // ---- numbers in fields ----

  /** A number cut to a field of four bits. */
  function Nibble(n: nat): bv32
    requires n <= 16
  {
    match n
    case 0 => 0
    case 1 => 1
    case 2 => 2
    case 3 => 3
    case 4 => 4
    case 5 => 5
    case 6 => 6
    case 7 => 7
    case 8 => 8
    case 9 => 9
    case 10 => 10
    case 11 => 11
    case 12 => 12
    case 13 => 13
    case 14 => 14
    case 15 => 15
    case _ => 0
  }

  /** The number in a field of four bits. */
  function Value(b: bv32): (n: nat)
    requires b < 16
    ensures n < 16 && Nibble(n) == b
  {
    if b == 0 then 0 else if b == 1 then 1 else if b == 2 then 2 else if b == 3 then 3
    else if b == 4 then 4 else if b == 5 then 5 else if b == 6 then 6 else if b == 7 then 7
    else if b == 8 then 8 else if b == 9 then 9 else if b == 10 then 10 else if b == 11 then 11
    else if b == 12 then 12 else if b == 13 then 13 else if b == 14 then 14 else 15
  }

  /** A number up to 15 comes back from its field; 16 comes back as 0. */
  lemma NibbleValue(n: nat)
    requires n <= 16
    ensures Nibble(n) < 16 && Nibble(n) & 15 == Nibble(n) && Value(Nibble(n)) == n % 16
  {
  }

  // ---- dispatch of a received header ----

  datatype Action =
    | HarqRequest
    | HarqResponse(feedback: Feedback)
    | NotForUs
    | NoFeedback
    | UnknownFormat

  const FORMAT_1: bv16 := 1
  const FORMAT_6: bv16 := 6

  /** The branches of dect_mac_phy_pcc_cb for a type 2 header; id is the 16-bit device id, network its network
      id cut to 8 bits. */
  function Dispatch(h: Header2, id: bv32, network: bv32): Action {
    var mine := h.to.hi == id >> 8 && h.to.lo == id & 255;
    if h.common.format == 0 then
      if h.common.network == network && (mine || (h.to.hi == 255 && h.to.lo == 255)) then HarqRequest
      else NotForUs
    else if h.common.format == 1 then
      if h.common.network == network && (mine || (h.to.hi == 255 && h.to.hi == 255)) then
        if h.feedback.format == FORMAT_1 || h.feedback.format == FORMAT_6 then
          HarqResponse(FeedbackOf(Joined(h.feedback.hi, h.feedback.lo)))
        else NoFeedback
      else NotForUs
    else UnknownFormat
  }

  /** The address check of the two branches. */
  predicate Addressed(h: Header2, id: bv32) {
    (h.to.hi == id >> 8 && h.to.lo == id & 255) || (h.to.hi == 255 && h.to.lo == 255)
  }

  /** A request is answered exactly if its network fits and it is addressed to this device or to everybody. */
  lemma RequestFilter(h: Header2, id: bv32, network: bv32)
    ensures Dispatch(h, id, network) == HarqRequest
            <==> h.common.format == 0 && h.common.network == network && Addressed(h, id)
    ensures h.common.format == 0 && Dispatch(h, id, network) != HarqRequest ==> Dispatch(h, id, network) == NotForUs
  {
  }

  /** A response that is taken in is acted upon exactly with feedback of format 1 or 6, whose fields it carries. */
  lemma ResponseExact(h: Header2, id: bv32, network: bv32)
    requires Valid(h) && h.common.format == 1 && Dispatch(h, id, network) != NotForUs
    ensures if h.feedback.format == 1 || h.feedback.format == 6 then
              Dispatch(h, id, network) == HarqResponse(Feedback(h.feedback.hi & 1, h.feedback.hi >> 1,
                                                                h.feedback.lo & 15, h.feedback.lo >> 4))
            else Dispatch(h, id, network) == NoFeedback
  {
    JoinedFields(h.feedback.hi, h.feedback.lo);
  }

  lemma JoinedFields(hi: bv16, lo: bv16)
    requires hi < 16 && lo < 256
    ensures FeedbackOf(Joined(hi, lo)) == Feedback(hi & 1, hi >> 1, lo & 15, lo >> 4)
  {
  }

  /** A response is taken in exactly if its network fits and it is addressed to this device or to everybody --
      or to any other receiver with high byte 255: the second comparison is on the high byte again. */
  lemma ResponseFilter(h: Header2, id: bv32, network: bv32)
    requires h.common.format == 1
    ensures Dispatch(h, id, network) == NotForUs
            <==> h.common.network != network || (!Addressed(h, id) && h.to.hi != 255)
  {
  }

  /** A device takes in a response meant for another one, of high byte 255. */
  lemma ForeignResponseTaken()
    ensures var h := Header2(Common(0, 0, 1, 91, 0, 1), Rate(0, 0), Receiver(255, 7), HarqFields(0, 0, 0, 0),
                             FeedbackFields(6, FORMAT_1, 0));
            !Addressed(h, 0x0102) && Dispatch(h, 0x0102, 91) == HarqResponse(Feedback(0, 3, 0, 0))
  {
    assert FeedbackOf(Joined(6, 0)) == Feedback(0, 3, 0, 0);
  }

  // ---- an acknowledgement finds its process ----

  /** The type 2 header dect_mac_phy_handler_tx_config fills in; every field is cut to its width. */
  function FillHeader(harq: Option<HarqFields>, length: bv32, mcs: bv32, power: bv32, self: bv32, network: bv32,
                      to: bv32, format: bv16, raw: bv16): (h: Header2)
    ensures Valid(h)
  {
    var q := if harq.Some? then harq.value else HarqFields(0, 0, 0, 0);
    Header2(Common(length & 15, 0, if harq.Some? then 0 else 1, network & 255, (self >> 8) & 255, self & 255),
            Rate(mcs & 15, power & 15),
            Receiver((to >> 8) & 255, to & 255),
            HarqFields(q.process & 7, q.ind & 1, q.rv & 3, 0),
            FeedbackFields(Hi(raw), format & 15, Lo(raw)))
  }

  /** The type 1 header it fills in for a beacon. */
  function FillHeader1(length: bv32, mcs: bv32, power: bv32, self: bv32, network: bv32): (h: Header1)
    ensures ValidCommon(h.common) && h.rate.mcs < 8 && h.rate.power < 16
  {
    Header1(Common(length & 15, 0, 0, network & 255, (self >> 8) & 255, self & 255), Rate(mcs & 7, power & 15))
  }

  /** The header of an acknowledgement without data. */
  function AckHeader(to: bv32, self: bv32, network: bv32, power: bv32, format: bv16, f: Feedback): Header2 {
    FillHeader(None, 0, 0, power, self, network, to, format, Raw(f))
  }

  /** The receiver of an acknowledgement, dect_mac_harq_request's transmitter_id_hi << 8 | transmitter_id_lo. */
  function Sender(h: Header2): bv32 {
    (h.common.txHi << 8) | h.common.txLo
  }

  lemma SenderBytes(h: Header2)
    requires Valid(h)
    ensures Sender(h) >> 8 == h.common.txHi && Sender(h) & 255 == h.common.txLo && Sender(h) < 65536
  {
  }

  /** A device sends a HARQ transmission with header h on process h.harq.process. The acknowledgement built for
      it, sent as 80 bits and read back by that device, is dispatched as a response with the feedback it was
      given, so it reaches the process that transmitted. */
  lemma AcknowledgementFindsProcess(h: Header2, self: bv32, network: bv32, power: bv32, format: bv16, f: Feedback)
    requires Valid(h) && self < 65536 && network < 256 && power < 16
    requires format == FORMAT_1 || format == FORMAT_6
    requires ValidFeedback(f) && f.process as bv32 == h.harq.process
    ensures var id := Sender(h);
            var got := Header2Of(Pack(AckHeader(id, self, network, power, format, f)));
            && Dispatch(got, id, network) == HarqResponse(f)
            && got.feedback.format == format
            && Sender(got) == self
  {
    FeedbackRoundTrip(f);
    SenderBytes(h);
    IdBytes(self);
    IdBytes(Sender(h));
    HeaderRoundTrip(AckHeader(Sender(h), self, network, power, format, f));
  }

  lemma IdBytes(id: bv32)
    requires id < 65536
    ensures (id >> 8) & 255 == id >> 8 && (((id >> 8) & 255) << 8) | (id & 255) == id
  {
  }

  /** A receiver of a beacon reads the sender's id, the low byte of its network id and the rate. */
  lemma BeaconReadBack(length: bv32, mcs: bv32, power: bv32, self: bv32, network: bv32)
    requires length < 16 && mcs < 8 && power < 16 && self < 65536
    ensures var h := Header1Of(PackOne(FillHeader1(length, mcs, power, self, network)));
            && (h.common.txHi << 8) | h.common.txLo == self && h.common.network == network & 255
            && h.common.format == 0 && h.common.lengthType == 0
            && h.common.length == length && h.rate == Rate(mcs, power)
  {
    BeaconRoundTrip(FillHeader1(length, mcs, power, self, network));
    IdBytes(self);
  }

  /** What a receiver of a type 2 header reads: the bytes of sender and receiver, the low byte of the network, and the
      rate; one spatial stream; and the HARQ fields given, or zeros for a message that is not to be acknowledged. */
  lemma HeaderReadBack(harq: Option<HarqFields>, length: bv32, mcs: bv32, power: bv32, self: bv32, network: bv32, to: bv32,
                       format: bv16, raw: bv16)
    requires length < 16 && mcs < 16 && power < 16 && format < 16
    requires harq.Some? ==> harq.value.process < 8 && harq.value.ind < 2 && harq.value.rv < 4
    ensures Header2Of(Pack(FillHeader(harq, length, mcs, power, self, network, to, format, raw)))
            == Header2(Common(length, 0, if harq.Some? then 0 else 1, network & 255, (self >> 8) & 255, self & 255),
                       Rate(mcs, power), Receiver((to >> 8) & 255, to & 255),
                       if harq.Some? then HarqFields(harq.value.process, harq.value.ind, harq.value.rv, 0)
                       else HarqFields(0, 0, 0, 0),
                       FeedbackFields(raw & 15, format, raw >> 8))
  {
    HeaderRoundTrip(FillHeader(harq, length, mcs, power, self, network, to, format, raw));
    FilledExact(harq, length, mcs, power, self, network, to, format, raw);
  }

  lemma FilledExact(harq: Option<HarqFields>, length: bv32, mcs: bv32, power: bv32, self: bv32, network: bv32, to: bv32,
                    format: bv16, raw: bv16)
    requires length < 16 && mcs < 16 && power < 16 && format < 16
    requires harq.Some? ==> harq.value.process < 8 && harq.value.ind < 2 && harq.value.rv < 4
    ensures FillHeader(harq, length, mcs, power, self, network, to, format, raw)
            == Header2(Common(length, 0, if harq.Some? then 0 else 1, network & 255, (self >> 8) & 255, self & 255),
                       Rate(mcs, power), Receiver((to >> 8) & 255, to & 255),
                       if harq.Some? then HarqFields(harq.value.process, harq.value.ind, harq.value.rv, 0)
                       else HarqFields(0, 0, 0, 0),
                       FeedbackFields(raw & 15, format, raw >> 8))
  {
    if harq.Some? {
      FieldWidths(harq.value);
    }
    RateWidths(length, mcs, power, format);
  }

  lemma RateWidths(length: bv32, mcs: bv32, power: bv32, format: bv16)
    requires length < 16 && mcs < 16 && power < 16 && format < 16
    ensures length & 15 == length && mcs & 15 == mcs && power & 15 == power && format & 15 == format
  {
  }

  lemma FieldWidths(q: HarqFields)
    requires q.process < 8 && q.ind < 2 && q.rv < 4
    ensures q.process & 7 == q.process && q.ind & 1 == q.ind && q.rv & 3 == q.rv
  {
  }
}
