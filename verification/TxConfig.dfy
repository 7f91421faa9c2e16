/** Rate selection and header filling of dect_mac_phy_handler_tx_config (src/dect_mac_phy_handler.c). */
module TxConfig {
  import opened PhyTypes
  import opened Rates
  import opened NodeModel
  import opened NodeTableObject
  import opened Wire

  /** The entry tx_config works with: the node's, or the one its first lookup creates. */
  function EntryOf(r: Radio, t: Table, a: nat): Entry {
    if a in t then t[a] else Fresh(r)
  }

  function Min(a: nat, b: nat): nat {
    if a < b then a else b
  }

  /** The rows the escalation can try after the first one failed. */
  predicate Tried(first: nat, max: nat, mcs: nat) {
    Min(first + 1, max) <= mcs <= max
  }

  /** Some row that is tried holds the data. */
  ghost predicate AnyFits(first: nat, max: nat, size: nat)
    requires first <= 4 && max <= 4
  {
    Fits(first, size) || exists mcs: nat :: Tried(first, max, mcs) && Fits(mcs, size)
  }

  /** One MCS and one step of power more. */
  function Raised(r: Radio, e: Entry): Entry
    requires e.mcs >= 0
  {
    Entry(true, Min(r.txPower, e.power + 1), Min(e.mcs + 1, r.mcsMax))
  }

  lemma RaiseSteps(r: Radio, e: Entry)
    requires ValidRadio(r) && 0 <= e.mcs <= 4 && e.power <= 13
    ensures AddedPower(r, e.power, 1) == Raised(r, e).power
    ensures ReducedMcs(r, e.mcs, -1) == (Raised(r, e).mcs, if e.mcs + 1 > r.mcsMax then MaxMcsReached else Ok)
  {
  }

  predicate Usable(e: Entry) {
    0 <= e.mcs <= 4 && e.power <= 13
  }

  /** One round of the escalation loop; more says whether the loop goes on. */
  method Round(nodes: NodeTable, a: nat, size: nat) returns (found: bool, power: nat, mcs: nat, length: nat, more: bool)
    requires nodes.Valid() && size <= 32767 && a in nodes.table && Usable(nodes.table[a])
    modifies nodes
    ensures nodes.Valid() && a in nodes.table
    ensures nodes.table == old(nodes.table)[a := Raised(nodes.radio, old(nodes.table[a]))]
    ensures power == nodes.table[a].power && mcs == nodes.table[a].mcs && mcs <= 4
    ensures found <==> Fits(mcs, size)
    ensures found ==> LeastLength(Row(mcs), size, length)
    ensures !found ==> length == LENGTHS
    ensures more <==> !found && old(nodes.table[a]).mcs + 1 <= nodes.radio.mcsMax
  {
    RaiseSteps(nodes.radio, nodes.table[a]);
    var code := nodes.ReduceMcs(a, -1);
    var _ := nodes.AddPower(a, 1);
    var m := nodes.GetMcs(a, false);
    mcs := m;
    power := nodes.GetTxPower(a, false);
    found, length := GetPacketLength(size, mcs);
    more := code == Ok && !found;
  }

  /** After some rounds from entry e: where the node is, and that every row tried before failed. */
  ghost predicate Climbed(r: Radio, e: Entry, now: Entry, size: nat, rounds: nat)
    requires Usable(e)
  {
    && now == Entry(true, Min(r.txPower, e.power + rounds), Min(e.mcs + rounds, r.mcsMax))
    && forall m: nat :: m <= 4 && Tried(e.mcs, r.mcsMax, m) && m < Min(e.mcs + rounds, r.mcsMax) ==> !Fits(m, size)
  }

  /** How often the escalation loop can run. */
  function RoundLimit(e: Entry, max: nat): int {
    if e.mcs <= max then max - e.mcs + 1 else 1
  }

  /** What rate selection leaves, from entry e after the given number of rounds: power and MCS went up together,
      and no row between the node's own MCS and the chosen one holds the data. */
  ghost predicate Selected(r: Radio, e: Entry, size: nat, rounds: nat, power: nat, mcs: nat)
    requires Usable(e)
  {
    && (rounds == 0 <==> Fits(e.mcs, size))
    && (rounds == 0 ==> power == e.power && mcs == e.mcs)
    && (rounds > 0 ==> power == Min(r.txPower, e.power + rounds) && mcs == Min(e.mcs + rounds, r.mcsMax))
    && rounds <= RoundLimit(e, r.mcsMax)
    && forall m: nat :: e.mcs <= m < mcs <= 4 ==> !Fits(m, size)
  }

  lemma ClimbOn(r: Radio, e: Entry, now: Entry, size: nat, rounds: nat)
    requires ValidRadio(r) && Usable(e) && rounds >= 1 && Climbed(r, e, now, size, rounds)
    requires 0 <= now.mcs <= 4 && !Fits(now.mcs, size) && e.mcs + rounds <= r.mcsMax
    ensures Climbed(r, e, Raised(r, now), size, rounds + 1)
  {
  }

  /** The escalation loop: one MCS up and one step of power up, until the data fits or the MCS cannot rise. */
  method Escalate(nodes: NodeTable, a: nat, size: nat)
    returns (found: bool, power: nat, mcs: nat, length: nat, ghost rounds: nat)
    requires nodes.Valid() && size <= 32767 && a in nodes.table && Usable(nodes.table[a])
    modifies nodes
    ensures nodes.Valid() && mcs <= 4 && nodes.table == old(nodes.table)[a := Entry(true, power, mcs)]
    ensures found <==> Fits(mcs, size)
    ensures found ==> LeastLength(Row(mcs), size, length)
    ensures !found ==> length == LENGTHS
    ensures 1 <= rounds <= RoundLimit(old(nodes.table[a]), nodes.radio.mcsMax)
    ensures Climbed(nodes.radio, old(nodes.table[a]), nodes.table[a], size, rounds)
    ensures !found ==> old(nodes.table[a]).mcs + rounds > nodes.radio.mcsMax
  {
    ghost var before, e, max := nodes.table, nodes.table[a], nodes.radio.mcsMax;
    var more: bool;
    found, power, mcs, length, more := Round(nodes, a, size);
    rounds := 1;
    while more
      invariant nodes.Valid() && a in nodes.table && nodes.table == before[a := Entry(true, power, mcs)]
      invariant Climbed(nodes.radio, e, nodes.table[a], size, rounds)
      invariant mcs <= 4 && (found <==> Fits(mcs, size))
      invariant if found then LeastLength(Row(mcs), size, length) else length == LENGTHS
      invariant more <==> !found && e.mcs + rounds <= max
      invariant 1 <= rounds <= RoundLimit(e, max)
      decreases max + 1 - e.mcs - rounds
    {
      ClimbOn(nodes.radio, e, nodes.table[a], size, rounds);
      found, power, mcs, length, more := Round(nodes, a, size);
      rounds := rounds + 1;
    }
  }

  /** The two lookups leave the entry marked, also when the first one had to create it. */
  lemma LookedTwice(r: Radio, t: Table, a: nat, room: bool)
    requires a in t || room
    ensures var e := EntryOf(r, t, a);
            Looked(r, Looked(r, t, a, room), a, room) == t[a := Entry(true, e.power, e.mcs)]
  {
  }

  /** Rate selection for a receiver. The choice is the least MCS from the node's own on that holds the data,
      with its least packet length; it fails exactly if no row tried does. */
  method SelectRate(nodes: NodeTable, a: nat, size: nat, room: bool)
    returns (found: bool, power: nat, mcs: nat, length: nat, ghost rounds: nat)
    requires nodes.Valid() && size <= 32767
    requires a in nodes.table || room
    requires Usable(EntryOf(nodes.radio, nodes.table, a))
    modifies nodes
    ensures nodes.Valid() && mcs <= 4
    ensures nodes.table == old(nodes.table)[a := Entry(true, power, mcs)]
    ensures if found then LeastLength(Row(mcs), size, length) else !Fits(mcs, size) && length == LENGTHS
    ensures found <==> AnyFits(EntryOf(nodes.radio, old(nodes.table), a).mcs, nodes.radio.mcsMax, size)
    ensures Selected(nodes.radio, EntryOf(nodes.radio, old(nodes.table), a), size, rounds, power, mcs)
  {
    LookedTwice(nodes.radio, nodes.table, a, room);
    ghost var before, e := nodes.table, EntryOf(nodes.radio, nodes.table, a);
    power := nodes.GetTxPower(a, room);
    var m := nodes.GetMcs(a, room);
    mcs, rounds := m, 0;
    found, length := GetPacketLength(size, mcs);
    if !found {
      found, power, mcs, length, rounds := Escalate(nodes, a, size);
      Overwritten(before, a, e, power, mcs);
      NothingElseFits(nodes.radio, e, nodes.table[a], size, rounds, found);
    } else {
      AtOnce(nodes.radio, e, size);
    }
  }

  lemma Overwritten(t: Table, a: nat, e: Entry, power: nat, mcs: nat)
    ensures t[a := Entry(true, e.power, e.mcs)][a := Entry(true, power, mcs)] == t[a := Entry(true, power, mcs)]
  {
  }

  lemma AtOnce(r: Radio, e: Entry, size: nat)
    requires ValidRadio(r) && Usable(e) && Fits(e.mcs, size)
    ensures AnyFits(e.mcs, r.mcsMax, size) && Selected(r, e, size, 0, e.power, e.mcs)
  {
  }

  /** When the loop stops without success every row has been tried. */
  lemma NothingElseFits(r: Radio, e: Entry, now: Entry, size: nat, rounds: nat, found: bool)
    requires ValidRadio(r) && Usable(e) && !Fits(e.mcs, size) && 1 <= rounds <= RoundLimit(e, r.mcsMax)
    requires Climbed(r, e, now, size, rounds) && 0 <= now.mcs <= 4
    requires (found <==> Fits(now.mcs, size)) && (found || e.mcs + rounds > r.mcsMax)
    ensures found <==> AnyFits(e.mcs, r.mcsMax, size)
    ensures Selected(r, e, size, rounds, now.power, now.mcs)
  {
    assert Tried(e.mcs, r.mcsMax, now.mcs);
    forall m: nat | Tried(e.mcs, r.mcsMax, m) && !found ensures !Fits(m, size) {
    }
    forall m: nat | e.mcs <= m < now.mcs ensures !Fits(m, size) {
      assert m == e.mcs || Tried(e.mcs, r.mcsMax, m);
    }
  }

  // ---- the header ----

  /** tx_usage, with the HARQ fields where they are sent. */
  datatype Usage = NoHarq | WithHarq(fields: HarqFields) | Beacon

  datatype TxHeader = TypeOne(one: Header1) | TypeTwo(two: Header2)

  function CommonPart(h: TxHeader): Common {
    if h.TypeOne? then h.one.common else h.two.common
  }

  function RatePart(h: TxHeader): Rate {
    if h.TypeOne? then h.one.rate else h.two.rate
  }

  /** The header announces the chosen rate: an MCS, whose packets hold what row says, the least packet that
      holds the data or, if there is none, the shortest, and a power. */
  ghost predicate Announces(h: TxHeader, row: seq<int>, size: nat, mcs: nat, power: nat, found: bool)
    requires |row| == LENGTHS
  {
    var c, r := CommonPart(h), RatePart(h);
    && ValidCommon(c) && r.mcs < 16 && r.power < 16 && Value(r.mcs) == mcs && Value(r.power) == power
    && (row[Value(c.length)] >= size <==> found)
    && (if found then LeastLength(row, size, Value(c.length)) else Value(c.length) == 0)
  }

  /** The header for the given usage, with the rate fields of h: type 1 for a beacon, else type 2. */
  function HeaderOf(usage: Usage, h: TxHeader, self: bv32, network: bv32, to: bv32, format: bv16, raw: bv16): TxHeader {
    var c, r := CommonPart(h), RatePart(h);
    match usage
    case NoHarq => TypeTwo(FillHeader(None, c.length, r.mcs, r.power, self, network, to, format, raw))
    case WithHarq(q) => TypeTwo(FillHeader(Some(q), c.length, r.mcs, r.power, self, network, to, format, raw))
    case Beacon => TypeOne(FillHeader1(c.length, r.mcs, r.power, self, network))
  }

  /** dect_mac_phy_handler_tx_config; a is the receiver as table key. Whether or not a rate was found, the header
      is sent; its packet holds the data if and only if one was. */
  method Configure(nodes: NodeTable, usage: Usage, size: nat, a: nat, to: bv32, self: bv32,
                   network: bv32, format: bv16, raw: bv16, room: bool) returns (h: TxHeader, ghost found: bool)
    requires nodes.Valid() && size <= 32767 && a == to as nat
    requires a in nodes.table || room
    requires Usable(EntryOf(nodes.radio, nodes.table, a))
    modifies nodes
    ensures nodes.Valid() && a in nodes.table && nodes.table[a].mcs >= 0
    ensures found <==> AnyFits(EntryOf(nodes.radio, old(nodes.table), a).mcs, nodes.radio.mcsMax, size)
    ensures var mcs := if size == 0 then 0 else nodes.table[a].mcs;
            mcs <= 4 && Announces(h, Row(mcs), size, mcs, nodes.table[a].power, found)
    ensures h == HeaderOf(usage, h, self, network, to, format, raw)
  {
    var power, mcs, length: nat;
    ghost var rounds: nat;
    found, power, mcs, length, rounds := SelectRate(nodes, a, size, room);
    if size == 0 {
      EmptyFits(mcs);
      length, mcs := 0, 0;
    }
    if usage == Beacon {
      h := FillBeacon(size, length, mcs, power, self, network, found, Row(mcs));
    } else {
      var harq := if usage.WithHarq? then Some(usage.fields) else None;
      h := Fill(harq, size, length, mcs, power, self, network, to, format, raw, found, Row(mcs));
    }
  }

  /** The part of it that fills in the type 1 header of a beacon; numbers lose what does not fit into their fields. */
  method FillBeacon(size: nat, length: nat, mcs: nat, power: nat, self: bv32, network: bv32, ghost found: bool,
                    ghost row: seq<int>) returns (h: TxHeader)
    requires length <= 16 && mcs <= 4 && power <= 13 && |row| == LENGTHS
    requires if found then LeastLength(row, size, length) else !RowFits(row, size) && length == LENGTHS
    ensures Announces(h, row, size, mcs, power, found)
    ensures h.TypeOne? && h.one == FillHeader1(h.one.common.length, h.one.rate.mcs, h.one.rate.power, self, network)
  {
    h := TypeOne(FillHeader1(Nibble(length), Nibble(mcs), Nibble(power), self, network));
    BeaconFields(length, mcs, power, self, network);
    AnnouncedHolds(row, size, length, found);
  }

  lemma BeaconFields(length: nat, mcs: nat, power: nat, self: bv32, network: bv32)
    requires length <= 16 && mcs <= 4 && power <= 16
    ensures var h := FillHeader1(Nibble(length), Nibble(mcs), Nibble(power), self, network);
            && Value(h.common.length) == length % 16 && Value(h.rate.mcs) == mcs && Value(h.rate.power) == power % 16
            && h == FillHeader1(h.common.length, h.rate.mcs, h.rate.power, self, network)
  {
    NibbleValue(length);
    NibbleValue(mcs);
    NibbleValue(power);
    assert mcs <= 4 ==> Nibble(mcs) & 7 == Nibble(mcs);
  }

  /** The part of it that fills in a type 2 header. */
  method Fill(harq: Option<HarqFields>, size: nat, length: nat, mcs: nat, power: nat, self: bv32, network: bv32,
              to: bv32, format: bv16, raw: bv16, ghost found: bool, ghost row: seq<int>) returns (h: TxHeader)
    requires length <= 16 && mcs <= 4 && power <= 13 && |row| == LENGTHS
    requires if found then LeastLength(row, size, length) else !RowFits(row, size) && length == LENGTHS
    ensures Announces(h, row, size, mcs, power, found)
    ensures h.TypeTwo?
    ensures h.two == FillHeader(harq, h.two.common.length, h.two.rate.mcs, h.two.rate.power, self, network, to, format, raw)
  {
    var two := FillFields(harq, length, mcs, power, self, network, to, format, raw);
    AnnouncedHolds(row, size, length, found);
    h := TypeTwo(two);
  }

  method FillFields(harq: Option<HarqFields>, length: nat, mcs: nat, power: nat, self: bv32, network: bv32, to: bv32,
                    format: bv16, raw: bv16) returns (h: Header2)
    requires length <= 16 && mcs <= 16 && power <= 16
    ensures ValidCommon(h.common) && h.rate.mcs < 16 && h.rate.power < 16
    ensures Value(h.common.length) == length % 16 && Value(h.rate.mcs) == mcs % 16 && Value(h.rate.power) == power % 16
    ensures h == FillHeader(harq, h.common.length, h.rate.mcs, h.rate.power, self, network, to, format, raw)
  {
    NibbleValue(length);
    NibbleValue(mcs);
    NibbleValue(power);
    h := FillHeader(harq, Nibble(length), Nibble(mcs), Nibble(power), self, network, to, format, raw);
  }

  lemma EmptyFits(mcs: nat)
    requires mcs <= 4
    ensures Fits(mcs, 0) && LeastLength(Row(0), 0, 0)
  {
    assert Row(mcs)[0] >= 0;
  }

  /** Length 16 does not fit into its field and is announced as 0, the shortest packet. */
  lemma AnnouncedHolds(row: seq<int>, size: nat, length: nat, found: bool)
    requires |row| == LENGTHS && length <= 16
    requires if found then LeastLength(row, size, length) else !RowFits(row, size) && length == LENGTHS
    ensures row[length % 16] >= size <==> found
    ensures length % 16 == if found then length else 0
  {
    if !found {
      assert !(row[0] >= size);
    }
  }
}
