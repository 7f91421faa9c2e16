/** The table of known nodes of src/dect_mac_node.c and the choice of power and MCS. */
module NodeModel {

  /** The used flag, the power code (8 bits unsigned) and the MCS (8 bits signed) of one node. */
  datatype Entry = Entry(used: bool, power: nat, mcs: int)

  type Table = map<nat, Entry>

  /** Kconfig values and the MCS limit the modem reports. */
  datatype Radio = Radio(txPower: nat, margin: int, target: int, mcsMax: nat)

  predicate ValidRadio(r: Radio) {
    r.txPower <= 13 && -128 <= r.margin <= 127 && -128 <= r.target <= 0 && r.mcsMax <= 4
  }

  datatype Code = Ok | NodeNotFound | MinMcsReached | MaxMcsReached | PowerNotInRange | ChannelTooNoisy | NoRoom

  function Int8(x: int): int {
    (x + 128) % 256 - 128
  }

  function Fresh(r: Radio): Entry {
    Entry(false, r.txPower, r.mcsMax)
  }

  function Mark(t: Table, a: nat): Table
    requires a in t
  {
    t[a := t[a].(used := true)]
  }

  /** A lookup for reading marks a known node and creates an unknown one, unmarked, if there is room. */
  function Looked(r: Radio, t: Table, a: nat, room: bool): Table {
    if a in t then Mark(t, a) else if room then t[a := Fresh(r)] else t
  }

  /** The channel quality indicator of a node: its MCS plus one, in 8 bits. */
  function Cqi(mcs: int): nat {
    (mcs + 1) % 256
  }

  /** 8-bit unsigned addition, then the limit; it never sees a negative power. */
  function AddedPower(r: Radio, power: nat, d: int): nat {
    var p := (power + d) % 256;
    if p > r.txPower then r.txPower else p
  }

  function WithPower(r: Radio, t: Table, a: nat, d: int): Table {
    if a in t then t[a := Entry(true, AddedPower(r, t[a].power, d), t[a].mcs)] else t
  }

  /** The MCS after subtracting d, and what reduce_mcs reports. */
  function ReducedMcs(r: Radio, mcs: int, d: int): (int, Code) {
    var m := Int8(mcs - d);
    if m < 0 then (0, MinMcsReached) else if m > r.mcsMax then (r.mcsMax, MaxMcsReached) else (m, Ok)
  }

  function WithMcs(r: Radio, t: Table, a: nat, d: int): Table {
    if a in t then t[a := Entry(true, t[a].power, ReducedMcs(r, t[a].mcs, d).0)] else t
  }

  /** The comment beside the code promises a clamp at both ends. It is one exactly if the sum is not negative:
      below zero the 8-bit value wraps and the node gets full power instead of none. */
  lemma AddPowerClamps(r: Radio, power: nat, d: int)
    requires ValidRadio(r) && power <= 13 && -128 <= d <= 127
    ensures AddedPower(r, power, d) == (if power + d < 0 then 0 else if power + d > r.txPower then r.txPower else power + d)
            <==> power + d >= 0 || r.txPower == 0
  {
  }

  lemma NegativePowerWraps()
    ensures AddedPower(Radio(13, 3, -80, 4), 3, -4) == 13
  {
  }

  /** A lookup marks a known node and changes nothing else; an unknown one it creates, unmarked, with full power and
      the highest MCS, if there is room. */
  lemma LookupExact(r: Radio, t: Table, a: nat, room: bool)
    ensures var u := Looked(r, t, a, room);
            && (a in t ==> a in u && u[a] == Entry(true, t[a].power, t[a].mcs))
            && (a !in t && room ==> a in u && u[a] == Entry(false, r.txPower, r.mcsMax))
            && (a !in t && !room ==> a !in u)
            && (forall b :: b != a ==> (b in u <==> b in t) && (b in t ==> u[b] == t[b]))
  {
  }

  /** The MCS is clamped at both ends, with the matching code, exactly if the 8-bit difference does not wrap (or
      the limit is 0); it can only wrap upwards, and then the node gets the lowest MCS instead of the highest. */
  lemma ReduceMcsClamps(r: Radio, mcs: int, d: int)
    requires ValidRadio(r) && -1 <= mcs <= 4 && -128 <= d <= 127
    ensures ReducedMcs(r, mcs, d).0 == (if mcs - d < 0 then 0 else if mcs - d > r.mcsMax then r.mcsMax else mcs - d)
            <==> mcs - d <= 127 || r.mcsMax == 0
    ensures mcs - d <= 127 ==>
              ReducedMcs(r, mcs, d).1 == if mcs - d < 0 then MinMcsReached else if mcs - d > r.mcsMax then MaxMcsReached else Ok
  {
  }

  /** A retransmission adds its number, up to 255, to the power. That raises the power up to the limit if and
      only if the 8-bit sum does not wrap, which a limit of 242 transmissions or less ensures; after a wrap the
      node sends with less power than before. */
  lemma RetransmissionRaisesPower(r: Radio, power: nat, count: nat)
    requires ValidRadio(r) && power <= r.txPower && 1 <= count <= 255
    ensures AddedPower(r, power, count) == (if power + count > r.txPower then r.txPower else power + count)
            <==> power + count < 256
    ensures power + count >= 256 ==> AddedPower(r, power, count) < power
    ensures count <= 242 ==> power + count < 256
  {
  }

  // ---- optimisation ----

  /** Table 6.2.1-3 of ETSI TS 103 636-4: the power of a code in dBm. */
  function Dbm(code: nat): int {
    match code
    case 0 => -40
    case 1 => -30
    case 2 => -20
    case 3 => -16
    case 4 => -12
    case 5 => -8
    case 6 => -4
    case 7 => 0
    case 8 => 4
    case 9 => 7
    case 10 => 10
    case 11 => 13
    case 12 => 16
    case 13 => 19
    case 14 => 21
    case 15 => 23
    case _ => 20
  }

  function WantedDbm(r: Radio, received: nat, rssi: int): int {
    Dbm(received) - (rssi - r.target - r.margin)
  }

  /** The ladder of dect_mac_node_optimize. */
  function PowerFor(wanted: int): nat {
    if wanted <= -40 then 2
    else if wanted <= -30 then 2
    else if wanted <= -20 then 2
    else if wanted <= -16 then 3
    else if wanted <= -12 then 4
    else if wanted <= -8 then 5
    else if wanted <= -4 then 6
    else if wanted <= 0 then 7
    else if wanted <= 4 then 8
    else if wanted <= 7 then 9
    else if wanted <= 10 then 10
    else if wanted <= 13 then 11
    else if wanted <= 16 then 12
    else 13
  }

  function McsFor(snr: int): int {
    if snr >= 14 then 4 else if snr >= 10 then 3 else if snr >= 8 then 2 else if snr >= 6 then 1
    else if snr >= 4 then 0 else -1
  }

  /** The table is in ascending order, and no step is larger than 10 dB. */
  lemma DbmIncreases(a: nat, b: nat)
    requires a < b <= 15
    ensures Dbm(a) < Dbm(b) && (b == a + 1 ==> Dbm(b) <= Dbm(a) + 10)
    ensures Dbm(0) == -40 && Dbm(15) == 23
  {
  }

  /** The SNR an MCS needs, in dB. */
  function Threshold(mcs: nat): int
    requires mcs <= 4
  {
    [4, 6, 8, 10, 14][mcs]
  }

  /** The chosen MCS is the highest one whose SNR threshold is reached, or -1 if none is. */
  lemma McsForHighest(snr: int, mcs: nat)
    requires mcs <= 4
    ensures -1 <= McsFor(snr) <= 4
    ensures snr >= Threshold(mcs) <==> mcs <= McsFor(snr)
  {
  }

  /** The chosen code is the least of 2 to 13 that reaches the wanted power, or 13 if none does. */
  lemma PowerForLeast(wanted: int, c: nat)
    requires 2 <= c <= 13
    ensures 2 <= PowerFor(wanted) <= 13
    ensures Dbm(c) >= wanted ==> PowerFor(wanted) <= c && Dbm(PowerFor(wanted)) >= wanted
    ensures Dbm(PowerFor(wanted)) < wanted ==> PowerFor(wanted) == 13
  {
  }

  /** What the other node will receive, if its path loss is the one this device just saw. */
  function PredictedRssi(r: Radio, received: nat, rssi: int): int {
    Dbm(PowerFor(WantedDbm(r, received, rssi))) - (Dbm(received) - rssi)
  }

  /** The reply reaches the target with its margin, exactly if a power of at most 19 dBm can do that; and with
      the next lower code it would not. */
  lemma ReplyReachesTarget(r: Radio, received: nat, rssi: int)
    ensures var c := PowerFor(WantedDbm(r, received, rssi));
            && (PredictedRssi(r, received, rssi) >= r.target + r.margin <==> WantedDbm(r, received, rssi) <= 19)
            && (c > 2 ==> Dbm(c - 1) - (Dbm(received) - rssi) < r.target + r.margin)
  {
    PowerForLeast(WantedDbm(r, received, rssi), 13);
  }

  /** With a constant path loss the choice depends on the loss alone, not on the power the other node happens
      to use: optimising again, whatever it sent with, chooses the same code. */
  lemma PowerIsFixedPoint(r: Radio, loss: int, received: nat, again: nat)
    ensures WantedDbm(r, received, Dbm(received) - loss) == loss + r.target + r.margin
    ensures PowerFor(WantedDbm(r, received, Dbm(received) - loss)) == PowerFor(WantedDbm(r, again, Dbm(again) - loss))
  {
  }

  function Optimized(r: Radio, t: Table, a: nat, received: nat, rssi: int, snr: int, room: bool): Table {
    if a in t || room then t[a := Entry(true, PowerFor(WantedDbm(r, received, rssi)), McsFor(snr))] else t
  }

  // ---- expiry ----

  /** One clean pass: the marked entries stay, unmarked. */
  function Swept(t: Table): Table {
    map a | a in t && t[a].used :: t[a].(used := false)
  }

  /** A pass keeps the power and the MCS of the nodes it leaves. */
  lemma PassExact(t: Table, a: nat)
    ensures a in Swept(t) <==> a in t && t[a].used
    ensures a in Swept(t) ==> Swept(t)[a] == Entry(false, t[a].power, t[a].mcs)
  {
  }

  /** What happens to a table, as far as a given address is concerned. */
  datatype Event =
    | Look(r: Radio, a: nat, room: bool)                // get_tx_power, get_mcs, get_cqi
    | Set(a: nat, entry: Entry)                         // set_tx_power, set_mcs, add_power, reduce_mcs, full_power
    | Optimize(a: nat, entry: Entry, room: bool)
    | Pass

  function Next(t: Table, e: Event): Table {
    match e
    case Look(r, a, room) => Looked(r, t, a, room)
    case Set(a, entry) => if a in t then t[a := entry.(used := true)] else t
    case Optimize(a, entry, room) => if a in t || room then t[a := entry.(used := true)] else t
    case Pass => Swept(t)
  }

  /** What the operations on the table do is one of these events each. */
  lemma OperationsAreEvents(r: Radio, t: Table, a: nat, d: int, received: nat, rssi: int, snr: int, room: bool)
    ensures var e := if a in t then t[a] else Fresh(r);
            && WithPower(r, t, a, d) == Next(t, Set(a, Entry(true, AddedPower(r, e.power, d), e.mcs)))
            && WithMcs(r, t, a, d) == Next(t, Set(a, Entry(true, e.power, ReducedMcs(r, e.mcs, d).0)))
            && Optimized(r, t, a, received, rssi, snr, room)
               == Next(t, Optimize(a, Entry(true, PowerFor(WantedDbm(r, received, rssi)), McsFor(snr)), room))
  {
  }

  /** The event marks the node: it finds it, or it is an optimisation that creates it. */
  predicate Marks(t: Table, e: Event, a: nat) {
    match e
    case Look(_, b, _) => a == b && a in t
    case Set(b, _) => a == b && a in t
    case Optimize(b, _, room) => a == b && (a in t || room)
    case Pass => false
  }

  ghost predicate IsRun(tables: seq<Table>, events: seq<Event>) {
    && |tables| == |events| + 1
    && forall k :: 0 <= k < |events| ==> tables[k + 1] == Next(tables[k], events[k])
  }

  /** Between the passes at i and k, or since i, an event marked the node. */
  ghost predicate MarkedBetween(tables: seq<Table>, events: seq<Event>, i: nat, k: nat, a: nat)
    requires IsRun(tables, events) && k <= |events|
  {
    exists j :: i <= j < k && Marks(tables[j], events[j], a)
  }

  lemma {:induction false} FlagMeansMarked(tables: seq<Table>, events: seq<Event>, i: nat, k: nat, a: nat)
    requires IsRun(tables, events) && i <= k <= |events|
    requires forall j :: i <= j < k ==> events[j] != Pass
    requires a in tables[i] ==> !tables[i][a].used
    ensures (a in tables[k] && tables[k][a].used) <==> MarkedBetween(tables, events, i, k, a)
    ensures a in tables[i] ==> a in tables[k]
  {
    if i < k {
      FlagMeansMarked(tables, events, i, k - 1, a);
      var t, e := tables[k - 1], events[k - 1];
      assert tables[k] == Next(t, e);
      if Marks(t, e, a) {
        assert MarkedBetween(tables, events, i, k, a);
      } else if MarkedBetween(tables, events, i, k - 1, a) {
        var j :| i <= j < k - 1 && Marks(tables[j], events[j], a);
        assert MarkedBetween(tables, events, i, k, a);
      }
    }
  }

  /** Expiry, exactly: of two consecutive passes, at i and at k, the second leaves a node in the table if and
      only if an event in between marked it. The first pass leaves nothing marked. */
  lemma SurvivesPass(tables: seq<Table>, events: seq<Event>, i: nat, k: nat, a: nat)
    requires IsRun(tables, events) && i < k < |events|
    requires events[i] == Pass && events[k] == Pass && forall j :: i < j < k ==> events[j] != Pass
    ensures a in tables[k + 1] <==> MarkedBetween(tables, events, i + 1, k, a)
  {
    assert tables[i + 1] == Swept(tables[i]);
    FlagMeansMarked(tables, events, i + 1, k, a);
    assert tables[k + 1] == Swept(tables[k]);
  }

  /** The pass at k keeps the node if it is marked since the pass before it. */
  ghost predicate AlwaysMarked(tables: seq<Table>, events: seq<Event>, i: nat, a: nat)
    requires IsRun(tables, events)
  {
    forall k :: i <= k < |events| && events[k] == Pass ==>
      exists j :: i <= j < k && Marks(tables[j], events[j], a) && forall l :: j < l < k ==> events[l] != Pass
  }

  /** A node that is known and marked before the first and between every two passes is never deleted. */
  lemma {:induction false} MarkedNodesStay(tables: seq<Table>, events: seq<Event>, i: nat, n: nat, a: nat)
    requires IsRun(tables, events) && i <= n <= |events| && a in tables[i] && AlwaysMarked(tables, events, i, a)
    ensures a in tables[n]
  {
    if i < n {
      MarkedNodesStay(tables, events, i, n - 1, a);
      assert tables[n] == Next(tables[n - 1], events[n - 1]);
      if events[n - 1] == Pass {
        var j :| i <= j < n - 1 && Marks(tables[j], events[j], a) && forall l :: j < l < n - 1 ==> events[l] != Pass;
        StaysMarked(tables, events, j, n - 1, a);
      }
    }
  }

  /** A mark lasts until the next pass. */
  lemma {:induction false} StaysMarked(tables: seq<Table>, events: seq<Event>, j: nat, k: nat, a: nat)
    requires IsRun(tables, events) && j < k <= |events| && Marks(tables[j], events[j], a)
    requires forall l :: j < l < k ==> events[l] != Pass
    ensures a in tables[k] && tables[k][a].used
  {
    assert tables[k] == Next(tables[k - 1], events[k - 1]);
    if j < k - 1 {
      StaysMarked(tables, events, j, k - 1, a);
    }
  }

  /** So a node that no event marks between two passes is gone after the second one. */
  lemma UnmarkedNodesGo(tables: seq<Table>, events: seq<Event>, i: nat, k: nat, a: nat)
    requires IsRun(tables, events) && i < k < |events|
    requires events[i] == Pass && events[k] == Pass && forall j :: i < j < k ==> events[j] != Pass
    requires forall j :: i < j < k ==> !Marks(tables[j], events[j], a)
    ensures a !in tables[k + 1]
  {
    SurvivesPass(tables, events, i, k, a);
  }

  /** The header promises that an unused node is kept for at least one cycle. A node that a lookup just created
      is not: creation does not mark it, so a pass right after it deletes it. */
  lemma FreshNodeDiesAtOnce(r: Radio, a: nat)
    ensures var t := Next(map[], Look(r, a, true)); a in t && a !in Next(t, Pass)
  {
  }
}
