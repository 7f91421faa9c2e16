/** Packet capacities (src/dect_mac_utils.c). */
module Rates {

  const LENGTHS: nat := 16

  /** byte_per_mcs_and_length: the bytes a packet of length 0 to 15 holds at an MCS; -1 where there is none. */
  function Row(mcs: nat): (r: seq<int>)
    requires mcs <= 4
    ensures |r| == LENGTHS
  {
    match mcs
    case 0 => [0, 17, 33, 50, 67, 83, 99, 115, 133, 149, 165, 181, 197, 213, 233, 249]
    case 1 => [4, 37, 69, 103, 137, 169, 201, 233, 263, 295, 327, 359, 391, 423, 463, 495]
    case 2 => [7, 57, 107, 157, 205, 253, 295, 343, 399, 447, 495, 540, 596, 644, 692, -1]
    case 3 => [11, 77, 141, 209, 271, 335, 399, 463, 532, 596, 660, -1, -1, -1, -1, -1]
    case _ => [18, 117, 217, 311, 407, 503, 604, 700, -1, -1, -1, -1, -1, -1, -1, -1]
  }

  /** dect_mac_utils_get_bytes_from_packet_length; what it returns for an entry without capacity is the
      16-bit pattern of -1. */
  function BytesOf(length: nat, mcs: nat): nat {
    if mcs > 4 || length > 15 then 0 else Row(mcs)[length] % 65536
  }

  /** Some packet of the row holds the data. */
  ghost predicate RowFits(row: seq<int>, size: nat) {
    exists k :: 0 <= k < |row| && row[k] >= size
  }

  /** Some packet of this MCS holds the data. */
  ghost predicate Fits(mcs: nat, size: nat)
    requires mcs <= 4
  {
    RowFits(Row(mcs), size)
  }

  /** k is the least packet length of the row that holds the data. */
  ghost predicate LeastLength(row: seq<int>, size: nat, k: nat) {
    k < |row| && row[k] >= size && forall j :: 0 <= j < k ==> row[j] < size
  }

  /** The loop of dect_mac_utils_get_packet_length over one row. */
  method Scan(row: seq<int>, size: nat) returns (found: bool, length: nat)
    ensures found <==> RowFits(row, size)
    ensures found ==> LeastLength(row, size, length)
    ensures !found ==> length == |row|
  {
    found, length := false, 0;
    while length < |row|
      invariant length <= |row|
      invariant forall j :: 0 <= j < length ==> row[j] < size
    {
      if row[length] >= size {
        found := true;
        return;
      }
      length := length + 1;
    }
  }

  /** dect_mac_utils_get_packet_length; the size goes through a 16-bit signed cast, so it is at most 32767. */
  method GetPacketLength(size: nat, mcs: nat) returns (found: bool, length: nat)
    requires mcs <= 4 && size <= 32767
    ensures found <==> Fits(mcs, size)
    ensures found ==> LeastLength(Row(mcs), size, length)
    ensures !found ==> length == LENGTHS
  {
    found, length := Scan(Row(mcs), size);
  }

  /** A higher MCS does not always hold more: the longest packet of MCS 3 is shorter than that of MCS 2. */
  lemma CapacityIsNotMonotone()
    ensures Fits(2, 692) && !Fits(3, 692) && Fits(4, 692)
  {
    assert Row(2)[14] >= 692 && Row(4)[7] >= 692;
  }

  ghost predicate Rising(row: seq<int>) {
    forall k :: 0 < k < |row| ==> row[k] == -1 || (row[k - 1] < row[k] && row[k - 1] != -1)
  }

  lemma RowsRise(mcs: nat)
    requires mcs <= 4
    ensures Rising(Row(mcs))
  {
    match mcs {
      case 0 => assert Rising(Row(0));
      case 1 => assert Rising(Row(1));
      case 2 => assert Rising(Row(2));
      case 3 => assert Rising(Row(3));
      case _ => assert Rising(Row(4));
    }
  }

  /** In every row a longer packet holds more, and the entries without capacity are the longest ones. */
  lemma {:induction false} RowsIncrease(mcs: nat, j: nat, k: nat)
    requires mcs <= 4 && j < k < LENGTHS
    ensures Row(mcs)[j] < Row(mcs)[k] || Row(mcs)[k] == -1
    ensures Row(mcs)[j] == -1 ==> Row(mcs)[k] == -1
  {
    RowsRise(mcs);
    if j < k - 1 {
      RowsIncrease(mcs, j, k - 1);
    }
  }

  /** For the same packet length a higher MCS holds more. */
  lemma ColumnsIncrease(low: nat, high: nat, k: nat)
    requires low < high <= 4 && k < LENGTHS && Row(high)[k] >= 0
    ensures Row(low)[k] < Row(high)[k]
  {
  }

  /** What a packet is taken to hold is what holds any data that fits it; with one exception: an entry without capacity
      is read as 65535 bytes. Of an unknown MCS or length it is taken to hold nothing. */
  lemma BytesExact(length: nat, mcs: nat, size: nat)
    requires size <= 32767
    ensures mcs <= 4 && length < LENGTHS && Row(mcs)[length] >= 0 ==>
              (BytesOf(length, mcs) >= size <==> Row(mcs)[length] >= size)
    ensures mcs <= 4 && length < LENGTHS && Row(mcs)[length] < 0 ==> BytesOf(length, mcs) == 65535
    ensures mcs > 4 || length >= LENGTHS ==> BytesOf(length, mcs) == 0
  {
  }
}
