/** The node table as the program's object: a hash map with a stable iteration order. */
module NodeTableObject {
  import opened NodeModel

  /** An iterator over the entries present when it was made (sys_hashmap_iterator): next moves to the entry at
      the position and counts it; copying it is a plain copy. */
  datatype Iterator = Iterator(keys: seq<nat>, pos: nat) {
    predicate HasNext() {
      pos < |keys|
    }

    function Next(): Iterator {
      Iterator(keys, pos + 1)
    }

    function Key(): nat
      requires 0 < pos <= |keys|
    {
      keys[pos - 1]
    }
  }

  ghost predicate Lists(order: seq<nat>, t: Table) {
    && (forall i, j :: 0 <= i < j < |order| ==> order[i] != order[j])
    && (forall a :: a in order <==> a in t)
  }

  /** The table after the clean pass has visited the given keys. */
  function SweptAt(t: Table, visited: seq<nat>): Table {
    map a | a in t && (a in visited ==> t[a].used) :: if a in visited then t[a].(used := false) else t[a]
  }

  lemma SweptAtAll(t: Table, order: seq<nat>)
    requires Lists(order, t)
    ensures SweptAt(t, order) == Swept(t)
  {
  }

  /** Taking a key out of order and table. */
  lemma Unlisted(order: seq<nat>, t: Table, i: nat)
    requires Lists(order, t) && i < |order|
    ensures Lists(order[..i] + order[i + 1..], t - {order[i]})
  {
    var rest := order[..i] + order[i + 1..];
    assert forall k :: 0 <= k < |rest| ==> rest[k] == if k < i then order[k] else order[k + 1];
    forall a ensures a in rest <==> a in t - {order[i]} {
      if a in order && a != order[i] {
        var k :| 0 <= k < |order| && order[k] == a;
        assert a == rest[if k < i then k else k - 1];
      }
    }
  }

  lemma EmptyTable(order: seq<nat>, t: Table)
    requires Lists(order, t)
    ensures order == [] <==> t == map[]
  {
    if order != [] {
      assert order[0] in t;
    }
  }

  class NodeTable {
    const radio: Radio
    var table: Table
    var order: seq<nat>

    ghost predicate Valid()
      reads this
    {
      ValidRadio(radio) && Lists(order, table)
    }

    constructor (radio: Radio)
      requires ValidRadio(radio)
      ensures Valid() && table == map[] && this.radio == radio
    {
      this.radio := radio;
      table, order := map[], [];
    }

    /** dect_mac_node_create_node; room says whether the hash map accepts the entry. */
    method CreateNode(a: nat, power: nat, mcs: int, room: bool) returns (code: Code)
      requires Valid()
      modifies this
      ensures Valid()
      ensures table == if room then old(table)[a := Entry(false, power, mcs)] else old(table)
      ensures code == if room then Ok else NoRoom
    {
      if !room {
        return NoRoom;
      }
      if a !in table {
        order := order + [a];
      }
      table := table[a := Entry(false, power, mcs)];
      code := Ok;
    }

    method GetTxPower(a: nat, room: bool) returns (power: nat)
      requires Valid()
      modifies this
      ensures Valid() && table == Looked(radio, old(table), a, room)
      ensures power == if a in old(table) then old(table)[a].power else radio.txPower
    {
      if a in table {
        table := Mark(table, a);
        power := table[a].power;
      } else {
        var _ := CreateNode(a, radio.txPower, radio.mcsMax, room);
        power := radio.txPower;
      }
    }

    method GetMcs(a: nat, room: bool) returns (mcs: int)
      requires Valid()
      modifies this
      ensures Valid() && table == Looked(radio, old(table), a, room)
      ensures mcs == if a in old(table) then old(table)[a].mcs else radio.mcsMax
    {
      if a in table {
        table := Mark(table, a);
        mcs := table[a].mcs;
      } else {
        var _ := CreateNode(a, radio.txPower, radio.mcsMax, room);
        mcs := radio.mcsMax;
      }
    }

    method GetCqi(a: nat, room: bool) returns (cqi: nat)
      requires Valid()
      modifies this
      ensures Valid() && table == Looked(radio, old(table), a, room)
      ensures cqi == Cqi(if a in old(table) then old(table)[a].mcs else radio.mcsMax)
    {
      if a in table {
        table := Mark(table, a);
        cqi := (table[a].mcs + 1) % 256;
      } else {
        var _ := CreateNode(a, radio.txPower, radio.mcsMax, room);
        cqi := radio.mcsMax + 1;
      }
    }

    method AddPower(a: nat, d: int) returns (code: Code)
      requires Valid()
      modifies this
      ensures Valid() && table == WithPower(radio, old(table), a, d)
      ensures code == if a in old(table) then Ok else NodeNotFound
    {
      if a !in table {
        return NodeNotFound;
      }
      var power := (table[a].power + d) % 256;
      if power > radio.txPower {
        power := radio.txPower;
      }
      table := table[a := Entry(true, power, table[a].mcs)];
      code := Ok;
    }

    method ReduceMcs(a: nat, d: int) returns (code: Code)
      requires Valid()
      modifies this
      ensures Valid() && table == WithMcs(radio, old(table), a, d)
      ensures code == if a in old(table) then ReducedMcs(radio, old(table)[a].mcs, d).1 else NodeNotFound
    {
      if a !in table {
        return NodeNotFound;
      }
      var mcs := Int8(table[a].mcs - d);
      code := Ok;
      if mcs < 0 {
        mcs, code := 0, MinMcsReached;
      } else if mcs > radio.mcsMax {
        mcs, code := radio.mcsMax, MaxMcsReached;
      }
      table := table[a := Entry(true, table[a].power, mcs)];
    }

    method SetTxPower(a: nat, power: nat) returns (code: Code)
      requires Valid()
      modifies this
      ensures Valid()
      ensures table == if a in old(table) then old(table)[a := Entry(true, power, old(table)[a].mcs)] else old(table)
    {
      if a !in table {
        return NodeNotFound;
      }
      table := table[a := Entry(true, power, table[a].mcs)];
      code := Ok;
    }

    method SetMcs(a: nat, mcs: int) returns (code: Code)
      requires Valid()
      modifies this
      ensures Valid()
      ensures table == if a in old(table) then old(table)[a := Entry(true, old(table)[a].power, mcs)] else old(table)
    {
      if a !in table {
        return NodeNotFound;
      }
      table := table[a := Entry(true, table[a].power, mcs)];
      code := Ok;
    }

    /** dect_mac_node_optimize: what a received header, its RSSI and its SNR make of the node. */
    method Optimize(a: nat, received: nat, rssi: int, snr: int, room: bool) returns (code: Code)
      requires Valid()
      modifies this
      ensures Valid() && table == Optimized(radio, old(table), a, received, rssi, snr, room)
      ensures code == if snr < 4 then ChannelTooNoisy else if received > 15 then PowerNotInRange
                      else if a in old(table) || room then Ok else NoRoom
    {
      code := Ok;
      if a !in table {
        code := CreateNode(a, radio.txPower, radio.mcsMax, room);
      }
      if received > 15 {
        code := PowerNotInRange;
      }
      var _ := SetTxPower(a, PowerFor(WantedDbm(radio, received, rssi)));
      var mcs := McsFor(snr);
      if mcs < 0 {
        code := ChannelTooNoisy;
      }
      var _ := SetMcs(a, mcs);
    }

    /** dect_mac_node_delete_node; an unknown address is reported and nothing changes. */
    method DeleteNode(a: nat) returns (code: Code)
      requires Valid()
      modifies this
      ensures Valid() && table == old(table) - {a}
      ensures code == if a in old(table) then Ok else NodeNotFound
    {
      if a !in table {
        return NodeNotFound;
      }
      var i := 0;
      while order[i] != a
        invariant i < |order|
        invariant a !in order[..i]
        decreases |order| - i
      {
        i := i + 1;
      }
      Unlisted(order, table, i);
      table := table - {a};
      order := order[..i] + order[i + 1..];
      code := Ok;
    }

    /** One entry of the clean pass. The entry is still there: its pointer is not dangling. */
    method Visit(a: nat)
      requires Valid() && a in table
      modifies this
      ensures Valid() && table == SweptAt(old(table), [a])
    {
      if !table[a].used {
        var _ := DeleteNode(a);
      } else {
        table := table[a := table[a].(used := false)];
      }
    }

    /** The loop of the clean pass: all entries but the last. The iterator is moved on before the entry it was
        at is deleted. */
    method VisitAllButLast() returns (it: Iterator, ghost visited: seq<nat>)
      requires Valid()
      modifies this
      ensures Valid() && it == Iterator(old(order), |old(order)|) && visited == AllButLast(it.keys)
      ensures table == SweptAt(old(table), AllButLast(it.keys))
    {
      ghost var before := table;
      it, visited := Iterator(order, 0), [];
      if it.HasNext() {
        it := it.Next();
      }
      while it.HasNext()
        invariant Valid() && it.keys == old(order) && it.pos <= |it.keys|
        invariant if it.keys == [] then visited == [] else 0 < it.pos && visited == it.keys[..it.pos - 1]
        invariant table == SweptAt(before, visited)
        decreases |it.keys| - it.pos
      {
        var deleteIt := it;
        it := it.Next();
        VisitNext(before, it.keys, deleteIt.pos - 1);
        Visit(deleteIt.Key());
        visited := visited + [deleteIt.Key()];
      }
    }

    /** dect_mac_node_clean_unused_nodes: every entry is visited once, the last one behind the loop. */
    method CleanUnusedNodes() returns (ghost visited: seq<nat>)
      requires Valid()
      modifies this
      ensures Valid() && table == Swept(old(table))
      ensures visited == old(order)
    {
      ghost var before := table;
      var it: Iterator;
      it, visited := VisitAllButLast();
      LastVisit(before, it.keys);
      if table != map[] {
        Visit(it.Key());
        visited := visited + [it.Key()];
      }
    }
  }

  function AllButLast(keys: seq<nat>): seq<nat> {
    if keys == [] then [] else keys[..|keys| - 1]
  }

  /** Behind the loop there is an entry left exactly if there was one at all, and it is the last one. */
  lemma LastVisit(t: Table, keys: seq<nat>)
    requires Lists(keys, t)
    ensures SweptAt(t, AllButLast(keys)) == map[] <==> keys == []
    ensures keys == [] ==> Swept(t) == map[]
    ensures keys != [] ==> var a := keys[|keys| - 1];
            && a in SweptAt(t, AllButLast(keys)) && SweptAt(SweptAt(t, AllButLast(keys)), [a]) == Swept(t)
            && AllButLast(keys) + [a] == keys
  {
    EmptyTable(keys, t);
    if keys != [] {
      VisitNext(t, keys, |keys| - 1);
      assert keys[..|keys|] == keys;
      SweptAtAll(t, keys);
    }
  }

  /** The next key is still there, and visiting it is one more step of the pass. */
  lemma VisitNext(t: Table, keys: seq<nat>, k: nat)
    requires Lists(keys, t) && k < |keys|
    ensures keys[k] in SweptAt(t, keys[..k])
    ensures keys[..k] + [keys[k]] == keys[..k + 1]
    ensures SweptAt(SweptAt(t, keys[..k]), [keys[k]]) == SweptAt(t, keys[..k + 1])
  {
    assert keys[k] in keys && keys[k] !in keys[..k];
    assert forall a :: a in keys[..k + 1] <==> a in keys[..k] || a == keys[k];
  }
}
