/** The waiting list of src/dect_mac_phy_handler_queue.c as a sequence of nodes, head first. */
module PriorityList {
  import opened PhyTypes

  /** The words of the parameter union: the handle, which the queue touches, and the rest, which it copies. */
  datatype Params = Params(handle: bv32, body: nat)

  const NO_PARAMS := Params(0, 0)

  const PRIORITY_PERMANENT: nat := 0

  /** A queued operation. The ticket numbers the accepted puts; the program does not hold it. */
  datatype Item = Item(op: Function, params: Params, priority: nat, ticket: nat)

  /** A list node. The stamp is the time of its last insertion; the program does not hold it. */
  datatype Node = Node(item: Item, stamp: nat)

  predicate Permanent(n: Node) {
    n.item.priority == PRIORITY_PERMANENT
  }

  /** n is to be served before m: higher priority, or the same priority and waiting for longer. */
  predicate Before(n: Node, m: Node) {
    n.item.priority > m.item.priority || (n.item.priority == m.item.priority && n.stamp < m.stamp)
  }

  ghost predicate Ordered(list: seq<Node>) {
    forall i, j :: 0 <= i < j < |list| ==> Before(list[i], list[j])
  }

  /** Inserts in front of the first node of lower priority (the loop of the put thread). */
  function Insert(list: seq<Node>, node: Node): (r: seq<Node>)
    ensures |r| == |list| + 1
  {
    if list == [] then [node]
    else if list[0].item.priority < node.item.priority then [node] + list
    else [list[0]] + Insert(list[1..], node)
  }

  function Items(list: seq<Node>): (r: seq<Item>)
    ensures |r| == |list|
    ensures forall i :: 0 <= i < |list| ==> r[i] == list[i].item
  {
    seq(|list|, i requires 0 <= i < |list| => list[i].item)
  }

  lemma ItemsAppend(a: seq<Node>, b: seq<Node>)
    ensures Items(a + b) == Items(a) + Items(b)
  {
  }

  /** Insert adds the node and nothing else. */
  lemma {:induction false} InsertItems(list: seq<Node>, node: Node)
    ensures multiset(Insert(list, node)) == multiset(list) + multiset{node}
    ensures multiset(Items(Insert(list, node))) == multiset(Items(list)) + multiset{node.item}
  {
    var r := Insert(list, node);
    if list == [] {
      assert Items(r) == [node.item];
    } else if list[0].item.priority < node.item.priority {
      ItemsAppend([node], list);
      assert Items([node]) == [node.item];
    } else {
      var rest := Insert(list[1..], node);
      InsertItems(list[1..], node);
      assert list == [list[0]] + list[1..];
      ItemsAppend([list[0]], list[1..]);
      ItemsAppend([list[0]], rest);
    }
  }

  /** A node stamped later than every other one keeps the list ordered: it goes behind its equals. */
  lemma {:induction false} InsertOrdered(list: seq<Node>, node: Node)
    requires Ordered(list)
    requires forall m :: m in list ==> m.stamp < node.stamp
    ensures Ordered(Insert(list, node))
  {
    if list != [] && list[0].item.priority >= node.item.priority {
      var rest := list[1..];
      InsertOrdered(rest, node);
      InsertItems(rest, node);
      var r := Insert(rest, node);
      forall j | 0 <= j < |r| ensures Before(list[0], r[j]) {
        assert r[j] in multiset(r);
        assert r[j] in rest || r[j] == node;
      }
    }
  }

  /** Re-appending a permanent node at the tail is the insertion of that node. */
  lemma {:induction false} AppendIsInsert(list: seq<Node>, node: Node)
    requires Permanent(node)
    ensures Insert(list, node) == list + [node]
  {
    if list != [] {
      AppendIsInsert(list[1..], node);
      assert list == [list[0]] + list[1..];
    }
  }

  /** The position at which Insert puts the node. */
  lemma {:induction false} InsertAt(list: seq<Node>, node: Node, k: nat)
    requires k <= |list|
    requires forall i :: 0 <= i < k ==> list[i].item.priority >= node.item.priority
    requires k < |list| ==> list[k].item.priority < node.item.priority
    ensures Insert(list, node) == list[..k] + [node] + list[k..]
  {
    if k > 0 {
      InsertAt(list[1..], node, k - 1);
      assert list == [list[0]] + list[1..];
    }
  }

  function PermOf(node: Node): seq<nat> {
    if Permanent(node) then [node.item.ticket] else []
  }

  /** The permanent nodes of a list, in list order, by ticket. */
  function Perms(list: seq<Node>): (r: seq<nat>) {
    if list == [] then []
    else PermOf(list[0]) + Perms(list[1..])
  }

  lemma {:induction false} PermsAppend(a: seq<Node>, b: seq<Node>)
    ensures Perms(a + b) == Perms(a) + Perms(b)
  {
    if a == [] {
      assert a + b == b;
    } else {
      PermsAppend(a[1..], b);
      assert (a + b)[1..] == a[1..] + b && (a + b)[0] == a[0];
      var p, q, r := PermOf(a[0]), Perms(a[1..]), Perms(b);
      assert p + (q + r) == (p + q) + r;
    }
  }

  /** Among the permanent nodes a new one is the last. */
  lemma {:induction false} PermsInsert(list: seq<Node>, node: Node)
    ensures Perms(Insert(list, node)) == Perms(list) + PermOf(node)
  {
    if list == [] {
      assert Perms([node]) == PermOf(node);
    } else if list[0].item.priority < node.item.priority {
      assert ([node] + list)[1..] == list;
    } else {
      PermsInsert(list[1..], node);
      var rest := Insert(list[1..], node);
      assert ([list[0]] + rest)[1..] == rest;
      var p, q, r := PermOf(list[0]), Perms(list[1..]), PermOf(node);
      assert p + (q + r) == (p + q) + r;
    }
  }
}
