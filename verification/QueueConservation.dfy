/** Where every accepted operation is: none is lost, duplicated or altered on its way to the modem. */
module QueueConservation {
  import opened PhyTypes
  import opened PriorityList
  import opened QueueModel
  import opened QueueBuffers

  /** The item the put thread has in hand; an operation dropped by a stuck put thread stays there. */
  function PutHand(put: PutPc): seq<Item> {
    match put
    case PutHolding(item) => [item]
    case PutCopied(item) => [item]
    case PutLocked(item) => [item]
    case PutNode(item) => [item]
    case PutStuck(item) => [item]
    case PutFull(item) => [item]
    case _ => []
  }

  /** A permanent item that is out of the list and about to be put back. */
  function ExecHandItem(exec: ExecPc): seq<Item> {
    if exec.ExecHand? && Permanent(exec.node) then [exec.node.item] else []
  }

  /** The non-permanent operations dispatched so far. */
  function Spent(log: seq<Node>): seq<Item> {
    if log == [] then []
    else Spent(log[..|log| - 1]) + (if Permanent(log[|log| - 1]) then [] else [log[|log| - 1].item])
  }

  function Places(s: State): multiset<Item> {
    multiset(s.feed.callers) + multiset(s.feed.msgq) + multiset(PutHand(s.put)) + multiset(Items(s.wait.list))
    + multiset(ExecHandItem(s.exec)) + multiset(Spent(s.wait.log))
  }

  ghost predicate Conserved(s: State) {
    && Places(s) == multiset(s.feed.accepted)
    && (forall t :: 0 <= t < |s.feed.accepted| ==> s.feed.accepted[t].ticket == t)
    && (forall n :: n in s.wait.log ==> n.item in s.feed.accepted)
  }

  lemma Removed(items: seq<Item>, i: nat)
    requires i < |items|
    ensures multiset(items) == multiset(items[..i] + items[i + 1..]) + multiset{items[i]}
  {
    assert items == items[..i] + [items[i]] + items[i + 1..];
  }

  /** The bookkeeping of accepted puts and of the log that Conserved relies on. */
  lemma Kept(s: State, t: State)
    requires Conserved(s) && Places(t) == Places(s)
    requires t.feed.accepted == s.feed.accepted
    requires forall n :: n in t.wait.log ==> n in s.wait.log || n.item in s.feed.accepted
    ensures Conserved(t)
  {
  }

  lemma NewPlace(s: State, t: State, x: Item)
    requires t.feed.callers == s.feed.callers + [x] && t.feed.msgq == s.feed.msgq
    requires t.put == s.put && t.wait == s.wait && t.exec == s.exec
    ensures Places(t) == Places(s) + multiset{x}
  {
  }

  lemma Accepted(s: State, t: State, x: Item)
    requires Conserved(s) && Places(t) == Places(s) + multiset{x} && t.wait == s.wait
    requires t.feed.accepted == s.feed.accepted + [x] && x.ticket == |s.feed.accepted|
    ensures Conserved(t)
  {
    assert forall n :: n in t.wait.log ==> n.item in s.feed.accepted;
  }

  lemma AllocConserves(s: State, op: Function, params: Option<Params>, priority: nat)
    requires Conserved(s)
    ensures Conserved(s.(feed := AllocItem(s.feed, op, params, priority)))
  {
    var t := s.(feed := AllocItem(s.feed, op, params, priority));
    if s.feed.itemUsed < MAX_ITEMS {
      var item := t.feed.callers[|s.feed.callers|];
      NewPlace(s, t, item);
      Accepted(s, t, item);
    }
  }

  lemma CallerPutConserves(s: State, i: nat)
    requires Conserved(s) && Enabled(s, CallerPut(i))
    ensures Conserved(Next(s, CallerPut(i)))
  {
    var t := Next(s, CallerPut(i));
    Removed(s.feed.callers, i);
    assert multiset(t.feed.msgq) == multiset(s.feed.msgq) + multiset{s.feed.callers[i]};
    assert multiset(t.feed.callers) + multiset(t.feed.msgq) == multiset(s.feed.callers) + multiset(s.feed.msgq);
    Kept(s, t);
  }

  lemma PutGetConserves(s: State)
    requires Conserved(s) && Enabled(s, PutGet)
    ensures Conserved(Next(s, PutGet))
  {
    var t := Next(s, PutGet);
    assert s.feed.msgq == [s.feed.msgq[0]] + s.feed.msgq[1..];
    assert multiset(t.feed.msgq) + multiset(PutHand(t.put)) == multiset(s.feed.msgq) + multiset(PutHand(s.put));
    assert Places(t) == Places(s);
    Kept(s, t);
  }

  lemma Regroup(rest: multiset<Item>, a: multiset<Item>, b: multiset<Item>, c: multiset<Item>, d: multiset<Item>)
    requires a + b == c + d
    ensures rest + a + b == rest + c + d
  {
    assert rest + a + b == rest + (a + b);
    assert rest + c + d == rest + (c + d);
  }

  lemma PopRegroup(rest: multiset<Item>, list: multiset<Item>, spent: multiset<Item>, x: Item,
                   hand': multiset<Item>, spent': multiset<Item>)
    requires hand' + spent' == multiset{x} + spent
    ensures rest + (list + multiset{x}) + multiset{} + spent == rest + list + hand' + spent'
  {
    assert rest + list + hand' + spent' == rest + list + (hand' + spent');
  }

  lemma HandToList(s: State, t: State, x: Item)
    requires t.feed.callers == s.feed.callers && t.feed.msgq == s.feed.msgq && t.exec == s.exec && t.wait.log == s.wait.log
    requires PutHand(s.put) == [x] && PutHand(t.put) == []
    requires multiset(Items(t.wait.list)) == multiset(Items(s.wait.list)) + multiset{x}
    ensures Places(t) == Places(s)
  {
    var rest, list := multiset(s.feed.callers) + multiset(s.feed.msgq), multiset(Items(s.wait.list));
    Regroup(rest, multiset{x}, list, multiset{}, list + multiset{x});
  }

  lemma LinkPlaces(s: State)
    requires Enabled(s, PutLink)
    ensures Places(LinkNode(s)) == Places(s)
  {
    if |s.wait.list| < MAX_ITEMS {
      InsertItems(s.wait.list, Node(s.put.item, s.wait.clock));
      HandToList(s, LinkNode(s), s.put.item);
    } else {
      assert PutHand(LinkNode(s).put) == PutHand(s.put);
      assert LinkNode(s).wait.list == s.wait.list;
    }
  }

  lemma LinkConserves(s: State)
    requires Conserved(s) && Enabled(s, PutLink)
    ensures Conserved(Next(s, PutLink))
  {
    LinkPlaces(s);
    Kept(s, LinkNode(s));
  }

  lemma HeadItem(list: seq<Node>)
    requires list != []
    ensures multiset(Items(list)) == multiset(Items(list[1..])) + multiset{list[0].item}
  {
    assert list == [list[0]] + list[1..];
    ItemsAppend([list[0]], list[1..]);
    assert Items([list[0]]) == [list[0].item];
  }

  lemma SpentNode(log: seq<Node>, n: Node)
    ensures Spent(log + [n]) == Spent(log) + (if Permanent(n) then [] else [n.item])
  {
    assert (log + [n])[..|log|] == log;
  }

  lemma PopParts(s: State)
    requires Buffers(s) && Enabled(s, ExecPop)
    ensures var t := PopNode(s);
            && multiset(Items(s.wait.list)) == multiset(Items(t.wait.list)) + multiset{s.wait.list[0].item}
            && multiset(ExecHandItem(t.exec)) + multiset(Spent(t.wait.log))
               == multiset{s.wait.list[0].item} + multiset(Spent(s.wait.log))
  {
    HeadItem(s.wait.list);
    SpentNode(s.wait.log, s.wait.list[0]);
  }

  lemma PopPlaces(s: State)
    requires Buffers(s) && Enabled(s, ExecPop)
    ensures Places(PopNode(s)) == Places(s)
    ensures s.wait.list[0].item in Places(s)
  {
    var t := PopNode(s);
    PopParts(s);
    PopRegroup(multiset(s.feed.callers) + multiset(s.feed.msgq) + multiset(PutHand(s.put)), multiset(Items(t.wait.list)),
               multiset(Spent(s.wait.log)), s.wait.list[0].item, multiset(ExecHandItem(t.exec)), multiset(Spent(t.wait.log)));
  }

  lemma PopConserves(s: State)
    requires Conserved(s) && Buffers(s) && Enabled(s, ExecPop)
    ensures Conserved(Next(s, ExecPop))
  {
    PopPlaces(s);
    Kept(s, PopNode(s));
  }

  lemma RequeueConserves(s: State)
    requires Conserved(s) && Enabled(s, ExecRequeue)
    ensures Conserved(Next(s, ExecRequeue))
  {
    var t := RequeueNode(s);
    var node := Node(s.exec.node.item, s.wait.clock);
    if Permanent(s.exec.node) {
      ItemsAppend(s.wait.list, [node]);
      assert Items([node]) == [node.item];
      assert multiset(Items(t.wait.list)) == multiset(Items(s.wait.list)) + multiset{node.item};
      assert Places(t) == Places(s);
    }
    Kept(s, t);
  }

  predicate Moves(e: Event) {
    || e.CallerAlloc? || e.PlaceholderAlloc? || e.CallerPut? || e.PutGet? || e.PutLink? || e.ExecPop? || e.ExecRequeue?
  }

  lemma OthersKeepPlaces(s: State, e: Event)
    requires Enabled(s, e) && !Moves(e)
    ensures var t := Next(s, e);
            && t.feed.callers == s.feed.callers && t.feed.msgq == s.feed.msgq
            && t.wait.list == s.wait.list && t.wait.log == s.wait.log
            && t.feed.accepted == s.feed.accepted
            && PutHand(t.put) == PutHand(s.put) && ExecHandItem(t.exec) == ExecHandItem(s.exec)
  {
  }

  lemma OthersConserve(s: State, e: Event)
    requires Conserved(s) && Enabled(s, e) && !Moves(e)
    ensures Conserved(Next(s, e))
  {
    OthersKeepPlaces(s, e);
    Kept(s, Next(s, e));
  }

  lemma StepConserves(s: State, e: Event)
    requires Conserved(s) && Buffers(s) && Enabled(s, e)
    ensures Conserved(Next(s, e))
  {
    match e {
      case CallerAlloc(op, params, priority) => AllocConserves(s, op, params, priority);
      case PlaceholderAlloc =>
        AllocConserves(s, Placeholder, None, PRIORITY_CRITICAL);
        Kept(s.(feed := Next(s, e).feed), Next(s, e));
      case CallerPut(i) => CallerPutConserves(s, i);
      case PutGet => PutGetConserves(s);
      case PutLink => LinkConserves(s);
      case ExecPop => PopConserves(s);
      case ExecRequeue => RequeueConserves(s);
      case _ => OthersConserve(s, e);
    }
  }

  // ---- what conservation means for one operation ----

  lemma {:induction false} CountDistinct(items: seq<Item>, x: Item)
    requires forall i, j :: 0 <= i < j < |items| ==> items[i] != items[j]
    ensures multiset(items)[x] == if x in items then 1 else 0
  {
    if items != [] {
      var last := |items| - 1;
      CountDistinct(items[..last], x);
      assert items == items[..last] + [items[last]];
    }
  }

  lemma {:induction false} CountTwice(items: seq<Item>, i: nat, j: nat)
    requires i < j < |items| && items[i] == items[j]
    ensures multiset(items)[items[i]] >= 2
  {
    assert items == items[..j] + [items[j]] + items[j + 1..];
    assert items[..j][i] == items[i];
  }

  /** Every accepted operation is in exactly one place. */
  lemma OnePlace(s: State, t: nat)
    requires Conserved(s) && t < |s.feed.accepted|
    ensures Places(s)[s.feed.accepted[t]] == 1
  {
    CountDistinct(s.feed.accepted, s.feed.accepted[t]);
  }

  /** ... and whatever is found in a place was accepted, with that operation, parameters and priority. */
  lemma AsPut(s: State, x: Item)
    requires Conserved(s) && x in Places(s)
    ensures x.ticket < |s.feed.accepted| && s.feed.accepted[x.ticket] == x
  {
    assert x in s.feed.accepted;
  }

  lemma SpentStep(log: seq<Node>, k: nat, x: Item)
    requires 0 < k <= |log|
    ensures multiset(Spent(log[..k]))[x]
            == multiset(Spent(log[..k - 1]))[x] + (if !Permanent(log[k - 1]) && log[k - 1].item == x then 1 else 0)
  {
    assert log[..k][..k - 1] == log[..k - 1];
  }

  lemma {:induction false} SpentHas(log: seq<Node>, k: nat, i: nat, x: Item)
    requires i < k <= |log| && !Permanent(log[i]) && log[i].item == x
    ensures multiset(Spent(log[..k]))[x] >= 1
  {
    SpentStep(log, k, x);
    if i < k - 1 {
      SpentHas(log, k - 1, i, x);
    }
  }

  lemma {:induction false} SpentTwice(log: seq<Node>, k: nat, i: nat, j: nat, x: Item)
    requires i < j < k <= |log| && !Permanent(log[i]) && !Permanent(log[j]) && log[i].item == log[j].item == x
    ensures multiset(Spent(log[..k]))[x] >= 2
  {
    SpentStep(log, k, x);
    if j < k - 1 {
      SpentTwice(log, k - 1, i, j, x);
    } else {
      SpentHas(log, k - 1, i, x);
    }
  }

  lemma PlacesHold(s: State, x: Item)
    ensures Places(s)[x] >= multiset(Spent(s.wait.log))[x]
    ensures Places(s)[x] >= multiset(Items(s.wait.list))[x]
  {
  }

  /** A non-permanent operation is dispatched at most once. */
  lemma DispatchedOnce(s: State, i: nat, j: nat)
    requires Conserved(s) && i < j < |s.wait.log| && !Permanent(s.wait.log[i])
    ensures s.wait.log[i].item.ticket != s.wait.log[j].item.ticket
  {
    var x, y := s.wait.log[i], s.wait.log[j];
    assert x in s.wait.log && y in s.wait.log;
    OnePlace(s, x.item.ticket);
    PlacesHold(s, x.item);
    assert s.wait.log[..|s.wait.log|] == s.wait.log;
    if x.item.ticket == y.item.ticket {
      SpentTwice(s.wait.log, |s.wait.log|, i, j, x.item);
    }
  }

  /** The listed operations, with the one being put back, are all different. */
  lemma ListedDistinct(s: State, i: nat, j: nat)
    requires Conserved(s) && i < j < |s.wait.list|
    ensures s.wait.list[i].item.ticket != s.wait.list[j].item.ticket
  {
    var items := Items(s.wait.list);
    var x, y := items[i], items[j];
    assert x in multiset(items) && y in multiset(items);
    AsPut(s, x);
    AsPut(s, y);
    OnePlace(s, x.ticket);
    PlacesHold(s, x);
    if x.ticket == y.ticket {
      CountTwice(items, i, j);
    }
  }

  lemma {:induction false} PermsFrom(list: seq<Node>, k: nat)
    requires k < |Perms(list)|
    ensures exists i :: 0 <= i < |list| && list[i].item.ticket == Perms(list)[k]
  {
    var here := PermOf(list[0]);
    if k < |here| {
      assert list[0].item.ticket == Perms(list)[k];
    } else {
      PermsFrom(list[1..], k - |here|);
      var i :| 0 <= i < |list[1..]| && list[1..][i].item.ticket == Perms(list[1..])[k - |here|];
      assert list[i + 1].item.ticket == Perms(list)[k];
    }
  }

  lemma {:induction false} PermsDistinct(list: seq<Node>)
    requires forall i, j :: 0 <= i < j < |list| ==> list[i].item.ticket != list[j].item.ticket
    ensures forall i, j :: 0 <= i < j < |Perms(list)| ==> Perms(list)[i] != Perms(list)[j]
  {
    if list != [] {
      PermsDistinct(list[1..]);
      var here, rest := PermOf(list[0]), Perms(list[1..]);
      forall k | 0 <= k < |rest| ensures rest[k] != list[0].item.ticket {
        PermsFrom(list[1..], k);
        var i :| 0 <= i < |list[1..]| && list[1..][i].item.ticket == rest[k];
        assert list[i + 1] == list[1..][i];
      }
      assert Perms(list) == here + rest;
    }
  }
}
