/** First come, first served: from the moment a caller hands its operation to the message queue. */
module QueueFifo {
  import opened PhyTypes
  import opened PriorityList
  import opened QueueModel
  import opened QueueBuffers
  import opened QueueOrder
  import opened QueueConservation
  import opened QueueTheorems

  // ---- the message queue ----

  /** The items sent to the message queue so far, in order. */
  function Sent(states: seq<State>, events: seq<Event>, k: nat): seq<Item>
    requires IsRun(states, events) && k <= |events|
  {
    if k == 0 then []
    else match events[k - 1]
      case CallerPut(i) => Sent(states, events, k - 1) + [states[k - 1].feed.callers[i]]
      case _ => Sent(states, events, k - 1)
  }

  /** The items the put thread has got from it so far, in order. */
  function Got(states: seq<State>, events: seq<Event>, k: nat): seq<Item>
    requires IsRun(states, events) && k <= |events|
  {
    if k == 0 then []
    else if events[k - 1] == PutGet then Got(states, events, k - 1) + PutHand(states[k].put)
    else Got(states, events, k - 1)
  }

  lemma QueueStep(s: State, e: Event)
    requires Enabled(s, e)
    ensures var q := Next(s, e).feed.msgq;
            match e
            case CallerPut(i) => q == s.feed.msgq + [s.feed.callers[i]]
            case PutGet => PutHand(Next(s, e).put) + q == s.feed.msgq
            case _ => q == s.feed.msgq
  {
  }

  /** In every run the put thread gets the items in the order in which they were sent. */
  lemma {:induction false} MessagesInOrder(states: seq<State>, events: seq<Event>, k: nat)
    requires IsRun(states, events) && k <= |events|
    ensures Sent(states, events, k) == Got(states, events, k) + states[k].feed.msgq
  {
    if k > 0 {
      MessagesInOrder(states, events, k - 1);
      QueueStep(states[k - 1], events[k - 1]);
    }
  }

  // ---- from there to the modem ----

  ghost predicate Listed(list: seq<Node>, x: Item) {
    exists p :: 0 <= p < |list| && list[p].item == x
  }

  ghost predicate ListedBefore(list: seq<Node>, x: Item, q: nat) {
    exists p :: 0 <= p < q <= |list| && list[p].item == x
  }

  ghost predicate QueuedBefore(msgq: seq<Item>, x: Item, q: nat) {
    exists p :: 0 <= p < q <= |msgq| && msgq[p] == x
  }

  /** Wherever y is, x is ahead of it. */
  ghost predicate Ahead(s: State, x: Item, y: Item) {
    var w := s.wait;
    && y !in s.feed.callers && y.ticket < |s.feed.accepted| && s.feed.accepted[y.ticket] == y
    && (forall q: nat :: q < |w.log| && w.log[q].item == y ==> ListedBefore(w.log, x, q))
    && (forall q: nat :: q < |w.list| && w.list[q].item == y ==> Listed(w.log, x) || ListedBefore(w.list, x, q))
    && (y in PutHand(s.put) ==> Listed(w.log, x) || Listed(w.list, x))
    && (forall q: nat :: q < |s.feed.msgq| && s.feed.msgq[q] == y ==>
          Listed(w.log, x) || Listed(w.list, x) || x in PutHand(s.put) || QueuedBefore(s.feed.msgq, x, q))
  }

  /** The node goes behind every listed node of its priority, and the others keep their order. */
  lemma {:induction false} InsertPosition(list: seq<Node>, node: Node) returns (k: nat)
    requires Ordered(list)
    ensures k <= |list| && Insert(list, node) == list[..k] + [node] + list[k..]
    ensures forall p :: 0 <= p < |list| && list[p].item.priority == node.item.priority ==> p < k
  {
    k := 0;
    while k < |list| && list[k].item.priority >= node.item.priority
      invariant k <= |list| && forall i :: 0 <= i < k ==> list[i].item.priority >= node.item.priority
    {
      k := k + 1;
    }
    InsertAt(list, node, k);
    forall p | k <= p < |list| ensures list[p].item.priority < node.item.priority {
      if p > k {
        assert Before(list[k], list[p]);
      }
    }
  }

  lemma InsertKeepsAhead(list: seq<Node>, node: Node, x: Item, y: Item)
    requires Ordered(list) && x.priority == y.priority
    requires forall q: nat :: q < |list| && list[q].item == y ==> ListedBefore(list, x, q)
    requires node.item == y ==> Listed(list, x)
    ensures var r := Insert(list, node);
            && (forall q: nat :: q < |r| && r[q].item == y ==> ListedBefore(r, x, q))
            && (Listed(list, x) || node.item == x ==> Listed(r, x))
  {
    var k := InsertPosition(list, node);
    var r := Insert(list, node);
    forall q: nat | q < |r| && r[q].item == y ensures ListedBefore(r, x, q) {
      var p: nat;
      if q == k {
        p :| p < |list| && list[p].item == x;
      } else {
        var q0 := if q < k then q else q - 1;
        assert list[q0].item == y;
        p :| p < q0 && list[p].item == x;
      }
      assert r[if p < k then p else p + 1].item == x;
    }
    if Listed(list, x) {
      var p :| 0 <= p < |list| && list[p].item == x;
      assert r[if p < k then p else p + 1].item == x;
    } else if node.item == x {
      assert r[k].item == x;
    }
  }

  lemma LinkKeepsAhead(s: State, x: Item, y: Item)
    requires Buffers(s) && InOrder(s.wait) && Enabled(s, PutLink) && Ahead(s, x, y) && x.priority == y.priority
    ensures Ahead(LinkNode(s), x, y)
  {
    var node := Node(s.put.item, s.wait.clock);
    if Listed(s.wait.log, x) {
      assert Listed(LinkNode(s).wait.log, x);
    } else {
      InsertKeepsAhead(s.wait.list, node, x, y);
      assert LinkNode(s).wait.list == Insert(s.wait.list, node);
    }
  }

  lemma PopKeepsAhead(s: State, x: Item, y: Item)
    requires Buffers(s) && Enabled(s, ExecPop) && Ahead(s, x, y)
    ensures Ahead(PopNode(s), x, y)
  {
    var w, t := s.wait, PopNode(s).wait;
    assert t.log[|w.log|] == w.list[0];
    forall q: nat | q < |t.log| && t.log[q].item == y ensures ListedBefore(t.log, x, q) {
      var p :| 0 <= p < q && p < |w.log| && w.log[p].item == x;
      assert t.log[p].item == x;
    }
    if Listed(w.log, x) {
      var p :| 0 <= p < |w.log| && w.log[p].item == x;
      assert t.log[p].item == x;
    } else if Listed(w.list, x) && w.list[0].item != x {
      var p :| 0 <= p < |w.list| && w.list[p].item == x;
      assert t.list[p - 1].item == x;
    }
    forall q: nat | q < |t.list| && t.list[q].item == y && !Listed(t.log, x) ensures ListedBefore(t.list, x, q) {
      assert w.list[q + 1].item == y;
      var p :| 0 <= p < q + 1 && w.list[p].item == x;
      assert t.list[p - 1].item == x;
    }
  }

  lemma RequeueKeepsAhead(s: State, x: Item, y: Item)
    requires Enabled(s, ExecRequeue) && Ahead(s, x, y) && y.priority != PRIORITY_PERMANENT
    ensures Ahead(RequeueNode(s), x, y)
  {
    var w, t := s.wait, RequeueNode(s).wait;
    forall q: nat | q < |t.list| && t.list[q].item == y && !Listed(w.log, x) ensures ListedBefore(t.list, x, q) {
      var p :| 0 <= p < q && p < |w.list| && w.list[p].item == x;
      assert t.list[p].item == x;
    }
    if Listed(w.list, x) {
      var p :| 0 <= p < |w.list| && w.list[p].item == x;
      assert t.list[p].item == x;
    }
  }

  lemma GetKeepsAhead(s: State, x: Item, y: Item)
    requires Enabled(s, PutGet) && Ahead(s, x, y)
    ensures Ahead(Next(s, PutGet), x, y)
  {
    var q0, t := s.feed.msgq, Next(s, PutGet);
    forall q: nat | q < |t.feed.msgq| && t.feed.msgq[q] == y
      ensures Listed(t.wait.log, x) || Listed(t.wait.list, x) || x in PutHand(t.put) || QueuedBefore(t.feed.msgq, x, q)
    {
      assert q0[q + 1] == y;
      if QueuedBefore(q0, x, q + 1) {
        var p :| 0 <= p < q + 1 && q0[p] == x;
        if p > 0 {
          assert t.feed.msgq[p - 1] == x;
        }
      }
    }
  }

  lemma SendKeepsAhead(s: State, i: nat, x: Item, y: Item)
    requires Enabled(s, CallerPut(i)) && Ahead(s, x, y)
    ensures Ahead(Next(s, CallerPut(i)), x, y)
  {
    var q0, t := s.feed.msgq, Next(s, CallerPut(i));
    forall q: nat | q < |t.feed.msgq| && t.feed.msgq[q] == y && QueuedBefore(q0, x, q) ensures QueuedBefore(t.feed.msgq, x, q) {
      var p :| 0 <= p < q && p < |q0| && q0[p] == x;
      assert t.feed.msgq[p] == x;
    }
  }

  /** The steps that move no operation but may accept one. */
  lemma OthersKeepAhead(s: State, e: Event, x: Item, y: Item)
    requires Enabled(s, e) && Ahead(s, x, y)
    requires !e.CallerPut? && !e.PutGet? && !e.PutLink? && !e.ExecPop? && !e.ExecRequeue?
    ensures Ahead(Next(s, e), x, y)
  {
    if !e.CallerAlloc? && !e.PlaceholderAlloc? {
      OthersKeepPlaces(s, e);
    }
  }

  lemma StepKeepsAhead(s: State, e: Event, x: Item, y: Item)
    requires Buffers(s) && InOrder(s.wait) && Enabled(s, e) && Ahead(s, x, y)
    requires x.priority == y.priority != PRIORITY_PERMANENT
    ensures Ahead(Next(s, e), x, y)
  {
    match e {
      case CallerPut(i) => SendKeepsAhead(s, i, x, y);
      case PutGet => GetKeepsAhead(s, x, y);
      case PutLink => LinkKeepsAhead(s, x, y);
      case ExecPop => PopKeepsAhead(s, x, y);
      case ExecRequeue => RequeueKeepsAhead(s, x, y);
      case _ => OthersKeepAhead(s, e, x, y);
    }
  }

  // ---- where a sent operation is ----

  /** x was accepted and has left its caller. */
  ghost predicate Left(s: State, x: Item) {
    x.ticket < |s.feed.accepted| && s.feed.accepted[x.ticket] == x && x !in s.feed.callers
  }

  lemma StepKeepsLeft(s: State, e: Event, x: Item)
    requires Enabled(s, e) && Left(s, x)
    ensures Left(Next(s, e), x)
  {
    if e.PutGet? || e.PutLink? || e.ExecPop? || e.ExecRequeue? {
    } else if !Moves(e) {
      OthersKeepPlaces(s, e);
    }
  }

  lemma {:induction false} SpentListed(log: seq<Node>, k: nat, x: Item)
    requires k <= |log| && x in Spent(log[..k])
    ensures Listed(log, x)
  {
    if k > 0 {
      SpentStep(log, k, x);
      if !Permanent(log[k - 1]) && log[k - 1].item == x {
        assert log[k - 1].item == x;
      } else {
        assert x in multiset(Spent(log[..k]));
        SpentListed(log, k - 1, x);
      }
    }
  }

  /** A sent operation that is not permanent is in the message queue, with the put thread, listed, or was dispatched. */
  lemma LeftPlaces(s: State, x: Item)
    requires Conserved(s) && Left(s, x) && x.priority != PRIORITY_PERMANENT
    ensures x in s.feed.msgq || x in PutHand(s.put) || Listed(s.wait.list, x) || Listed(s.wait.log, x)
  {
    OnePlace(s, x.ticket);
    SomePlace(s, x);
    if x in Items(s.wait.list) {
      var p :| 0 <= p < |s.wait.list| && Items(s.wait.list)[p] == x;
      assert s.wait.list[p].item == x;
    }
    if x in Spent(s.wait.log) {
      assert s.wait.log[..|s.wait.log|] == s.wait.log;
      SpentListed(s.wait.log, |s.wait.log|, x);
    }
  }

  lemma SomePlace(s: State, x: Item)
    requires Places(s)[x] > 0 && x !in s.feed.callers && x.priority != PRIORITY_PERMANENT
    ensures x in s.feed.msgq || x in PutHand(s.put) || x in Items(s.wait.list) || x in Spent(s.wait.log)
  {
    assert x !in ExecHandItem(s.exec);
    assert x in multiset(s.feed.callers) || x in multiset(s.feed.msgq) || x in multiset(PutHand(s.put))
           || x in multiset(Items(s.wait.list)) || x in multiset(ExecHandItem(s.exec)) || x in multiset(Spent(s.wait.log));
  }

  /** An operation that was just sent is at the end of the message queue and nowhere else. */
  lemma JustSent(s: State, y: Item)
    requires Conserved(s) && y in s.feed.accepted && y.priority != PRIORITY_PERMANENT
    requires s.feed.msgq != [] && s.feed.msgq[|s.feed.msgq| - 1] == y
    ensures y !in s.feed.callers && y !in PutHand(s.put) && !Listed(s.wait.list, y) && !Listed(s.wait.log, y)
    ensures forall q :: 0 <= q < |s.feed.msgq| - 1 ==> s.feed.msgq[q] != y
  {
    assert y in multiset(s.feed.msgq);
    AsPut(s, y);
    OnePlace(s, y.ticket);
    ListedCounts(s.wait, y);
    SingleLast(s.feed.msgq);
  }

  lemma ListedCounts(w: Wait, y: Item)
    ensures Listed(w.list, y) ==> multiset(Items(w.list))[y] >= 1
    ensures Listed(w.log, y) && y.priority != PRIORITY_PERMANENT ==> multiset(Spent(w.log))[y] >= 1
  {
    if Listed(w.list, y) {
      var p :| 0 <= p < |w.list| && w.list[p].item == y;
      assert Items(w.list)[p] == y;
      assert y in multiset(Items(w.list));
    }
    if Listed(w.log, y) && y.priority != PRIORITY_PERMANENT {
      var p :| 0 <= p < |w.log| && w.log[p].item == y;
      assert w.log[..|w.log|] == w.log;
      SpentHas(w.log, |w.log|, p, y);
    }
  }

  lemma SingleLast(items: seq<Item>)
    requires items != [] && multiset(items)[items[|items| - 1]] <= 1
    ensures forall q :: 0 <= q < |items| - 1 ==> items[q] != items[|items| - 1]
  {
    assert items == items[..|items| - 1] + [items[|items| - 1]];
  }

  lemma CallerAccepted(s: State, j: nat)
    requires Conserved(s) && j < |s.feed.callers|
    ensures var y := s.feed.callers[j];
            y in s.feed.accepted && y.ticket < |s.feed.accepted| && s.feed.accepted[y.ticket] == y
  {
    assert s.feed.callers[j] in multiset(s.feed.callers);
    AsPut(s, s.feed.callers[j]);
  }

  lemma SentBehind(s: State, t: State, j: nat, x: Item)
    requires j < |s.feed.callers| && Conserved(s) && Conserved(t) && Left(s, x)
    requires t.feed.msgq == s.feed.msgq + [s.feed.callers[j]] && t.feed.accepted == s.feed.accepted
    requires t.put == s.put && t.wait == s.wait
    requires x.priority != PRIORITY_PERMANENT && s.feed.callers[j].priority != PRIORITY_PERMANENT
    ensures Ahead(t, x, s.feed.callers[j])
  {
    CallerAccepted(s, j);
    LeftPlaces(s, x);
    JustSent(t, s.feed.callers[j]);
    Behind(t, x, s.feed.callers[j]);
  }

  lemma SendOnly(s: State, j: nat)
    requires Enabled(s, CallerPut(j))
    ensures var t := Next(s, CallerPut(j));
            t.put == s.put && t.wait == s.wait && t.feed.accepted == s.feed.accepted
  {
  }

  lemma Behind(t: State, x: Item, y: Item)
    requires y.ticket < |t.feed.accepted| && t.feed.accepted[y.ticket] == y && x != y
    requires t.feed.msgq != [] && t.feed.msgq[|t.feed.msgq| - 1] == y
    requires y !in t.feed.callers && y !in PutHand(t.put) && !Listed(t.wait.list, y) && !Listed(t.wait.log, y)
    requires forall q :: 0 <= q < |t.feed.msgq| - 1 ==> t.feed.msgq[q] != y
    requires x in t.feed.msgq || x in PutHand(t.put) || Listed(t.wait.list, x) || Listed(t.wait.log, x)
    ensures Ahead(t, x, y)
  {
    if x in t.feed.msgq {
      var p :| 0 <= p < |t.feed.msgq| && t.feed.msgq[p] == x;
      assert QueuedBefore(t.feed.msgq, x, |t.feed.msgq| - 1);
    }
    forall q: nat | q < |t.wait.log| ensures t.wait.log[q].item != y {
    }
    forall q: nat | q < |t.wait.list| ensures t.wait.list[q].item != y {
    }
  }

  // ---- runs ----

  lemma SentLeft(s: State, t: State, i: nat)
    requires i < |s.feed.callers| && Conserved(s) && Conserved(t)
    requires t.feed.msgq == s.feed.msgq + [s.feed.callers[i]] && t.feed.accepted == s.feed.accepted
    requires s.feed.callers[i].priority != PRIORITY_PERMANENT
    ensures Left(t, s.feed.callers[i])
  {
    CallerAccepted(s, i);
    JustSent(t, s.feed.callers[i]);
  }

  lemma RunConserved(states: seq<State>, events: seq<Event>, k: nat)
    requires IsRun(states, events) && k < |states|
    ensures Conserved(states[k]) && Buffers(states[k]) && InOrder(states[k].wait)
  {
    RunInvariant(states, events, k);
  }

  lemma {:induction false} LeftSince(states: seq<State>, events: seq<Event>, a: nat, i: nat, k: nat)
    requires IsRun(states, events) && a < k < |states| && events[a] == CallerPut(i)
    requires i < |states[a].feed.callers| && states[a].feed.callers[i].priority != PRIORITY_PERMANENT
    ensures Left(states[k], states[a].feed.callers[i])
  {
    if k == a + 1 {
      RunConserved(states, events, a);
      RunConserved(states, events, k);
      QueueStep(states[a], events[a]);
      SendOnly(states[a], i);
      SentLeft(states[a], states[k], i);
    } else {
      LeftSince(states, events, a, i, k - 1);
      StepKeepsLeft(states[k - 1], events[k - 1], states[a].feed.callers[i]);
    }
  }

  lemma {:induction false} AheadSince(states: seq<State>, events: seq<Event>, b: nat, j: nat, k: nat, x: Item)
    requires IsRun(states, events) && b < k < |states| && events[b] == CallerPut(j) && j < |states[b].feed.callers|
    requires Left(states[b], x) && x.priority == states[b].feed.callers[j].priority != PRIORITY_PERMANENT
    ensures Ahead(states[k], x, states[b].feed.callers[j])
  {
    if k == b + 1 {
      RunConserved(states, events, b);
      RunConserved(states, events, k);
      QueueStep(states[b], events[b]);
      SendOnly(states[b], j);
      SentBehind(states[b], states[k], j, x);
    } else {
      AheadSince(states, events, b, j, k - 1, x);
      RunConserved(states, events, k - 1);
      StepKeepsAhead(states[k - 1], events[k - 1], x, states[b].feed.callers[j]);
    }
  }

  /** First come, first served, in every run: of two operations of the same priority, not permanent, the one sent
      first is dispatched first -- at any time the other one has been dispatched only after it. */
  lemma FirstComeFirstServed(states: seq<State>, events: seq<Event>, a: nat, i: nat, b: nat, j: nat, k: nat, q: nat)
    requires IsRun(states, events) && a < b < k < |states|
    requires events[a] == CallerPut(i) && i < |states[a].feed.callers|
    requires events[b] == CallerPut(j) && j < |states[b].feed.callers|
    requires states[a].feed.callers[i].priority == states[b].feed.callers[j].priority != PRIORITY_PERMANENT
    requires q < |states[k].wait.log| && states[k].wait.log[q].item == states[b].feed.callers[j]
    ensures exists p :: 0 <= p < q && states[k].wait.log[p].item == states[a].feed.callers[i]
  {
    var x := states[a].feed.callers[i];
    LeftSince(states, events, a, i, b);
    AheadSince(states, events, b, j, k, x);
    assert ListedBefore(states[k].wait.log, x, q);
  }
}
