/** Service order of the operation queue: priority refinement and round robin of the permanent operations. */
module QueueOrder {
  import opened PhyTypes
  import opened PriorityList
  import opened QueueModel
  import opened QueueBuffers

  ghost predicate InOrder(w: Wait) {
    && Ordered(w.list)
    && forall n :: n in w.list ==> n.stamp < w.clock
  }

  lemma StepKeepsOrder(s: State, e: Event)
    requires InOrder(s.wait) && Enabled(s, e)
    ensures InOrder(Next(s, e).wait)
  {
    if e.PutLink? {
      Inserted(s.wait.list, s.put.item, s.wait.clock);
    } else if e.ExecRequeue? {
      if Permanent(s.exec.node) {
        AppendIsInsert(s.wait.list, Node(s.exec.node.item, s.wait.clock));
        Inserted(s.wait.list, s.exec.node.item, s.wait.clock);
      }
    }
  }

  lemma Inserted(list: seq<Node>, item: Item, clock: nat)
    requires Ordered(list)
    requires forall n :: n in list ==> n.stamp < clock
    ensures Ordered(Insert(list, Node(item, clock)))
    ensures forall n :: n in Insert(list, Node(item, clock)) ==> n.stamp < clock + 1
  {
    var r := Insert(list, Node(item, clock));
    InsertOrdered(list, Node(item, clock));
    InsertItems(list, Node(item, clock));
    forall n | n in r ensures n.stamp < clock + 1 {
      assert n in multiset(r);
      assert n in multiset(list) || n == Node(item, clock);
    }
  }

  /** The exec thread always takes the longest waiting operation of the highest waiting priority. */
  lemma DispatchIsFirst(s: State, n: Node)
    requires InOrder(s.wait) && Buffers(s) && Enabled(s, ExecPop)
    requires n in s.wait.list && n != s.wait.list[0]
    ensures Next(s, ExecPop).wait.log == s.wait.log + [s.wait.list[0]]
    ensures Before(s.wait.list[0], n)
    ensures Permanent(s.wait.list[0]) ==> Permanent(n)
  {
    var i :| 0 <= i < |s.wait.list| && s.wait.list[i] == n;
    assert Before(s.wait.list[0], s.wait.list[i]);
  }

  // ---- round robin ----

  ghost predicate AllSound(states: seq<State>) {
    forall i :: 0 <= i < |states| ==> InOrder(states[i].wait) && Buffers(states[i])
  }

  /** The permanent operations in the order in which they will be served: the listed ones, and last the
      one the exec thread is just putting back. */
  function Rotation(s: State): seq<nat> {
    Perms(s.wait.list) + (if s.exec.ExecHand? then PermOf(s.exec.node) else [])
  }

  /** The permanent operations dispatched after the log had the given length. */
  function ServedSince(s: State, start: nat): seq<nat> {
    if start <= |s.wait.log| then Perms(s.wait.log[start..]) else []
  }

  lemma PopRotates(s: State, start: nat)
    requires InOrder(s.wait) && Buffers(s) && Enabled(s, ExecPop) && start <= |s.wait.log|
    ensures var t := Next(s, ExecPop);
            && t.wait.log == s.wait.log + [s.wait.list[0]]
            && ServedSince(t, start) == ServedSince(s, start) + PermOf(s.wait.list[0])
            && Rotation(t) == (if Permanent(s.wait.list[0]) then Rotation(s)[1..] + PermOf(s.wait.list[0]) else Rotation(s))
            && PermOf(s.wait.list[0]) <= Rotation(s)
  {
    var t := PopNode(s);
    var log := s.wait.log[start..];
    assert (s.wait.log + [s.wait.list[0]])[start..] == log + [s.wait.list[0]];
    PermsAppend(log, [s.wait.list[0]]);
    assert Perms([s.wait.list[0]]) == PermOf(s.wait.list[0]);
    assert Rotation(s) == Perms(s.wait.list) + [] && Rotation(t) == Perms(s.wait.list[1..]) + PermOf(s.wait.list[0]);
  }

  lemma LinkJoins(s: State)
    requires Buffers(s) && Enabled(s, PutLink)
    ensures var t := Next(s, PutLink);
            t.wait.log == s.wait.log && Rotation(t) == Rotation(s) + PermOf(Node(s.put.item, s.wait.clock))
  {
    PermsInsert(s.wait.list, Node(s.put.item, s.wait.clock));
    assert Rotation(s) == Perms(s.wait.list) + [];
  }

  lemma RequeueKeeps(s: State)
    requires Enabled(s, ExecRequeue)
    ensures Next(s, ExecRequeue).wait.log == s.wait.log
    ensures Rotation(Next(s, ExecRequeue)) == Rotation(s)
  {
    var node := Node(s.exec.node.item, s.wait.clock);
    PermsAppend(s.wait.list, [node]);
    assert Perms([node]) == PermOf(node);
  }

  lemma OthersKeep(s: State, e: Event)
    requires Enabled(s, e) && !e.ExecPop? && !e.PutLink? && !e.ExecRequeue?
    ensures Rotation(Next(s, e)) == Rotation(s) && Next(s, e).wait.log == s.wait.log
  {
  }

  /** One step: a dispatched permanent operation moves from the front to the back, a new one joins at the
      back, and nothing else changes the rotation. */
  lemma RotationStep(s: State, e: Event, start: nat)
    requires InOrder(s.wait) && Buffers(s) && Enabled(s, e) && start <= |s.wait.log|
    ensures var t := Next(s, e);
            && start <= |t.wait.log|
            && if e.ExecPop? && Permanent(s.wait.list[0]) then
                 && Rotation(s) != []
                 && Rotation(s)[0] == s.wait.list[0].item.ticket
                 && Rotation(t) == Rotation(s)[1..] + [Rotation(s)[0]]
                 && ServedSince(t, start) == ServedSince(s, start) + [Rotation(s)[0]]
               else
                 && ServedSince(t, start) == ServedSince(s, start)
                 && Rotation(t) == Rotation(s) + (if e.PutLink? then PermOf(Node(s.put.item, s.wait.clock)) else [])
  {
    match e {
      case ExecPop =>
        PopRotates(s, start);
      case PutLink => LinkJoins(s);
      case ExecRequeue => RequeueKeeps(s);
      case _ => OthersKeep(s, e);
    }
  }

  /** Since x was dispatched, when the rotation became q + [x]: the permanent operations dispatched are the
      first ones of q in their order, and the others of q, and then x, are ahead of everything else. */
  ghost predicate Turn(s: State, start: nat, q: seq<nat>, x: nat) {
    var d := ServedSince(s, start);
    start <= |s.wait.log| && |d| <= |q| && d == q[..|d|] && q[|d|..] + [x] <= Rotation(s)
  }

  lemma NextInTurn(d: seq<nat>, q: seq<nat>, x: nat, r: seq<nat>)
    requires |d| <= |q| && d == q[..|d|] && q[|d|..] + [x] <= r && r[0] != x
    ensures |d| < |q| && d + [r[0]] == q[..|d| + 1] && q[|d| + 1..] + [x] <= r[1..] + [r[0]]
  {
    assert r[0] == (q[|d|..] + [x])[0];
    assert q[|d|..] + [x] == [q[|d|]] + (q[|d| + 1..] + [x]);
  }

  lemma TurnStep(s: State, e: Event, start: nat, q: seq<nat>, x: nat)
    requires InOrder(s.wait) && Buffers(s) && Enabled(s, e) && Turn(s, start, q, x)
    requires x !in ServedSince(Next(s, e), start)
    ensures Turn(Next(s, e), start, q, x)
  {
    RotationStep(s, e, start);
    var d, r := ServedSince(s, start), Rotation(s);
    if e.ExecPop? && Permanent(s.wait.list[0]) {
      assert ServedSince(Next(s, e), start)[|d|] == r[0];
      NextInTurn(d, q, x, r);
    } else {
      assert q[|d|..] + [x] <= r <= Rotation(Next(s, e));
    }
  }

  lemma {:induction false} TurnPrefix(states: seq<State>, events: seq<Event>, q: seq<nat>, x: nat)
    requires IsSegment(states, events)
    requires AllSound(states)
    requires Rotation(states[0]) == q + [x]
    requires x !in ServedSince(states[|events|], |states[0].wait.log|)
    ensures Turn(states[|events|], |states[0].wait.log|, q, x)
  {
    var start := |states[0].wait.log|;
    if |events| == 0 {
      assert states[0].wait.log[start..] == [];
    } else {
      var k := |events| - 1;
      LogGrows(states[..k + 1], events[..k]);
      RotationStep(states[k], events[k], start);
      TurnPrefix(states[..k + 1], events[..k], q, x);
      TurnStep(states[k], events[k], start, q, x);
    }
  }

  lemma {:induction false} LogGrows(states: seq<State>, events: seq<Event>)
    requires IsSegment(states, events)
    requires AllSound(states)
    ensures |states[0].wait.log| <= |states[|events|].wait.log|
  {
    if |events| > 0 {
      var k := |events| - 1;
      LogGrows(states[..k + 1], events[..k]);
      RotationStep(states[k], events[k], |states[0].wait.log|);
    }
  }

  /** Round robin. Between two consecutive dispatches of x every other permanent operation that was listed
      at the first one is dispatched, once and in list order, and no permanent operation added since is. */
  lemma RoundRobin(states: seq<State>, events: seq<Event>, q: seq<nat>, x: nat)
    requires IsSegment(states, events)
    requires AllSound(states)
    requires Rotation(states[0]) == q + [x]
    requires x !in ServedSince(states[|events|], |states[0].wait.log|)
    requires var s := states[|events|];
             Enabled(s, ExecPop) && s.wait.list != [] && Permanent(s.wait.list[0]) && s.wait.list[0].item.ticket == x && x !in q
    ensures ServedSince(states[|events|], |states[0].wait.log|) == q
  {
    var s := states[|events|];
    TurnPrefix(states, events, q, x);
    var d := ServedSince(s, |states[0].wait.log|);
    RotationStep(s, ExecPop, |s.wait.log|);
    assert Rotation(s)[0] == (q[|d|..] + [x])[0];
    assert forall i :: 0 <= i < |q| ==> q[i] != x;
  }

  /** The premise of RoundRobin holds right after every dispatch of a permanent operation. */
  lemma AfterDispatch(s: State)
    requires InOrder(s.wait) && Buffers(s) && Enabled(s, ExecPop) && Permanent(s.wait.list[0])
    ensures Rotation(Next(s, ExecPop)) == Rotation(s)[1..] + [s.wait.list[0].item.ticket]
    ensures Rotation(s) == Perms(s.wait.list)
  {
    RotationStep(s, ExecPop, |s.wait.log|);
  }
}
