/** The operation queue over whole runs. */
module QueueTheorems {
  import opened PhyTypes
  import opened PriorityList
  import opened QueueModel
  import opened QueueBuffers
  import opened QueueOrder
  import opened QueueConservation
  import opened QueuePermit
  import opened QueueExclusive

  ghost predicate Invariant(s: State) {
    Buffers(s) && InOrder(s.wait) && Conserved(s) && Balanced(s) && Ledger(s)
  }

  lemma StepInvariant(s: State, e: Event)
    requires Invariant(s) && Enabled(s, e)
    ensures Invariant(Next(s, e))
  {
    StepKeepsBuffers(s, e);
    StepKeepsOrder(s, e);
    StepConserves(s, e);
    StepBalances(s, e);
    StepKeepsLedger(s, e);
  }

  lemma StartInvariant()
    ensures Invariant(START) && Exclusive(START)
  {
    StartConserved();
    assert Ledger(START) && Clean(START.phy);
  }

  lemma StartConserved()
    ensures Conserved(START)
  {
    assert Items([]) == [] && Spent([]) == [];
  }

  /** Every state of every run, whatever the callers, the threads, the timer and the modem do, and in
      whatever order they do it, satisfies all five invariants. */
  lemma {:induction false} RunInvariant(states: seq<State>, events: seq<Event>, i: nat)
    requires IsRun(states, events) && i < |states|
    ensures Invariant(states[i])
  {
    if i == 0 {
      StartInvariant();
    } else {
      RunInvariant(states, events, i - 1);
      StepInvariant(states[i - 1], events[i - 1]);
    }
  }

  /** The three that the proofs below go on with. */
  lemma RunParts(states: seq<State>, events: seq<Event>, i: nat)
    requires IsRun(states, events) && i < |states|
    ensures Buffers(states[i]) && Balanced(states[i]) && Ledger(states[i])
  {
    RunInvariant(states, events, i);
  }

  /** Slabs, counts and mutex in every run. A caller that got an item never waits at the put, no list access
      is outside the mutex, no give of the list count is swallowed, the exec thread never takes from an empty
      list, and the put thread never finds a full one. */
  lemma NothingBlocksOrOverflows(states: seq<State>, events: seq<Event>, i: nat)
    requires IsRun(states, events) && i < |events|
    ensures var s, t, e := states[i], states[i + 1], events[i];
            && s.feed.itemUsed == |s.feed.msgq| + |s.feed.callers| + ItemInHand(s.put) <= MAX_ITEMS
            && s.wait.nodeUsed == |s.wait.list| + NodeUnlinked(s.put) + NodeInHand(s.exec) <= MAX_ITEMS
            && s.wait.itemSem + TokenTaken(s.exec) + LinkOwed(s.put) + AppendOwed(s.exec) == |s.wait.list|
            && (forall c :: 0 <= c < |s.feed.callers| ==> Enabled(s, CallerPut(c)))
            && (e.PutGive? || e.ExecGive? ==> t.wait.itemSem == s.wait.itemSem + 1)
            && (e.ExecPop? || e.ExecRequeue? ==> s.wait.mutex == ByExec && !PutInside(s.put))
            && (e.PutAlloc? || e.PutLink? ==> s.wait.mutex == ByPut && !ExecInside(s.exec))
            && !t.put.PutFull? && !t.exec.ExecFault?
  {
    RunInvariant(states, events, i);
    RunInvariant(states, events, i + 1);
    NoLostCount(states[i], events[i]);
    forall c | 0 <= c < |states[i].feed.callers| ensures Enabled(states[i], CallerPut(c)) {
      PutNeverBlocks(states[i], c);
    }
  }

  /** The put thread that finds the node slab exhausted, which it does exactly with eight nodes in use, never
      comes back: whatever follows, nothing is dispatched any more. */
  lemma ExhaustedSlabStopsTheQueue(states: seq<State>, events: seq<Event>, a: nat, b: nat)
    requires IsRun(states, events) && a < b < |states| && events[a] == PutAlloc
    ensures states[a + 1].put.PutStuck? <==> |states[a].wait.list| + NodeInHand(states[a].exec) == MAX_ITEMS
    ensures states[a + 1].put.PutStuck? ==>
              states[b].put == states[a + 1].put && states[b].wait.log == states[a].wait.log
  {
    RunParts(states, events, a);
    SlabExhausted(states[a]);
    if states[a + 1].put.PutStuck? {
      StaysStuck(states, events, a + 1, b);
    }
  }

  lemma SlabExhausted(s: State)
    requires Buffers(s) && Enabled(s, PutAlloc)
    ensures Next(s, PutAlloc).put.PutStuck? <==> |s.wait.list| + NodeInHand(s.exec) == MAX_ITEMS
    ensures Next(s, PutAlloc).wait.log == s.wait.log
  {
  }

  lemma {:induction false} StaysStuck(states: seq<State>, events: seq<Event>, a: nat, b: nat)
    requires IsRun(states, events) && a <= b < |states| && states[a].put.PutStuck?
    ensures states[b].put == states[a].put && states[b].wait.log == states[a].wait.log
  {
    if a < b {
      StaysStuck(states, events, a, b - 1);
      RunParts(states, events, b - 1);
      StuckForever(states[b - 1], events[b - 1]);
    }
  }

  /** The permit in every run: with C acknowledgements ended and D placeholders executed there are at most
      1 + C - D permits free, held or in use, plus those given early; the account says where each went. */
  lemma PermitAccount(states: seq<State>, events: seq<Event>, i: nat)
    requires IsRun(states, events) && i < |states|
    ensures var p := states[i].phy;
            && p.sem <= 1
            && Permits(states[i]) + p.totals.lost + p.totals.absorbed
               == 1 + (Foreign(p) - p.totals.placeholders) + p.totals.early
            && Permits(states[i]) <= 1 + (Foreign(p) - p.totals.placeholders) + p.totals.early
  {
    RunInvariant(states, events, i);
  }

  // ---- exclusive use of the modem ----

  ghost predicate IsCoveredRun(states: seq<State>, events: seq<Event>) {
    IsRun(states, events) && forall k :: 0 <= k < |events| ==> Covered(states[k], events[k])
  }

  lemma {:induction false} CoveredPrefix(states: seq<State>, events: seq<Event>, i: nat)
    requires IsRun(states, events) && i < |states|
    requires forall k :: 0 <= k < i ==> Covered(states[k], events[k])
    ensures Balanced(states[i]) && Ledger(states[i]) && Exclusive(states[i])
  {
    RunParts(states, events, i);
    if i == 0 {
      StartInvariant();
    } else {
      CoveredPrefix(states, events, i - 1);
      RunParts(states, events, i - 1);
      StepExclusive(states[i - 1], events[i - 1]);
    }
  }

  /** Mutual exclusion, exactly. In a run there is always at most one permit -- free, held by the exec thread, with
      an operation of the queue, or with the retry timer -- if and only if every acknowledgement that ends in it
      is covered. */
  lemma ExclusionExact(states: seq<State>, events: seq<Event>)
    requires IsRun(states, events)
    ensures (forall i :: 0 <= i < |states| ==> Permits(states[i]) <= 1) <==> IsCoveredRun(states, events)
  {
    if IsCoveredRun(states, events) {
      forall i | 0 <= i < |states| ensures Permits(states[i]) <= 1 {
        CoveredPrefix(states, events, i);
      }
    } else {
      var k :| 0 <= k < |events| && !Covered(states[k], events[k]);
      RunParts(states, events, k);
      if Permits(states[k]) <= 1 {
        UncoveredBreaks(states[k], events[k]);
        assert Permits(states[k + 1]) == 2;
      }
    }
  }

  /** An orderly run: no acknowledgement ends before its placeholder was executed. */
  ghost predicate IsOrderlyRun(states: seq<State>, events: seq<Event>) {
    IsRun(states, events) && forall i :: 0 <= i < |states| ==> Foreign(states[i].phy) <= states[i].phy.totals.placeholders
  }

  lemma OrderlyStepCovered(s: State, e: Event)
    requires Balanced(s) && s.phy.totals.early == 0 && Enabled(s, e)
    requires Foreign(Next(s, e).phy) <= Next(s, e).phy.totals.placeholders
    ensures Covered(s, e)
  {
    if e.AckReport? {
      AcknowledgementReleases(s.air.acks[e.i], s.phy.state);
    }
  }

  lemma OrderlyPrefixCovered(states: seq<State>, events: seq<Event>, n: nat)
    requires IsOrderlyRun(states, events) && n <= |events|
    ensures forall k :: 0 <= k < n ==> Covered(states[k], events[k])
  {
    if n > 0 {
      OrderlyPrefixCovered(states, events, n - 1);
      CoveredPrefix(states, events, n - 1);
      assert Foreign(states[n].phy) <= states[n].phy.totals.placeholders;
      OrderlyStepCovered(states[n - 1], events[n - 1]);
    }
  }

  /** What the program means to do is enough: orderly runs are covered. */
  lemma OrderlyRunsAreCovered(states: seq<State>, events: seq<Event>)
    requires IsOrderlyRun(states, events)
    ensures IsCoveredRun(states, events)
  {
    OrderlyPrefixCovered(states, events, |events|);
  }

  /** One operation at a time, in covered runs: the permit is in at most one place; if it is in none, it was lost,
      or a placeholder gave it away; and none is ever given at the first report of a TX_RX. */
  lemma OneOperationAtATime(states: seq<State>, events: seq<Event>, i: nat)
    requires IsCoveredRun(states, events) && i < |states|
    ensures var s, p := states[i], states[i].phy;
            && p.sem + Held(s.exec) + |p.jobs| + Armed(p) <= 1
            && p.sem + Held(s.exec) + |p.jobs| + Armed(p)
               == 1 - p.totals.lost - p.totals.absorbed - (p.totals.placeholders - Foreign(p))
            && p.totals.early == 0
  {
    CoveredPrefix(states, events, i);
  }

  /** In covered runs, while more placeholders were executed than acknowledgements ended, the queue starts nothing. */
  lemma ReservationHolds(states: seq<State>, events: seq<Event>, i: nat)
    requires IsCoveredRun(states, events) && i < |events|
    requires states[i].phy.totals.placeholders > Foreign(states[i].phy)
    ensures var p := states[i].phy;
            p.jobs == [] && !p.retry.armed && Held(states[i].exec) == 0 && p.sem == 0 && p.totals.placeholders == Foreign(p) + 1
    ensures !events[i].ExecTakePermit? && !events[i].ExecRun? && !events[i].TimerFire?
  {
    OneOperationAtATime(states, events, i);
  }

  /** Retries, in covered runs. Every call made for a dispatched operation has its function and its parameters,
      flagged; there are at most 1 + MAX_RETRY of them; its permit is given at most once, and not while the
      operation is in use; when it is over, its permit was given once or lost once -- or lost and lost again,
      which takes an acknowledgement that came too late and tried the lost operation again. */
  lemma RetriesAreBounded(states: seq<State>, events: seq<Event>, i: nat, k: nat)
    requires IsCoveredRun(states, events) && i < |states| && k < |states[i].wait.log|
    ensures var s := states[i];
            var h, item, late := s.phy.calls, s.wait.log[k].item, s.phy.totals.late;
            && |h.trials| == |h.given| == |h.losses| == |s.wait.log|
            && |h.trials[k]| <= 1 + MAX_RETRY
            && (forall c :: c in h.trials[k] ==> c == CallFor(item))
            && (if k >= Started(s.wait.log, s.exec) || item.op == Placeholder then
                  h.trials[k] == [] && h.given[k] == h.losses[k] == 0
                else if k == h.running && InUse(s.phy) then h.given[k] == 0 && h.losses[k] <= late
                else h.given[k] <= 1 <= h.given[k] + h.losses[k] <= 1 + late)
  {
    CoveredPrefix(states, events, i);
    var s := states[i];
    assert Account(s.wait.log[k].item.op, k, Started(s.wait.log, s.exec), s.phy);
    assert AllCalls(s.phy.calls.trials[k], CallFor(s.wait.log[k].item));
  }

  // ---- the other way to stop ----

  /** Nobody has a permit and the modem owes no acknowledgement. */
  predicate Stopped(s: State) {
    Permits(s) == 0 && s.air.acks == []
  }

  /** Such a state is final: whatever follows, no operation is dispatched, started, retried or acknowledged. It is
      what a permit that was lost leaves, or a reservation whose acknowledgement will not end. */
  lemma {:induction false} StoppedForGood(states: seq<State>, events: seq<Event>, a: nat, b: nat)
    requires IsRun(states, events) && a <= b < |states| && Stopped(states[a])
    ensures states[b].phy == states[a].phy && states[b].wait.log == states[a].wait.log && Stopped(states[b])
  {
    if a < b {
      StoppedForGood(states, events, a, b - 1);
      StoppedStep(states[b - 1], events[b - 1]);
    }
  }

  lemma StoppedStep(s: State, e: Event)
    requires Stopped(s) && Enabled(s, e)
    ensures Next(s, e).phy == s.phy && Next(s, e).wait.log == s.wait.log && Stopped(Next(s, e))
  {
  }

  // ---- service order in runs ----

  /** The event takes node n from the list. */
  predicate Takes(s: State, e: Event, n: Node) {
    e.ExecPop? && s.exec.ExecLocked? && s.wait.list != [] && s.wait.list[0] == n
  }

  /** Every dispatch of a run is the longest waiting operation of the highest waiting priority. */
  lemma DispatchOrder(states: seq<State>, events: seq<Event>, i: nat, n: Node, m: Node)
    requires IsRun(states, events) && i < |events|
    requires Takes(states[i], events[i], n) && m in states[i].wait.list && m != n
    ensures Before(n, m)
    ensures Permanent(n) ==> Permanent(m)
  {
    RunInvariant(states, events, i);
    DispatchIsFirst(states[i], m);
  }

  lemma SegmentOfRun(states: seq<State>, events: seq<Event>, a: nat, b: nat) returns (part: seq<State>, steps: seq<Event>)
    requires IsRun(states, events) && a <= b <= |events|
    ensures IsSegment(part, steps) && AllSound(part)
    ensures part[0] == states[a] && part[|steps|] == states[b]
  {
    part, steps := states[a..b + 1], events[a..b];
    forall i | 0 <= i < |part| ensures InOrder(part[i].wait) && Buffers(part[i]) {
      RunInvariant(states, events, a + i);
      assert part[i] == states[a + i];
    }
  }

  lemma TurnBegins(s: State, n: Node)
    requires Invariant(s) && Takes(s, ExecPop, n) && Permanent(n)
    ensures var q := Perms(s.wait.list[1..]);
            && Rotation(Next(s, ExecPop)) == q + [n.item.ticket]
            && n.item.ticket !in q
            && (forall i, j :: 0 <= i < j < |q| ==> q[i] != q[j])
  {
    var x, rest := n.item.ticket, s.wait.list[1..];
    AfterDispatch(s);
    forall i, j | 0 <= i < j < |s.wait.list| ensures s.wait.list[i].item.ticket != s.wait.list[j].item.ticket {
      ListedDistinct(s, i, j);
    }
    PermsDistinct(rest);
    forall k | 0 <= k < |Perms(rest)| ensures Perms(rest)[k] != x {
      PermsFrom(rest, k);
      var i :| 0 <= i < |rest| && rest[i].item.ticket == Perms(rest)[k];
      assert s.wait.list[i + 1] == rest[i];
    }
  }

  lemma TurnInRun(states: seq<State>, events: seq<Event>, a: nat, n: Node)
    requires IsRun(states, events) && a < |events| && Takes(states[a], events[a], n) && Permanent(n)
    ensures var q := Perms(states[a].wait.list[1..]);
            && Rotation(states[a + 1]) == q + [n.item.ticket] && n.item.ticket !in q
            && (forall i, j :: 0 <= i < j < |q| ==> q[i] != q[j])
            && |states[a + 1].wait.log| == |states[a].wait.log| + 1
  {
    RunInvariant(states, events, a);
    TurnBegins(states[a], n);
  }

  /** Round robin in every run. Between two consecutive dispatches of a permanent operation, at a and at b, the
      permanent operations dispatched are exactly the others listed at a, in list order; these are all
      different, so each of them is dispatched once, and none added after a is. */
  lemma PermanentOperationsTakeTurns(states: seq<State>, events: seq<Event>, a: nat, b: nat, n: Node, m: Node)
    requires IsRun(states, events) && a < b < |events|
    requires Takes(states[a], events[a], n) && Takes(states[b], events[b], m)
    requires Permanent(n) && Permanent(m) && m.item.ticket == n.item.ticket
    requires n.item.ticket !in ServedSince(states[b], |states[a].wait.log| + 1)
    ensures ServedSince(states[b], |states[a].wait.log| + 1) == Perms(states[a].wait.list[1..])
    ensures var q := Perms(states[a].wait.list[1..]); forall i, j :: 0 <= i < j < |q| ==> q[i] != q[j]
  {
    TurnInRun(states, events, a, n);
    var part, steps := SegmentOfRun(states, events, a + 1, b);
    RoundRobin(part, steps, Perms(states[a].wait.list[1..]), n.item.ticket);
  }

  /** Nothing is lost, doubled or changed: in every run an accepted operation is in exactly one place, what is
      handed to the exec thread is what was put, and a non-permanent operation is handed over at most once. */
  lemma NothingLost(states: seq<State>, events: seq<Event>, i: nat, ticket: nat)
    requires IsRun(states, events) && i < |states| && ticket < |states[i].feed.accepted|
    ensures var s := states[i];
            && Places(s)[s.feed.accepted[ticket]] == 1
            && (forall n :: n in s.wait.log && n.item.ticket == ticket ==> n.item == s.feed.accepted[ticket])
            && (forall k, l :: 0 <= k < l < |s.wait.log| && s.wait.log[k].item.ticket == s.wait.log[l].item.ticket
                               ==> Permanent(s.wait.log[k]))
  {
    RunInvariant(states, events, i);
    var s := states[i];
    OnePlace(s, ticket);
    forall k, l | 0 <= k < l < |s.wait.log| && s.wait.log[k].item.ticket == s.wait.log[l].item.ticket
      ensures Permanent(s.wait.log[k])
    {
      if !Permanent(s.wait.log[k]) {
        DispatchedOnce(s, k, l);
      }
    }
  }
}
