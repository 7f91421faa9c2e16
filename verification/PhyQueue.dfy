/** The program's own form of the operation queue: its global variables as fields, every uninterruptible piece of
    its threads and callbacks as a method. The object carries the run it has made so far as ghost fields. Each method
    appends its event to it, in whatever order the methods are called, so everything QueueTheorems proves of
    runs holds of the object; the methods that need it use it. */
module PhyQueueObject {
  import opened PhyTypes
  import opened PriorityList
  import opened QueueModel
  import opened QueueBuffers
  import opened QueueOrder
  import opened QueueConservation
  import opened QueueJobs
  import opened QueuePermit
  import opened QueueTheorems

  lemma Lengthened(states: seq<State>, events: seq<Event>, e: Event)
    requires IsRun(states, events) && Enabled(states[|events|], e)
    ensures IsRun(states + [Next(states[|events|], e)], events + [e])
  {
  }

  // What the methods below use of the state a run has reached.

  lemma ReachedBuffers(states: seq<State>, events: seq<Event>)
    requires IsRun(states, events)
    ensures Buffers(states[|events|])
  {
    RunInvariant(states, events, |events|);
  }

  lemma ReachedLink(states: seq<State>, events: seq<Event>)
    requires IsRun(states, events) && Enabled(states[|events|], PutLink)
    ensures var w, item := states[|events|].wait, states[|events|].put.item;
            var list := Insert(w.list, Node(item, w.clock));
            && w.mutex == ByPut && |w.list| < MAX_ITEMS
            && Ordered(list) && multiset(list) == multiset(w.list) + multiset{Node(item, w.clock)}
  {
    var s := states[|events|];
    RunInvariant(states, events, |events|);
    Inserted(s.wait.list, s.put.item, s.wait.clock);
    InsertItems(s.wait.list, Node(s.put.item, s.wait.clock));
  }

  lemma ReachedPop(states: seq<State>, events: seq<Event>)
    requires IsRun(states, events) && Enabled(states[|events|], ExecPop)
    ensures var list := states[|events|].wait.list;
            list != []
            && forall n :: n in list[1..] ==> Before(list[0], n) && (Permanent(list[0]) ==> Permanent(n))
  {
    var s := states[|events|];
    RunInvariant(states, events, |events|);
    forall n | n in s.wait.list[1..] ensures Before(s.wait.list[0], n) && (Permanent(s.wait.list[0]) ==> Permanent(n)) {
      var i :| 0 <= i < |s.wait.list[1..]| && s.wait.list[1..][i] == n;
      assert Before(s.wait.list[0], s.wait.list[i + 1]);
    }
  }

  lemma ReachedRequeue(states: seq<State>, events: seq<Event>)
    requires IsRun(states, events) && Enabled(states[|events|], ExecRequeue)
    ensures var s, t := states[|events|], RequeueNode(states[|events|]);
            && Ordered(t.wait.list) && Rotation(t) == Rotation(s) && s.wait.nodeUsed > 0
            && IsRun(states + [t], events + [ExecRequeue])
  {
    RunInvariant(states, events, |events|);
    RequeueKeeps(states[|events|]);
    StepKeepsOrder(states[|events|], ExecRequeue);
    Lengthened(states, events, ExecRequeue);
  }

  /** A start or a retry is a step, after which all calls recorded for the running operation are for it. */
  lemma ReachedCalls(states: seq<State>, events: seq<Event>, e: Event, t: State)
    requires IsRun(states, events) && Enabled(states[|events|], e) && t == Next(states[|events|], e)
    ensures IsRun(states + [t], events + [e])
    ensures |t.phy.calls.trials| == |t.wait.log|
    ensures t.phy.calls.running < |t.wait.log| ==>
              AllCalls(t.phy.calls.trials[t.phy.calls.running], CallFor(t.wait.log[t.phy.calls.running].item))
  {
    RunInvariant(states, events, |events|);
    StepKeepsLedger(states[|events|], e);
    Lengthened(states, events, e);
  }

  lemma ReachedRun(states: seq<State>, events: seq<Event>, answer: bool, t: State)
    requires IsRun(states, events) && states[|events|].exec.ExecReady?
    requires var s := states[|events|];
             t == s.(exec := ExecWaiting, phy := Start(s.phy, s.exec.node.item, Dec(|s.wait.log|), answer))
    ensures IsRun(states + [t], events + [ExecRun(answer)])
    ensures t.wait.log != [] && |t.phy.calls.trials| == |t.wait.log|
    ensures AllCalls(t.phy.calls.trials[|t.wait.log| - 1], CallFor(states[|events|].exec.node.item))
  {
    ReachedNode(states, events);
    ReachedCalls(states, events, ExecRun(answer), t);
  }

  lemma ReachedNode(states: seq<State>, events: seq<Event>)
    requires IsRun(states, events) && states[|events|].exec.ExecReady?
    ensures var s := states[|events|]; s.wait.log != [] && s.wait.log[|s.wait.log| - 1] == s.exec.node
  {
    RunInvariant(states, events, |events|);
  }

  lemma ReachedFire(states: seq<State>, events: seq<Event>, answer: bool, t: State)
    requires IsRun(states, events) && states[|events|].phy.retry.armed
    requires t == states[|events|].(phy := Fire(states[|events|].phy, answer))
    ensures IsRun(states + [t], events + [TimerFire(answer)])
    ensures |t.phy.calls.trials| == |t.wait.log|
    ensures t.phy.calls.running < |t.wait.log| ==>
              AllCalls(t.phy.calls.trials[t.phy.calls.running], CallFor(t.wait.log[t.phy.calls.running].item))
  {
    ReachedCalls(states, events, TimerFire(answer), t);
  }

  lemma ReachedReport(states: seq<State>, events: seq<Event>, i: nat, err: ModemErr, t: State)
    requires IsRun(states, events) && i < |states[|events|].phy.jobs|
    requires t == states[|events|].(phy := Report(states[|events|].phy, i, err))
    ensures var p := states[|events|].phy;
            && Balance(t.phy) == Balance(p) && t.phy.sem <= 1
            && (IsRadio(p.jobs[i].op) ==> Reported(p, t.phy, i, err))
            && IsRun(states + [t], events + [JobReport(i, err)])
  {
    ReachedEffect(states, events, i, err);
    RunInvariant(states, events, |events|);
    ReportBalances(states[|events|].phy, i, err);
    Lengthened(states, events, JobReport(i, err));
  }

  lemma ReachedEffect(states: seq<State>, events: seq<Event>, i: nat, err: ModemErr)
    requires IsRun(states, events) && i < |states[|events|].phy.jobs|
    ensures var p := states[|events|].phy; IsRadio(p.jobs[i].op) ==> Reported(p, Report(p, i, err), i, err)
  {
    RunInvariant(states, events, |events|);
    var p := states[|events|].phy;
    assert p.jobs[i] in p.jobs && GoodJob(p.jobs[i]);
    if IsRadio(p.jobs[i].op) {
      ReportEffect(p, i, err);
    }
  }

  lemma ReachedAck(states: seq<State>, events: seq<Event>, i: nat, err: ModemErr)
    requires IsRun(states, events) && i < |states[|events|].air.acks|
    ensures var s := states[|events|];
            var t := AckReported(s.phy, s.air.acks[i], err);
            && Balance(t) == Balance(s.phy) && t.sem <= 1
            && IsRun(states + [s.(phy := t, air := AckEnded(s.air, i))], events + [AckReport(i, err)])
  {
    RunInvariant(states, events, |events|);
    AckBalances(states[|events|].phy, states[|events|].air.acks[i], err);
    Lengthened(states, events, AckReport(i, err));
  }

  lemma ReachedPlaceholder(states: seq<State>, events: seq<Event>, t: State)
    requires IsRun(states, events) && states[|events|].air.owed > 0
    requires var s := states[|events|];
             t == s.(feed := AllocItem(s.feed, Placeholder, None, PRIORITY_CRITICAL), air := s.air.(owed := s.air.owed - 1))
    ensures IsRun(states + [t], events + [PlaceholderAlloc])
  {
    Lengthened(states, events, PlaceholderAlloc);
  }

  class PhyQueue {
    var itemUsed: nat
    var callers: seq<Item>
    var msgq: seq<Item>
    var accepted: seq<Item>
    var put: PutPc
    var mutex: Mutex
    var nodeUsed: nat
    var list: seq<Node>
    var itemSem: nat
    var clock: nat
    var log: seq<Node>
    var exec: ExecPc
    var phySem: nat
    var current: Submission
    var failed: nat
    var armed: bool
    var phyState: PhyState
    var jobs: seq<Job>
    var calls: Calls
    var totals: Totals
    var owed: nat
    var acks: seq<ProcessNumber>
    ghost var states: seq<State>
    ghost var events: seq<Event>

    function PhyView(): Phy
      reads this
    {
      Phy(phySem, Pending(current, failed, armed), phyState, jobs, calls, totals)
    }

    function View(): State
      reads this
    {
      State(Feed(itemUsed, callers, msgq, accepted), put, Wait(mutex, nodeUsed, list, itemSem, clock, log), exec, PhyView(),
            Air(owed, acks))
    }

    /** The object is where its run has led. */
    ghost predicate Valid()
      reads this
    {
      IsRun(states, events) && states[|events|] == View()
    }

    constructor ()
      ensures Valid() && View() == START && events == []
    {
      itemUsed, callers, msgq, accepted := 0, [], [], [];
      put, exec := PutWaiting, ExecWaiting;
      mutex, nodeUsed, list, itemSem, clock, log := Unlocked, 0, [], 0, 0, [];
      phySem, current, failed, armed := 1, Submission(Placeholder, NO_PARAMS), 0, false;
      phyState, jobs := Idling, [];
      calls, totals := Calls(0, [], [], []), Totals(0, 0, 0, 0, 0, 0);
      owed, acks := 0, [];
      states, events := [START], [];
    }

    ghost method Append(e: Event)
      requires IsRun(states + [View()], events + [e])
      modifies this`states, this`events
      ensures Valid() && events == old(events) + [e]
    {
      states, events := states + [View()], events + [e];
    }

    ghost method Record(e: Event)
      requires IsRun(states, events) && Enabled(states[|events|], e) && View() == Next(states[|events|], e)
      modifies this`states, this`events
      ensures Valid() && events == old(events) + [e]
    {
      Lengthened(states, events, e);
      states, events := states + [View()], events + [e];
    }

    // ---- dect_phy_queue_put ----

    /** The item of dect_phy_queue_put; false stands for NO_MEM_SLAB. */
    method AddItem(op: Function, params: Option<Params>, priority: nat) returns (ok: bool)
      modifies this`itemUsed, this`callers, this`accepted
      ensures View().feed == AllocItem(old(View().feed), op, params, priority)
      ensures ok <==> old(itemUsed) < MAX_ITEMS
    {
      ok := itemUsed < MAX_ITEMS;
      if ok {
        itemUsed := itemUsed + 1;
        var p := NO_PARAMS;
        if params.Some? {
          p := params.value;
        }
        var item := Item(op, p, priority, |accepted|);
        callers, accepted := callers + [item], accepted + [item];
      }
    }

    /** Refused exactly if eight puts are under way: queued, with a caller, or in the put thread's hand. */
    method Allocate(op: Function, params: Option<Params>, priority: nat) returns (ok: bool)
      requires Valid()
      modifies this
      ensures Valid() && events == old(events) + [CallerAlloc(op, params, priority)]
      ensures ok <==> old(|msgq| + |callers| + ItemInHand(put)) < MAX_ITEMS
      ensures callers == if ok then old(callers) + [Item(op, if params.Some? then params.value else NO_PARAMS, priority,
                                                         |old(accepted)|)] else old(callers)
    {
      ReachedBuffers(states, events);
      ok := AddItem(op, params, priority);
      Record(CallerAlloc(op, params, priority));
    }

    /** A caller with an item never waits here: there is room in the message queue. */
    method Submit(i: nat)
      requires Valid() && i < |callers|
      modifies this
      ensures Valid() && events == old(events) + [CallerPut(i)]
      ensures old(|msgq|) < MAX_ITEMS && msgq == old(msgq) + [old(callers[i])]
    {
      ReachedBuffers(states, events);
      msgq := msgq + [callers[i]];
      callers := callers[..i] + callers[i + 1..];
      Record(CallerPut(i));
    }

    // ---- put thread ----

    method GetItem()
      requires Valid() && Enabled(View(), PutGet)
      modifies this
      ensures Valid() && events == old(events) + [PutGet] && View() == Next(old(View()), PutGet)
      ensures old(msgq) == [put.item] + msgq && put.PutHolding?
    {
      put := PutHolding(msgq[0]);
      msgq := msgq[1..];
      Record(PutGet);
    }

    method FreeItem()
      requires Valid() && Enabled(View(), PutFree)
      modifies this
      ensures Valid() && events == old(events) + [PutFree] && View() == Next(old(View()), PutFree)
    {
      put := PutCopied(put.item);
      itemUsed := Dec(itemUsed);
      Record(PutFree);
    }

    method LockToPut()
      requires Valid() && Enabled(View(), PutLock)
      modifies this
      ensures Valid() && events == old(events) + [PutLock] && View() == Next(old(View()), PutLock)
    {
      put, mutex := PutLocked(put.item), ByPut;
      Record(PutLock);
    }

    /** The early return, with the mutex held, is taken exactly if all eight nodes are listed or in the exec
        thread's hand. */
    method AllocateNode()
      requires Valid() && Enabled(View(), PutAlloc)
      modifies this
      ensures Valid() && events == old(events) + [PutAlloc]
      ensures put.PutStuck? <==> |list| + NodeInHand(exec) == MAX_ITEMS
      ensures put.PutNode? || put.PutStuck?
      ensures put.item == old(put.item) && mutex == ByPut
    {
      ReachedBuffers(states, events);
      if nodeUsed < MAX_ITEMS {
        put, nodeUsed := PutNode(put.item), nodeUsed + 1;
      } else {
        put := PutStuck(put.item);
      }
      Record(PutAlloc);
    }

    /** The scan for the first node of lower priority. The list has room, and stays ordered. */
    method Link()
      requires Valid() && Enabled(View(), PutLink)
      modifies this
      ensures Valid() && events == old(events) + [PutLink]
      ensures put == PutLinked && mutex == ByPut && clock == old(clock) + 1
      ensures Ordered(list) && multiset(list) == multiset(old(list)) + multiset{Node(old(put.item), old(clock))}
    {
      ReachedLink(states, events);
      InsertSorted(Node(put.item, clock));
      put, clock := PutLinked, clock + 1;
      Record(PutLink);
    }

    method InsertSorted(node: Node)
      modifies this`list
      ensures list == Insert(old(list), node)
    {
      var i := 0;
      while i < |list| && !(list[i].item.priority < node.item.priority)
        invariant i <= |list|
        invariant forall j :: 0 <= j < i ==> list[j].item.priority >= node.item.priority
      {
        i := i + 1;
      }
      InsertAt(list, node, i);
      list := list[..i] + [node] + list[i..];
    }

    method UnlockPut()
      requires Valid() && Enabled(View(), PutUnlock)
      modifies this
      ensures Valid() && events == old(events) + [PutUnlock] && View() == Next(old(View()), PutUnlock)
    {
      put, mutex := PutUnlocked, Unlocked;
      Record(PutUnlock);
    }

    method GiveLinked()
      requires Valid() && Enabled(View(), PutGive)
      modifies this
      ensures Valid() && events == old(events) + [PutGive] && View() == Next(old(View()), PutGive)
      ensures itemSem == old(itemSem) + 1
    {
      ReachedBuffers(states, events);
      put, itemSem := PutWaiting, Give(itemSem, MAX_ITEMS);
      Record(PutGive);
    }

    // ---- exec thread ----

    method TakePermit()
      requires Valid() && Enabled(View(), ExecTakePermit)
      modifies this
      ensures Valid() && events == old(events) + [ExecTakePermit] && View() == Next(old(View()), ExecTakePermit)
    {
      exec, phySem := ExecPermit, phySem - 1;
      Record(ExecTakePermit);
    }

    method SetIdle()
      requires Valid() && Enabled(View(), ExecSetIdle)
      modifies this
      ensures Valid() && events == old(events) + [ExecSetIdle] && View() == Next(old(View()), ExecSetIdle)
    {
      exec, phyState := ExecIdle, Idling;
      Record(ExecSetIdle);
    }

    method TakeItem()
      requires Valid() && Enabled(View(), ExecTakeItem)
      modifies this
      ensures Valid() && events == old(events) + [ExecTakeItem] && View() == Next(old(View()), ExecTakeItem)
    {
      exec, itemSem := ExecToken, itemSem - 1;
      Record(ExecTakeItem);
    }

    method LockToPop()
      requires Valid() && Enabled(View(), ExecLock)
      modifies this
      ensures Valid() && events == old(events) + [ExecLock] && View() == Next(old(View()), ExecLock)
    {
      exec, mutex := ExecLocked, ByExec;
      Record(ExecLock);
    }

    /** The list is not empty, and its head is to be served before everything that stays in it. */
    method Pop()
      requires Valid() && Enabled(View(), ExecPop)
      modifies this
      ensures Valid() && events == old(events) + [ExecPop]
      ensures exec.ExecHand? && old(list) == [exec.node] + list && log == old(log) + [exec.node]
      ensures forall n :: n in list ==> Before(exec.node, n) && (Permanent(exec.node) ==> Permanent(n))
    {
      ReachedPop(states, events);
      exec, log := ExecHand(list[0]), log + [list[0]];
      list := list[1..];
      calls := NewEntry(calls);
      Record(ExecPop);
    }

    /** A permanent node goes to the tail, the block of another one is freed. Either way the order of service and the
        turns of the permanent operations are kept. */
    method Requeue()
      requires Valid() && Enabled(View(), ExecRequeue)
      modifies this`exec, this`list, this`clock, this`nodeUsed, this`states, this`events
      ensures Valid() && events == old(events) + [ExecRequeue]
      ensures if Permanent(old(exec.node)) then
                exec == ExecAppended(old(exec.node)) && list == old(list) + [Node(old(exec.node.item), old(clock))]
              else exec == ExecLeaving(old(exec.node)) && list == old(list) && nodeUsed == old(nodeUsed) - 1
      ensures Ordered(list) && Rotation(View()) == old(Rotation(View()))
    {
      ReachedRequeue(states, events);
      PutBackOrFree();
      Append(ExecRequeue);
    }

    method PutBackOrFree()
      requires exec.ExecHand?
      modifies this`exec, this`list, this`clock, this`nodeUsed
      ensures View() == RequeueNode(old(View()))
    {
      var node := exec.node;
      if Permanent(node) {
        exec, list, clock := ExecAppended(node), list + [Node(node.item, clock)], clock + 1;
      } else {
        exec, nodeUsed := ExecLeaving(node), Dec(nodeUsed);
      }
    }

    method GiveAppended()
      requires Valid() && Enabled(View(), ExecGive)
      modifies this
      ensures Valid() && events == old(events) + [ExecGive] && View() == Next(old(View()), ExecGive)
      ensures itemSem == old(itemSem) + 1
    {
      ReachedBuffers(states, events);
      exec, itemSem := ExecLeaving(exec.node), Give(itemSem, MAX_ITEMS);
      Record(ExecGive);
    }

    method UnlockPop()
      requires Valid() && Enabled(View(), ExecUnlock)
      modifies this
      ensures Valid() && events == old(events) + [ExecUnlock] && View() == Next(old(View()), ExecUnlock)
    {
      exec, mutex := ExecPopped(exec.node), Unlocked;
      Record(ExecUnlock);
    }

    method ResetCounter()
      requires Valid() && Enabled(View(), ExecReset)
      modifies this
      ensures Valid() && events == old(events) + [ExecReset] && View() == Next(old(View()), ExecReset)
    {
      exec, failed := ExecReady(exec.node), 0;
      Record(ExecReset);
    }

    /** The exec thread's permit goes to exactly one place: with the operation to the modem, to a placeholder's
        reservation, or it is lost. Every call for the operation has its function and flagged parameters. */
    method Run(answer: bool)
      requires Valid() && Enabled(View(), ExecRun(answer))
      modifies this`exec, this`current, this`phyState, this`jobs, this`calls, this`totals, this`states, this`events
      ensures Valid() && events == old(events) + [ExecRun(answer)]
      ensures exec == ExecWaiting && calls.running == |log| - 1
      ensures |jobs| + totals.lost + totals.placeholders == old(|jobs| + totals.lost + totals.placeholders) + 1
      ensures |calls.trials| == |log| && AllCalls(calls.trials[calls.running], CallFor(old(exec.node.item)))
    {
      ExecuteTaken(answer);
      ReachedRun(states, events, answer, View());
      Append(ExecRun(answer));
    }

    method ExecuteTaken(answer: bool)
      requires exec.ExecReady?
      modifies this`exec, this`current, this`phyState, this`jobs, this`calls, this`totals
      ensures exec == ExecWaiting && PhyView() == Start(old(PhyView()), old(exec.node.item), Dec(|log|), answer)
      ensures |jobs| + totals.lost + totals.placeholders == old(|jobs| + totals.lost + totals.placeholders) + 1
      ensures calls.running == Dec(|log|)
    {
      var item := exec.node.item;
      exec, calls := ExecWaiting, calls.(running := Dec(|log|));
      FunctionExecute(item.op, item.params, answer);
    }

    /** dect_mac_phy_handler_queue_function_execute; the answer is that of the modem call. An execution uses exactly
        one permit. */
    method FunctionExecute(op: Function, params: Params, answer: bool)
      modifies this`current, this`phyState, this`jobs, this`calls, this`totals
      ensures PhyView() == Execute(old(PhyView()), op, params, answer)
      ensures Executed(old(PhyView()), PhyView(), op, params, answer)
      ensures |jobs| + totals.lost + totals.placeholders == old(|jobs| + totals.lost + totals.placeholders) + 1
      ensures calls.running == old(calls.running)
    {
      ExecuteEffect(PhyView(), op, params, answer);
      current := Submission(op, params);
      phyState := Announced(op, phyState);
      if op == Placeholder {
        totals := totals.(placeholders := totals.placeholders + 1);
        return;
      }
      if op != LinkConfig {
        calls := Submitted(calls, Submission(op, Flagged(op, params)));
        if op != RxStop && answer {
          jobs := jobs + [JobFor(op, params)];
          return;
        }
      }
      LosePermit();
    }

    /** Nothing will give the permit of the running operation. */
    method LosePermit()
      modifies this`totals, this`calls
      ensures PhyView() == Lose(old(PhyView()))
    {
      totals := totals.(lost := totals.lost + 1);
      calls := calls.(losses := Bump(calls.losses, calls.running));
    }

    // ---- timer and callbacks ----

    method SemGive()
      modifies this`phySem, this`totals
      ensures PhyView() == GivePermit(old(PhyView()))
    {
      if phySem < 1 {
        phySem := 1;
      } else {
        totals := totals.(absorbed := totals.absorbed + 1);
      }
    }

    method ReturnPermit()
      modifies this`phySem, this`totals, this`calls
      ensures PhyView() == Returned(old(PhyView()))
    {
      calls := calls.(given := Bump(calls.given, calls.running));
      SemGive();
    }

    /** dect_mac_phy_handler_queue_operation_failed_retry: the permit of the failed operation goes to the timer or back
        to the semaphore, or is absorbed where there already is one. */
    method OperationFailedRetry(queued: bool)
      modifies this`failed, this`armed, this`phySem, this`totals, this`calls
      ensures PhyView() == RetryLater(old(PhyView()), queued)
      ensures old(phySem) <= 1 ==> Balance(PhyView()) == old(Balance(PhyView())) + 1 && phySem <= 1
      ensures if old(failed) < MAX_RETRY then armed && phySem == old(phySem) else phySem >= 1 && armed == old(armed)
    {
      failed := failed + 1;
      if failed > MAX_RETRY {
        if queued {
          ReturnPermit();
        } else {
          SemGive();
        }
      } else if armed {
        totals := totals.(absorbed := totals.absorbed + 1);
      } else {
        armed := true;
      }
    }

    /** The timer's permit goes where Run's goes, and the operation is the one started last. */
    method TimerCallback(answer: bool)
      requires Valid() && Enabled(View(), TimerFire(answer))
      modifies this`armed, this`current, this`phyState, this`jobs, this`calls, this`totals, this`states, this`events
      ensures Valid() && events == old(events) + [TimerFire(answer)]
      ensures !armed && calls.running == old(calls.running)
      ensures current.op == old(current.op) && current.params.body == old(current.params.body)
      ensures current.params.handle ==
                if IsRadio(current.op) then MarkQueued(old(current.params.handle)) else old(current.params.handle)
      ensures |jobs| + totals.lost + totals.placeholders == old(|jobs| + totals.lost + totals.placeholders) + 1
      ensures |calls.trials| == |log|
      ensures calls.running < |log| ==> AllCalls(calls.trials[calls.running], CallFor(log[calls.running].item))
    {
      ExecuteAgain(answer);
      ReachedFire(states, events, answer, View());
      Append(TimerFire(answer));
    }

    method ExecuteAgain(answer: bool)
      requires armed
      modifies this`armed, this`current, this`phyState, this`jobs, this`calls, this`totals
      ensures PhyView() == Fire(old(PhyView()), answer) && !armed && calls.running == old(calls.running)
      ensures |jobs| + totals.lost + totals.placeholders == old(|jobs| + totals.lost + totals.placeholders) + 1
    {
      var call := current;
      armed := false;
      FunctionExecute(call.op, call.params, answer);
      current := Submission(call.op, Flagged(call.op, call.params));
    }

    /** The modem keeps the job for its second report, or drops it and the permit with it. */
    method KeepOrLoseJob(i: nat)
      requires i < |jobs|
      modifies this`jobs, this`totals, this`calls
      ensures PhyView() == KeepOrLose(old(PhyView()), i)
    {
      if MoreToCome(jobs[i]) {
        jobs := jobs[i := jobs[i].(second := true)];
      } else {
        jobs := jobs[..i] + jobs[i + 1..];
        LosePermit();
      }
    }

    method DropJob(i: nat)
      requires i < |jobs|
      modifies this`jobs
      ensures PhyView() == RemoveJob(old(PhyView()), i)
    {
      jobs := jobs[..i] + jobs[i + 1..];
    }

    method EarlyRelease(i: nat)
      requires i < |jobs|
      modifies this`jobs, this`totals, this`phySem, this`calls
      ensures PhyView() == Returned(Early(KeepJob(old(PhyView()), i)))
    {
      jobs := jobs[i := jobs[i].(second := true)];
      totals := totals.(early := totals.early + 1);
      ReturnPermit();
    }

    /** dect_mac_phy_op_complete_cb for an operation of the queue: a report moves the permit and makes none. */
    method OpCompleteCallback(i: nat, err: ModemErr)
      requires Valid() && i < |jobs| && IsRadio(jobs[i].op)
      modifies this`failed, this`armed, this`phySem, this`totals, this`calls, this`jobs, this`phyState
      modifies this`states, this`events
      ensures Valid() && events == old(events) + [JobReport(i, err)]
      ensures phySem <= 1 && Balance(PhyView()) == old(Balance(PhyView()))
      ensures Reported(old(PhyView()), PhyView(), i, err)
    {
      DecodeReport(i, err);
      ReachedReport(states, events, i, err, View());
      Append(JobReport(i, err));
    }

    method DecodeReport(i: nat, err: ModemErr)
      requires i < |jobs| && IsRadio(jobs[i].op)
      modifies this`failed, this`armed, this`phySem, this`totals, this`calls, this`jobs, this`phyState
      ensures PhyView() == Report(old(PhyView()), i, err)
    {
      var job := jobs[i];
      if err == InvalidStartTime {
        DropJob(i);
        OperationFailedRetry(true);
      } else if err != NoErr {
        KeepOrLoseJob(i);
      } else if phyState == Transmitting && OperationCode(job.handle) == Code(TxRx) {
        KeepOrLoseJob(i);
        phyState := Receiving;
      } else if !FromQueue(job.handle) {
        KeepOrLoseJob(i);
      } else if MoreToCome(job) {
        EarlyRelease(i);
      } else {
        DropJob(i);
        ReturnPermit();
      }
    }

    /** The callbacks of the other operations: an error keeps the permit, except that a measurement which missed its
        start time is tried again. */
    method PlainCallback(i: nat, err: ModemErr)
      requires Valid() && i < |jobs| && !IsRadio(jobs[i].op)
      modifies this`failed, this`armed, this`phySem, this`totals, this`calls, this`jobs, this`states, this`events
      ensures Valid() && events == old(events) + [JobReport(i, err)]
      ensures phySem <= 1 && Balance(PhyView()) == old(Balance(PhyView()))
      ensures |jobs| == old(|jobs|) - 1
      ensures err == NoErr ==> phySem == 1
      ensures err != NoErr && !(old(jobs[i]).op == Rssi && err == InvalidStartTime) ==>
                phySem == old(phySem) && armed == old(armed) && totals.lost == old(totals.lost) + 1
    {
      EndPlain(i, err);
      ReachedReport(states, events, i, err, View());
      Append(JobReport(i, err));
    }

    method EndPlain(i: nat, err: ModemErr)
      requires i < |jobs| && !IsRadio(jobs[i].op)
      modifies this`failed, this`armed, this`phySem, this`totals, this`calls, this`jobs
      ensures PhyView() == Report(old(PhyView()), i, err) && |jobs| == old(|jobs|) - 1
      ensures err == NoErr ==> phySem >= 1
      ensures err != NoErr && !(old(jobs[i]).op == Rssi && err == InvalidStartTime) ==>
                phySem == old(phySem) && armed == old(armed) && totals.lost == old(totals.lost) + 1
    {
      var op := jobs[i].op;
      DropJob(i);
      if err == NoErr {
        ReturnPermit();
      } else if op == Rssi && err == InvalidStartTime {
        OperationFailedRetry(true);
      } else {
        LosePermit();
      }
    }

    // ---- past the queue ----

    /** The part of dect_mac_harq_request that answers: the acknowledgement goes to the modem, whoever has the permit. */
    method SendAcknowledgement(n: ProcessNumber, answer: bool)
      requires Valid() && CanReceive(PhyView())
      modifies this`owed, this`acks, this`states, this`events
      ensures Valid() && events == old(events) + [Request(n, answer)]
      ensures acks == (if answer then old(acks) + [n] else old(acks)) && owed == old(owed) + 1
    {
      owed := owed + 1;
      if answer {
        acks := acks + [n];
      }
      Record(Request(n, answer));
    }

    /** The part that reserves: without an item nothing will stop the queue while the acknowledgement is sent. */
    method PutPlaceholder() returns (ok: bool)
      requires Valid() && owed > 0
      modifies this`itemUsed, this`callers, this`accepted, this`owed, this`states, this`events
      ensures Valid() && events == old(events) + [PlaceholderAlloc]
      ensures ok <==> old(|msgq| + |callers| + ItemInHand(put)) < MAX_ITEMS
      ensures callers == if ok then old(callers) + [Item(Placeholder, NO_PARAMS, PRIORITY_CRITICAL, |old(accepted)|)]
                         else old(callers)
    {
      ReachedBuffers(states, events);
      ok := AddItem(Placeholder, None, PRIORITY_CRITICAL);
      owed := owed - 1;
      ReachedPlaceholder(states, events, View());
      Append(PlaceholderAlloc);
    }

    /** dect_mac_phy_op_complete_cb for an acknowledgement. */
    method AcknowledgementReport(i: nat, err: ModemErr)
      requires Valid() && i < |acks|
      modifies this`failed, this`armed, this`phySem, this`totals, this`calls, this`acks, this`states, this`events
      ensures Valid() && events == old(events) + [AckReport(i, err)]
      ensures acks == old(acks[..i] + acks[i + 1..])
      ensures phySem <= 1 && Balance(PhyView()) == old(Balance(PhyView()))
    {
      ReachedAck(states, events, i, err);
      EndAcknowledgement(acks[i], err);
      acks := acks[..i] + acks[i + 1..];
      Append(AckReport(i, err));
    }

    method EndAcknowledgement(n: ProcessNumber, err: ModemErr)
      modifies this`failed, this`armed, this`phySem, this`totals, this`calls
      ensures PhyView() == AckReported(old(PhyView()), n, err)
    {
      AcknowledgementReleases(n, phyState);
      if err == InvalidStartTime {
        totals := totals.(late := totals.late + 1);
        OperationFailedRetry(false);
      } else if err == NoErr {
        totals := totals.(acks := totals.acks + 1);
        SemGive();
      }
    }
  }
}
