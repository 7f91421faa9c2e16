/** The operation queue of src/dect_mac_phy_handler_queue.c as an interleaved step system: any number of
    callers, the put thread, the exec thread, the retry timer and the modem callbacks. One step is one
    access to something shared; a thread's position is its program counter. The fields marked as
    bookkeeping serve the properties: no step tests them. */
module QueueModel {
  import opened PhyTypes
  import opened PriorityList

  const MAX_ITEMS: nat := 8
  const MAX_RETRY: nat := 10
  const PRIORITY_CRITICAL: nat := 0xFFFF_FFFF

  /** A HARQ process number in a header has three bits. */
  type ProcessNumber = n: bv32 | n < 8

  datatype PutPc =
    | PutWaiting               // at k_msgq_get
    | PutHolding(item: Item)   // has the item pointer, slab block not yet freed
    | PutCopied(item: Item)    // item copied and freed, at k_mutex_lock
    | PutLocked(item: Item)
    | PutNode(item: Item)      // node allocated, not linked
    | PutLinked                // linked, mutex still held
    | PutUnlocked              // at k_sem_give
    | PutStuck(item: Item)     // returned without a node, the mutex is never unlocked
    | PutFull(item: Item)      // returned from the "queue is full" branch

  datatype ExecPc =
    | ExecWaiting              // at k_sem_take of the PHY permit
    | ExecPermit
    | ExecIdle                 // state set to IDLING, at k_sem_take of the item count
    | ExecToken
    | ExecLocked
    | ExecHand(node: Node)     // node unlinked
    | ExecAppended(node: Node) // permanent node back in the list, count not yet given
    | ExecLeaving(node: Node)
    | ExecPopped(node: Node)   // mutex unlocked
    | ExecReady(node: Node)    // retry counter reset
    | ExecFault                // took a node from an empty list

  datatype Mutex = Unlocked | ByPut | ByExec

  /** An operation the modem works on. A TX_RX reports twice. */
  datatype Job = Job(op: Function, handle: bv32, second: bool)

  /** One call into the modem. */
  datatype Submission = Submission(op: Function, params: Params)

  /** Between the callers and the put thread. */
  datatype Feed = Feed(
    itemUsed: nat,                // blocks of the item slab
    callers: seq<Item>,           // items of callers between alloc and k_msgq_put
    msgq: seq<Item>,
    accepted: seq<Item>)          // bookkeeping: every accepted put, by ticket

  /** Between the put thread and the exec thread. */
  datatype Wait = Wait(
    mutex: Mutex,
    nodeUsed: nat,                // blocks of the node slab
    list: seq<Node>,
    itemSem: nat,                 // queue_item_sem
    clock: nat,                   // bookkeeping: insertions into the list so far
    log: seq<Node>)               // bookkeeping: every node taken by the exec thread

  /** What is kept for a retry. */
  datatype Pending = Pending(
    current: Submission,          // current_node
    failed: nat,                  // operation_failed_counter
    armed: bool)                  // operation_failed_timer

  /** Bookkeeping of the operations started. */
  datatype Calls = Calls(
    running: nat,                 // index in the log of the operation saved in current_node
    trials: seq<seq<Submission>>, // per log entry, the calls made for it
    given: seq<nat>,              // per log entry, how often its end gave the permit
    losses: seq<nat>)             // per log entry, how often its end kept the permit

  /** Bookkeeping of the permit. */
  datatype Totals = Totals(
    placeholders: nat,            // placeholders executed
    acks: nat,                    // acknowledgements sent past the queue and completed
    late: nat,                    // ... and failed with an invalid start time
    early: nat,                   // permits given at the first report of a TX_RX
    lost: nat,                    // permits nothing will give
    absorbed: nat)                // permits given when the permit, or the timer, was already there

  /** Between the exec thread and the modem. */
  datatype Phy = Phy(
    sem: nat,                     // phy_layer_sem
    retry: Pending,
    state: PhyState,              // current_state
    jobs: seq<Job>,               // what the modem still owes reports for
    calls: Calls,
    totals: Totals)

  /** What requests of other devices set off past the queue. */
  datatype Air = Air(
    owed: nat,                    // request callbacks that have sent their answer and not yet put a placeholder
    acks: seq<ProcessNumber>)     // acknowledgements with the modem, by HARQ process

  datatype State = State(feed: Feed, put: PutPc, wait: Wait, exec: ExecPc, phy: Phy, air: Air)

  /** Boot: nothing is put, nothing waits, and the permit is free. */
  const START := State(Feed(0, [], [], []), PutWaiting, Wait(Unlocked, 0, [], 0, 0, []), ExecWaiting,
                       Phy(1, Pending(Submission(Placeholder, NO_PARAMS), 0, false), Idling, [],
                           Calls(0, [], [], []), Totals(0, 0, 0, 0, 0, 0)),
                       Air(0, []))

  datatype Event =
    | CallerAlloc(op: Function, params: Option<Params>, priority: nat)
    | CallerPut(i: nat)
    | PutGet | PutFree | PutLock | PutAlloc | PutLink | PutUnlock | PutGive
    | ExecTakePermit | ExecSetIdle | ExecTakeItem | ExecLock | ExecPop | ExecRequeue | ExecGive
    | ExecUnlock | ExecReset | ExecRun(accepted: bool)
    | JobReport(i: nat, err: ModemErr)
    | TimerFire(accepted: bool)
    | Request(process: ProcessNumber, accepted: bool)
    | PlaceholderAlloc
    | AckReport(i: nat, err: ModemErr)

  /** The step can be taken now: the thread is there and does not block. */
  predicate Enabled(s: State, e: Event) {
    match e
    case CallerAlloc(_, _, _) => true
    case CallerPut(i) => i < |s.feed.callers| && |s.feed.msgq| < MAX_ITEMS
    case PutGet => s.put == PutWaiting && s.feed.msgq != []
    case PutFree => s.put.PutHolding?
    case PutLock => s.put.PutCopied? && s.wait.mutex == Unlocked
    case PutAlloc => s.put.PutLocked?
    case PutLink => s.put.PutNode?
    case PutUnlock => s.put.PutLinked?
    case PutGive => s.put.PutUnlocked?
    case ExecTakePermit => s.exec.ExecWaiting? && s.phy.sem > 0
    case ExecSetIdle => s.exec.ExecPermit?
    case ExecTakeItem => s.exec.ExecIdle? && s.wait.itemSem > 0
    case ExecLock => s.exec.ExecToken? && s.wait.mutex == Unlocked
    case ExecPop => s.exec.ExecLocked?
    case ExecRequeue => s.exec.ExecHand?
    case ExecGive => s.exec.ExecAppended?
    case ExecUnlock => s.exec.ExecLeaving?
    case ExecReset => s.exec.ExecPopped?
    case ExecRun(_) => s.exec.ExecReady?
    case JobReport(i, _) => i < |s.phy.jobs|
    case TimerFire(_) => s.phy.retry.armed
    case Request(_, _) => CanReceive(s.phy)
    case PlaceholderAlloc => s.air.owed > 0
    case AckReport(i, _) => i < |s.air.acks|
  }

  function Next(s: State, e: Event): State
    requires Enabled(s, e)
  {
    match e
    case CallerAlloc(op, params, priority) => s.(feed := AllocItem(s.feed, op, params, priority))
    case CallerPut(i) => s.(feed := SendItem(s.feed, i))
    case PutGet => s.(put := PutHolding(s.feed.msgq[0]), feed := s.feed.(msgq := s.feed.msgq[1..]))
    case PutFree => s.(put := PutCopied(s.put.item), feed := s.feed.(itemUsed := Dec(s.feed.itemUsed)))
    case PutLock => s.(put := PutLocked(s.put.item), wait := s.wait.(mutex := ByPut))
    case PutAlloc => AllocNode(s)
    case PutLink => LinkNode(s)
    case PutUnlock => s.(put := PutUnlocked, wait := s.wait.(mutex := Unlocked))
    case PutGive => s.(put := PutWaiting, wait := s.wait.(itemSem := Give(s.wait.itemSem, MAX_ITEMS)))
    case ExecTakePermit => s.(exec := ExecPermit, phy := s.phy.(sem := s.phy.sem - 1))
    case ExecSetIdle => s.(exec := ExecIdle, phy := s.phy.(state := Idling))
    case ExecTakeItem => s.(exec := ExecToken, wait := s.wait.(itemSem := s.wait.itemSem - 1))
    case ExecLock => s.(exec := ExecLocked, wait := s.wait.(mutex := ByExec))
    case ExecPop => PopNode(s)
    case ExecRequeue => RequeueNode(s)
    case ExecGive =>
      s.(exec := ExecLeaving(s.exec.node), wait := s.wait.(itemSem := Give(s.wait.itemSem, MAX_ITEMS)))
    case ExecUnlock => s.(exec := ExecPopped(s.exec.node), wait := s.wait.(mutex := Unlocked))
    case ExecReset =>
      s.(exec := ExecReady(s.exec.node), phy := s.phy.(retry := s.phy.retry.(failed := 0)))
    case ExecRun(accepted) =>
      s.(exec := ExecWaiting, phy := Start(s.phy, s.exec.node.item, Dec(|s.wait.log|), accepted))
    case JobReport(i, err) => s.(phy := Report(s.phy, i, err))
    case TimerFire(accepted) => s.(phy := Fire(s.phy, accepted))
    case Request(n, accepted) => s.(air := Answered(s.air, n, accepted))
    case PlaceholderAlloc =>
      s.(feed := AllocItem(s.feed, Placeholder, None, PRIORITY_CRITICAL), air := s.air.(owed := s.air.owed - 1))
    case AckReport(i, err) => s.(phy := AckReported(s.phy, s.air.acks[i], err), air := AckEnded(s.air, i))
  }

  function Dec(n: nat): nat {
    if n > 0 then n - 1 else 0
  }

  /** k_sem_give: a semaphore saturates at its limit. */
  function Give(count: nat, limit: nat): nat {
    if count < limit then count + 1 else count
  }

  function Bump(counts: seq<nat>, i: nat): (r: seq<nat>) {
    if i < |counts| then counts[i := counts[i] + 1] else counts
  }

  // ---- callers and put thread ----

  /** The allocation of dect_phy_queue_put; it is refused when the slab is exhausted. */
  function AllocItem(f: Feed, op: Function, params: Option<Params>, priority: nat): Feed {
    if f.itemUsed < MAX_ITEMS then
      var item := Item(op, if params.Some? then params.value else NO_PARAMS, priority, |f.accepted|);
      Feed(f.itemUsed + 1, f.callers + [item], f.msgq, f.accepted + [item])
    else f
  }

  function SendItem(f: Feed, i: nat): Feed
    requires i < |f.callers|
  {
    f.(callers := f.callers[..i] + f.callers[i + 1..], msgq := f.msgq + [f.callers[i]])
  }

  function AllocNode(s: State): State
    requires s.put.PutLocked?
  {
    if s.wait.nodeUsed < MAX_ITEMS then
      s.(put := PutNode(s.put.item), wait := s.wait.(nodeUsed := s.wait.nodeUsed + 1))
    else s.(put := PutStuck(s.put.item))
  }

  function LinkNode(s: State): State
    requires s.put.PutNode?
  {
    var w := s.wait;
    if |w.list| >= MAX_ITEMS then s.(put := PutFull(s.put.item), wait := w.(mutex := Unlocked))
    else s.(put := PutLinked, wait := w.(list := Insert(w.list, Node(s.put.item, w.clock)), clock := w.clock + 1))
  }

  // ---- exec thread ----

  function PopNode(s: State): State
    requires s.exec.ExecLocked?
  {
    var w := s.wait;
    if w.list == [] then s.(exec := ExecFault)
    else s.(wait := w.(list := w.list[1..], log := w.log + [w.list[0]]), exec := ExecHand(w.list[0]),
            phy := s.phy.(calls := NewEntry(s.phy.calls)))
  }

  function NewEntry(c: Calls): Calls {
    Calls(c.running, c.trials + [[]], c.given + [0], c.losses + [0])
  }

  function RequeueNode(s: State): State
    requires s.exec.ExecHand?
  {
    var node, w := s.exec.node, s.wait;
    if Permanent(node) then
      s.(exec := ExecAppended(node), wait := w.(list := w.list + [Node(node.item, w.clock)], clock := w.clock + 1))
    else s.(exec := ExecLeaving(node), wait := w.(nodeUsed := Dec(w.nodeUsed)))
  }

  /** The four radio operations carry the queue flag in their handle, the others are passed as they are. */
  function Flagged(op: Function, params: Params): Params {
    if IsRadio(op) then params.(handle := MarkQueued(params.handle)) else params
  }

  /** The state the handler of an operation announces. */
  function Announced(op: Function, before: PhyState): PhyState {
    match op
    case Placeholder => Unknown
    case CapabilityGet => GettingCapability
    case Init => Initializing
    case Deinit => Deinitializing
    case Rx => Receiving
    case Tx => Transmitting
    case TxHarq => before
    case TxRx => Transmitting
    case Rssi => MeasuringRssi
    case RxStop => StoppingReception
    case LinkConfig => before
    case TimeGet => GettingTime
  }

  /** The exec thread starts the operation at the given index of the log. */
  function Start(p: Phy, item: Item, index: nat, accepted: bool): Phy {
    Execute(p.(calls := p.calls.(running := index)), item.op, item.params, accepted)
  }

  /** dect_mac_phy_handler_queue_function_execute; accepted is the answer of the modem call. */
  function Execute(p: Phy, op: Function, params: Params, accepted: bool): Phy {
    var p1 := p.(retry := p.retry.(current := Submission(op, params)), state := Announced(op, p.state));
    if op == Placeholder then p1.(totals := p.totals.(placeholders := p.totals.placeholders + 1))
    else if op == LinkConfig then Lose(p1)
    else
      var p2 := p1.(calls := Submitted(p.calls, Submission(op, Flagged(op, params))));
      if op == RxStop || !accepted then Lose(p2)
      else p2.(jobs := p.jobs + [JobFor(op, params)])
  }

  function JobFor(op: Function, params: Params): Job {
    Job(op, if IsRadio(op) then TrueHandle(op, Flagged(op, params).handle) else 0, false)
  }

  function Submitted(c: Calls, call: Submission): Calls {
    if c.running < |c.trials| then c.(trials := c.trials[c.running := c.trials[c.running] + [call]]) else c
  }

  /** The operation is over for the program and nothing will give its permit. */
  function Lose(p: Phy): Phy {
    p.(totals := p.totals.(lost := p.totals.lost + 1),
       calls := p.calls.(losses := Bump(p.calls.losses, p.calls.running)))
  }

  // ---- callbacks and timer ----

  function GivePermit(p: Phy): Phy {
    if p.sem < 1 then p.(sem := 1) else Absorb(p)
  }

  function Absorb(p: Phy): Phy {
    p.(totals := p.totals.(absorbed := p.totals.absorbed + 1))
  }

  function Returned(p: Phy): Phy {
    GivePermit(p.(calls := p.calls.(given := Bump(p.calls.given, p.calls.running))))
  }

  /** dect_mac_phy_handler_queue_operation_failed_retry; queued tells whether an operation of the queue failed. */
  function RetryLater(p: Phy, queued: bool): Phy {
    var p1 := p.(retry := p.retry.(failed := p.retry.failed + 1));
    if p1.retry.failed > MAX_RETRY then (if queued then Returned(p1) else GivePermit(p1))
    else if p1.retry.armed then Absorb(p1)
    else p1.(retry := p1.retry.(armed := true))
  }

  function Disarmed(p: Phy): Phy {
    p.(retry := p.retry.(armed := false))
  }

  function Fire(p: Phy, accepted: bool): Phy
    requires p.retry.armed
  {
    var call := p.retry.current;
    var p1 := Execute(Disarmed(p), call.op, call.params, accepted);
    // the flag is set in current_node itself
    p1.(retry := p1.retry.(current := Submission(call.op, Flagged(call.op, call.params))))
  }

  function RemoveJob(p: Phy, i: nat): Phy
    requires i < |p.jobs|
  {
    p.(jobs := p.jobs[..i] + p.jobs[i + 1..])
  }

  /** The report of job i is in, its second one is still to come. */
  function KeepJob(p: Phy, i: nat): Phy
    requires i < |p.jobs|
  {
    p.(jobs := p.jobs[i := p.jobs[i].(second := true)])
  }

  /** After this report the modem owes the second report of a TX_RX, or nothing. */
  predicate MoreToCome(j: Job) {
    j.op == TxRx && !j.second
  }

  /** The operation goes on, or it is over without a permit. */
  function KeepOrLose(p: Phy, i: nat): Phy
    requires i < |p.jobs|
  {
    if MoreToCome(p.jobs[i]) then KeepJob(p, i) else Lose(RemoveJob(p, i))
  }

  function Report(p: Phy, i: nat, err: ModemErr): Phy
    requires i < |p.jobs|
  {
    var j := p.jobs[i];
    if IsRadio(j.op) then
      match OpComplete(p.state, err, j.handle)
      case Retry => RetryLater(RemoveJob(p, i), true)
      case Ignore => KeepOrLose(p, i)
      case SwitchToReception(_) => KeepOrLose(p, i).(state := Receiving)
      case Release =>
        if MoreToCome(j) then Returned(Early(KeepJob(p, i)))
        else Returned(RemoveJob(p, i))
      case NotOurs => KeepOrLose(p, i)
    else if err == NoErr then Returned(RemoveJob(p, i))
    // only a measurement that fails is reported to op_complete, with a handle that the queue did not flag
    else if j.op == Rssi && err == InvalidStartTime then RetryLater(RemoveJob(p, i), true)
    else Lose(RemoveJob(p, i))
  }

  function Early(p: Phy): Phy {
    p.(totals := p.totals.(early := p.totals.early + 1))
  }

  function Late(p: Phy): Phy {
    p.(totals := p.totals.(late := p.totals.late + 1))
  }

  function Acked(p: Phy): Phy {
    p.(totals := p.totals.(acks := p.totals.acks + 1))
  }

  /** Headers arrive only while the modem receives: during an RX, or in the second phase of a TX_RX. */
  predicate CanReceive(p: Phy) {
    exists k :: 0 <= k < |p.jobs| && (p.jobs[k].op == Rx || (p.jobs[k].op == TxRx && p.jobs[k].second))
  }

  /** dect_mac_harq_request: the acknowledgement goes to the modem past the queue; the placeholder is put next. */
  function Answered(a: Air, n: ProcessNumber, accepted: bool): Air {
    Air(a.owed + 1, if accepted then a.acks + [n] else a.acks)
  }

  function AckEnded(a: Air, i: nat): Air
    requires i < |a.acks|
  {
    a.(acks := a.acks[..i] + a.acks[i + 1..])
  }

  /** The end of an acknowledgement, which dect_mac_harq_request started without the queue. */
  function AckReported(p: Phy, n: ProcessNumber, err: ModemErr): Phy {
    match OpComplete(p.state, err, TrueHandle(TxHarq, (HANDLE_HARQ + n) | QUEUE_FLAG))
    case Retry => RetryLater(Late(p), false)
    case Release => GivePermit(Acked(p))
    case _ => p
  }

  // ---- runs ----

  /** The states of a run, one more than its events. */
  ghost predicate IsRun(states: seq<State>, events: seq<Event>) {
    && |states| == |events| + 1
    && states[0] == START
    && IsSegment(states, events)
  }

  ghost predicate IsSegment(states: seq<State>, events: seq<Event>) {
    && |states| == |events| + 1
    && forall i :: 0 <= i < |events| ==> Enabled(states[i], events[i]) && states[i + 1] == Next(states[i], events[i])
  }
}
