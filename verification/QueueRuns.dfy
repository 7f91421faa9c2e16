/** Runs of the operation queue in which an acknowledgement does not end when the program expects it to. */
module QueueRuns {
  import opened PhyTypes
  import opened PriorityList
  import opened QueueModel
  import opened QueueBuffers
  import opened QueuePermit
  import opened QueueExclusive
  import opened QueueTheorems

  lemma Extend(states: seq<State>, events: seq<Event>, e: Event) returns (states': seq<State>, events': seq<Event>)
    requires IsRun(states, events) && Enabled(states[|events|], e)
    ensures IsRun(states', events') && |events'| == |events| + 1
    ensures states'[|events'|] == Next(states[|events|], e)
  {
    states', events' := states + [Next(states[|events|], e)], events + [e];
  }

  // ---- rounds of the two threads ----

  /** The put thread waits, and only the given item is on its way to it. */
  predicate ReadyToPut(s: State, item: Item) {
    && s.put == PutWaiting && s.feed.callers == [item] && s.feed.msgq == [] && s.feed.itemUsed == 1
    && s.wait.mutex == Unlocked && s.wait.nodeUsed == |s.wait.list| < MAX_ITEMS && s.wait.itemSem < MAX_ITEMS
  }

  /** After the round of the put thread the item is listed. */
  function Listed(s: State, item: Item): State {
    var w := s.wait;
    s.(feed := Feed(0, [], [], s.feed.accepted),
       wait := Wait(Unlocked, w.nodeUsed + 1, Insert(w.list, Node(item, w.clock)), w.itemSem + 1, w.clock + 1, w.log))
  }

  lemma PutRound(states: seq<State>, events: seq<Event>, item: Item) returns (states': seq<State>, events': seq<Event>)
    requires IsRun(states, events) && ReadyToPut(states[|events|], item)
    ensures IsRun(states', events') && states'[|events'|] == Listed(states[|events|], item)
  {
    states', events' := Extend(states, events, CallerPut(0));
    states', events' := Extend(states', events', PutGet);
    states', events' := Extend(states', events', PutFree);
    states', events' := Extend(states', events', PutLock);
    states', events' := Extend(states', events', PutAlloc);
    states', events' := Extend(states', events', PutLink);
    states', events' := Extend(states', events', PutUnlock);
    states', events' := Extend(states', events', PutGive);
  }

  /** Puts an operation while no other put is under way. */
  lemma Put(states: seq<State>, events: seq<Event>, item: Item) returns (states': seq<State>, events': seq<Event>)
    requires IsRun(states, events)
    requires var s := states[|events|];
             && item.ticket == |s.feed.accepted| && s.put == PutWaiting
             && s.feed.callers == [] && s.feed.msgq == [] && s.feed.itemUsed == 0
             && s.wait.mutex == Unlocked && s.wait.nodeUsed == |s.wait.list| < MAX_ITEMS && s.wait.itemSem < MAX_ITEMS
    ensures IsRun(states', events')
    ensures var s := states[|events|];
            states'[|events'|] == Listed(s.(feed := s.feed.(accepted := s.feed.accepted + [item])), item)
  {
    states', events' := Extend(states, events, CallerAlloc(item.op, Some(item.params), item.priority));
    states', events' := PutRound(states', events', item);
  }

  /** The exec thread can take the permit and the head of the list, which is not permanent. */
  predicate ReadyToDispatch(s: State) {
    && s.exec == ExecWaiting && s.phy.sem == 1 && s.wait.itemSem > 0 && s.wait.mutex == Unlocked
    && s.wait.list != [] && !Permanent(s.wait.list[0])
  }

  /** The exec thread has unlinked the head. */
  function Unlinked(s: State): State
    requires s.wait.list != []
  {
    var w, p := s.wait, s.phy;
    s.(exec := ExecHand(w.list[0]),
       wait := w.(mutex := ByExec, list := w.list[1..], itemSem := Dec(w.itemSem), log := w.log + [w.list[0]]),
       phy := p.(sem := 0, state := Idling, calls := NewEntry(p.calls)))
  }

  function Dispatched(s: State): State
    requires s.wait.list != []
  {
    var u := Unlinked(s);
    u.(exec := ExecWaiting,
       wait := u.wait.(mutex := Unlocked, nodeUsed := Dec(s.wait.nodeUsed)),
       phy := Start(u.phy.(retry := u.phy.retry.(failed := 0)), s.wait.list[0].item, |s.wait.log|, true))
  }

  lemma UnlinkRound(states: seq<State>, events: seq<Event>) returns (states': seq<State>, events': seq<Event>)
    requires IsRun(states, events) && ReadyToDispatch(states[|events|])
    ensures IsRun(states', events') && states'[|events'|] == Unlinked(states[|events|])
  {
    states', events' := Extend(states, events, ExecTakePermit);
    states', events' := Extend(states', events', ExecSetIdle);
    states', events' := Extend(states', events', ExecTakeItem);
    states', events' := Extend(states', events', ExecLock);
    states', events' := Extend(states', events', ExecPop);
  }

  lemma DispatchRound(states: seq<State>, events: seq<Event>) returns (states': seq<State>, events': seq<Event>)
    requires IsRun(states, events) && ReadyToDispatch(states[|events|])
    ensures IsRun(states', events') && states'[|events'|] == Dispatched(states[|events|])
  {
    states', events' := UnlinkRound(states, events);
    states', events' := Extend(states', events', ExecRequeue);
    states', events' := Extend(states', events', ExecUnlock);
    states', events' := Extend(states', events', ExecReset);
    states', events' := Extend(states', events', ExecRun(true));
  }

  // ---- a request is received ----

  const LISTEN: Item := Item(Rx, Params(0x14, 0), 30000, 0)
  const SEND: Item := Item(TxRx, Params(HANDLE_HARQ, 0), 30000, 1)
  const RESERVE: Item := Item(Placeholder, NO_PARAMS, PRIORITY_CRITICAL, 2)

  /** A reception and a HARQ transmission are put; the reception is started. */
  lemma Listening() returns (states: seq<State>, events: seq<Event>)
    ensures IsRun(states, events)
    ensures var s := states[|events|];
            && s.put == PutWaiting && s.exec == ExecWaiting && s.feed == Feed(0, [], [], [LISTEN, SEND])
            && s.wait == Wait(Unlocked, 1, [Node(SEND, 1)], 1, 2, [Node(LISTEN, 0)])
            && s.phy.sem == 0 && s.phy.jobs == [JobFor(Rx, LISTEN.params)] && !s.phy.retry.armed && s.phy.retry.failed == 0
            && s.phy.totals == START.phy.totals && s.phy.calls.running == 0 && s.air == Air(0, [])
  {
    states, events := [START], [];
    states, events := Put(states, events, LISTEN);
    assert states[|events|].wait.list == [Node(LISTEN, 0)];
    states, events := Put(states, events, SEND);
    InsertAt([Node(LISTEN, 0)], Node(SEND, 1), 1);
    assert states[|events|].wait.list == [Node(LISTEN, 0), Node(SEND, 1)];
    states, events := DispatchRound(states, events);
  }

  /** During the reception a request for process 3 arrives; it is acknowledged, and a placeholder is allocated. */
  lemma Requested() returns (states: seq<State>, events: seq<Event>)
    ensures IsRun(states, events)
    ensures var s := states[|events|];
            && s.put == PutWaiting && s.exec == ExecWaiting && s.feed == Feed(1, [RESERVE], [], [LISTEN, SEND, RESERVE])
            && s.wait == Wait(Unlocked, 1, [Node(SEND, 1)], 1, 2, [Node(LISTEN, 0)])
            && s.phy.sem == 0 && s.phy.jobs == [JobFor(Rx, LISTEN.params)] && !s.phy.retry.armed && s.phy.retry.failed == 0
            && s.phy.totals == START.phy.totals && s.phy.calls.running == 0 && s.air == Air(0, [3])
  {
    states, events := Listening();
    assert states[|events|].phy.jobs[0].op == Rx;
    states, events := Extend(states, events, Request(3, true));
    states, events := Extend(states, events, PlaceholderAlloc);
  }

  /** A report on a queued operation that is no TX_RX, or not in its first phase, gives the permit. */
  lemma ReleaseReport(p: Phy, i: nat, op: Function, params: Params)
    requires i < |p.jobs| && p.jobs[i] == JobFor(op, params) && IsRadio(op) && op != TxRx && p.sem == 0
    ensures var t := Report(p, i, NoErr);
            && t.sem == 1 && t.jobs == p.jobs[..i] + p.jobs[i + 1..] && t.state == p.state && t.retry == p.retry
            && t.totals == p.totals && t.calls.running == p.calls.running
  {
    HandleRoundTrip(op, params.handle, p.state);
  }

  /** The acknowledgement ends before its placeholder is executed, while the reception goes on: the permit is free
      under it, and the exec thread can take it and start a second operation. */
  lemma EarlyAcknowledgement() returns (states: seq<State>, events: seq<Event>)
    ensures IsRun(states, events)
    ensures var s := states[|events|];
            && |s.phy.jobs| == 1 && s.phy.sem == 1 && Permits(s) == 2 && ReadyToDispatch(s)
            && s.phy.jobs == [JobFor(Rx, LISTEN.params)] && s.wait.list == [Node(SEND, 1)]
            && s.phy.totals.placeholders == 0 && s.phy.totals.early == 0 && s.exec == ExecWaiting && !s.phy.retry.armed
  {
    states, events := Requested();
    AckGives(states[|events|]);
    states, events := Extend(states, events, AckReport(0, NoErr));
  }

  lemma AckGives(s: State)
    requires s.air.acks != [] && s.phy.sem == 0
    ensures var t := Next(s, AckReport(0, NoErr));
            t == s.(air := t.air, phy := s.phy.(sem := 1, totals := s.phy.totals.(acks := s.phy.totals.acks + 1)))
  {
    AcknowledgementReleases(s.air.acks[0], s.phy.state);
  }

  /** The second operation is the HARQ transmission: receiving and transmitting at once. */
  lemma TwoAtOnce() returns (states: seq<State>, events: seq<Event>)
    ensures IsRun(states, events)
    ensures var s := states[|events|];
            && s.phy.jobs == [JobFor(Rx, LISTEN.params), JobFor(TxRx, SEND.params)] && s.phy.sem == 0
            && s.phy.totals.early == 0 && s.exec == ExecWaiting && !s.phy.retry.armed
  {
    states, events := EarlyAcknowledgement();
    states, events := DispatchRound(states, events);
  }

  /** ... and then the reception ends, the exec thread takes the permit it gave and sets the state to IDLING, and the
      first report of the TX_RX finds that state: its permit is given before its second phase. */
  lemma EarlyPermit() returns (states: seq<State>, events: seq<Event>)
    ensures IsRun(states, events)
    ensures var s := states[|events|];
            && s.phy.totals.early == 1 && s.phy.sem == 1 && Held(s.exec) == 1
            && s.phy.jobs == [JobFor(TxRx, SEND.params).(second := true)] && Permits(s) == 3
  {
    states, events := TwoAtOnce();
    ReleaseReport(states[|events|].phy, 0, Rx, LISTEN.params);
    states, events := Extend(states, events, JobReport(0, NoErr));
    assert states[|events|].phy.jobs == [JobFor(TxRx, SEND.params)];
    states, events := Extend(states, events, ExecTakePermit);
    states, events := Extend(states, events, ExecSetIdle);
    HandleRoundTrip(TxRx, SEND.params.handle, Idling);
    states, events := Extend(states, events, JobReport(0, NoErr));
  }

  /** Not every acknowledgement that ends before its placeholder is executed does harm: here the reception is over and
      the permit is free, and the give is absorbed. The run so far is covered at its end, and not orderly. */
  lemma AbsorbedAcknowledgement() returns (states: seq<State>, events: seq<Event>, s: State)
    ensures IsRun(states, events) && Enabled(s, AckReport(0, NoErr)) && Covered(s, AckReport(0, NoErr))
    ensures states[|events|] == Next(s, AckReport(0, NoErr))
    ensures Permits(states[|events|]) == 1 && Foreign(states[|events|].phy) > states[|events|].phy.totals.placeholders
  {
    states, events := Requested();
    ReleaseReport(states[|events|].phy, 0, Rx, LISTEN.params);
    states, events := Extend(states, events, JobReport(0, NoErr));
    s := states[|events|];
    AcknowledgementReleases(3, s.phy.state);
    states, events := Extend(states, events, AckReport(0, NoErr));
  }

  // ---- an acknowledgement that misses its start time ----

  /** The reception ends, and the placeholder is executed before the acknowledgement ends, as intended. */
  lemma Reserved() returns (states: seq<State>, events: seq<Event>)
    ensures IsRun(states, events)
    ensures var s := states[|events|];
            && Permits(s) == 0 && s.air.acks == [3] && s.phy.retry.current.op == Placeholder && s.phy.retry.failed == 0
            && s.phy.totals.placeholders == 1 && s.phy.totals.late == 0
            && s.phy.totals.lost == 0 && s.wait.list == [Node(SEND, 1)]
  {
    states, events := Requested();
    states, events := PutRound(states, events, RESERVE);
    assert states[|events|].wait.list == [Node(RESERVE, 2), Node(SEND, 1)];
    ReleaseReport(states[|events|].phy, 0, Rx, LISTEN.params);
    states, events := Extend(states, events, JobReport(0, NoErr));
    states, events := DispatchRound(states, events);
  }

  /** A reservation whose only acknowledgement misses its start time ends in a stopped queue: the retry timer executes
      the placeholder again. */
  lemma LateReservationStops(s: State, accepted: bool)
    requires Permits(s) == 0 && |s.air.acks| == 1 && s.phy.retry.current.op == Placeholder && s.phy.retry.failed < MAX_RETRY
    ensures var late := Next(s, AckReport(0, InvalidStartTime));
            Enabled(late, TimerFire(accepted))
            && var t := Next(late, TimerFire(accepted));
               Stopped(t) && t.wait == s.wait && t.phy.totals.placeholders == s.phy.totals.placeholders + 1
               && t.phy.totals.late == s.phy.totals.late + 1 && t.phy.totals.lost == s.phy.totals.lost
  {
  }

  /** So it goes here, with the transmission still listed. */
  lemma LateAcknowledgement() returns (states: seq<State>, events: seq<Event>)
    ensures IsRun(states, events) && Stopped(states[|events|])
    ensures var s := states[|events|];
            s.wait.list == [Node(SEND, 1)] && s.phy.totals.placeholders == 2 && s.phy.totals.late == 1
            && s.phy.totals.lost == 0
  {
    states, events := Reserved();
    LateReservationStops(states[|events|], true);
    states, events := Extend(states, events, AckReport(0, InvalidStartTime));
    states, events := Extend(states, events, TimerFire(true));
  }
}
