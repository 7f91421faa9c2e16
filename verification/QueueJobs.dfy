/** The operations the modem works on: what was handed to it for which operation, and how a report ends one. */
module QueueJobs {
  import opened PhyTypes
  import opened PriorityList
  import opened QueueModel
  import opened QueueBuffers
  import opened QueuePermit
  import opened QueueExclusive
  import opened QueueTheorems

  /** The job is the given operation: its function and, for a radio operation, its own handle, flagged, under the
      code of the function. */
  predicate JobOf(j: Job, item: Item) {
    j.op == item.op && (IsRadio(j.op) ==> j.handle == TrueHandle(j.op, MarkQueued(item.params.handle)))
  }

  /** The job is for the k-th dispatched operation, which was handed to the modem at least once. */
  ghost predicate HandedFor(j: Job, log: seq<Node>, p: Phy, k: nat) {
    k < |log| && k < |p.calls.trials| && p.calls.trials[k] != [] && JobOf(j, log[k].item)
  }

  ghost predicate Owned(log: seq<Node>, p: Phy) {
    forall j :: j in p.jobs ==> exists k :: HandedFor(j, log, p, k)
  }

  /** The only job of a covered run is for the operation started last, and current_state tells its phase. */
  ghost predicate Current(log: seq<Node>, p: Phy) {
    p.jobs != [] ==>
      && p.calls.running < |log| && JobOf(p.jobs[0], log[p.calls.running].item)
      && (p.jobs[0].second ==> p.jobs[0].op == TxRx)
      && Shows(p.state, p.jobs[0])
  }

  predicate Shows(state: PhyState, j: Job) {
    match j.op
    case CapabilityGet => state == GettingCapability
    case Init => state == Initializing
    case Deinit => state == Deinitializing
    case Rx => state == Receiving
    case Tx => state == Transmitting
    case TxRx => if j.second then state == Transmitting || state == Receiving else state == Transmitting
    case Rssi => state == MeasuringRssi
    case TimeGet => state == GettingTime
    case _ => true
  }

  // ---- what a start and a report do, in any state ----

  /** An execution in terms of what it must do: a placeholder reserves, an operation that the modem takes becomes a job
      with its own handle and is announced, and the permit of any other one is lost. */
  ghost predicate Executed(p: Phy, t: Phy, op: Function, params: Params, answer: bool) {
    && t.retry == p.retry.(current := Submission(op, params)) && t.sem == p.sem
    && (if op == Placeholder then
          t.jobs == p.jobs && t.totals == p.totals.(placeholders := p.totals.placeholders + 1) && t.state == Unknown
        else if op == LinkConfig || op == RxStop || !answer then
          t.jobs == p.jobs && t.totals == p.totals.(lost := p.totals.lost + 1)
        else
          && |t.jobs| == |p.jobs| + 1 && t.jobs[..|p.jobs|] == p.jobs && t.totals == p.totals
          && var j := t.jobs[|p.jobs|];
             j.op == op && !j.second && Shows(t.state, j)
             && (IsRadio(op) ==> j.handle == TrueHandle(op, MarkQueued(params.handle))))
  }

  lemma ExecuteEffect(p: Phy, op: Function, params: Params, answer: bool)
    ensures Executed(p, Execute(p, op, params, answer), op, params, answer)
  {
  }

  /** A report on radio job i in terms of what it must do. It is taken for the first report of a TX_RX if the state is
      still TRANSMITTING. */
  ghost predicate Reported(p: Phy, t: Phy, i: nat, err: ModemErr)
    requires i < |p.jobs|
  {
    var j := p.jobs[i];
    var more := j.op == TxRx && !j.second;
    var first := j.op == TxRx && p.state == Transmitting;
    && t.jobs == (if more && err != InvalidStartTime then p.jobs[i := j.(second := true)] else p.jobs[..i] + p.jobs[i + 1..])
    && t.state == (if err == NoErr && first then PhyState.Receiving else p.state)
    && t.retry.current == p.retry.current
    && (if err == InvalidStartTime then
          && t.totals.lost == p.totals.lost && t.retry.failed == p.retry.failed + 1
          && (if p.retry.failed < MAX_RETRY then t.retry.armed && t.sem == p.sem
              else t.sem == (if p.sem == 0 then 1 else p.sem) && t.retry.armed == p.retry.armed)
        else if err != NoErr || first then
          && t.sem == p.sem && t.retry == p.retry
          && t.totals == p.totals.(lost := p.totals.lost + (if more then 0 else 1))
        else
          && t.sem == (if p.sem == 0 then 1 else p.sem) && t.retry == p.retry && t.totals.lost == p.totals.lost)
  }

  lemma ReportEffect(p: Phy, i: nat, err: ModemErr)
    requires i < |p.jobs| && IsRadio(p.jobs[i].op) && GoodJob(p.jobs[i])
    ensures Reported(p, Report(p, i, err), i, err)
  {
    var handle: bv32 :| p.jobs[i].handle == TrueHandle(p.jobs[i].op, MarkQueued(handle));
    HandleRoundTrip(p.jobs[i].op, handle, p.state);
  }

  // ---- every run ----

  lemma StillOwned(log: seq<Node>, p: Phy, log': seq<Node>, t: Phy)
    requires Owned(log, p) && log <= log' && |p.calls.trials| <= |t.calls.trials|
    requires forall k :: 0 <= k < |p.calls.trials| && p.calls.trials[k] != [] ==> t.calls.trials[k] != []
    requires forall j :: j in t.jobs ==> j in p.jobs || exists i :: i in p.jobs && j == i.(second := true)
    ensures Owned(log', t)
  {
    forall j | j in t.jobs ensures exists k :: HandedFor(j, log', t, k) {
      var i :| i in p.jobs && (j == i || j == i.(second := true));
      var k :| HandedFor(i, log, p, k);
      assert HandedFor(j, log', t, k);
    }
  }

  lemma ExecuteOwned(log: seq<Node>, p: Phy, op: Function, params: Params, accepted: bool)
    requires Owned(log, p) && Entries(log, p)
    requires op != Placeholder ==>
               p.calls.running < |log| && Submission(op, Flagged(op, params)) == CallFor(log[p.calls.running].item)
    ensures Owned(log, Execute(p, op, params, accepted))
  {
    var t := Execute(p, op, params, accepted);
    forall j | j in t.jobs ensures exists k :: HandedFor(j, log, t, k) {
      if j in p.jobs {
        var k :| HandedFor(j, log, p, k);
        assert HandedFor(j, log, t, k);
      } else {
        assert HandedFor(j, log, t, p.calls.running);
      }
    }
  }

  lemma ReportJobs(p: Phy, i: nat, err: ModemErr)
    requires i < |p.jobs|
    ensures forall j :: j in Report(p, i, err).jobs ==> j in p.jobs || j == p.jobs[i].(second := true)
    ensures Report(p, i, err).calls.trials == p.calls.trials
  {
    JobsKept(p, i);
  }

  lemma RunOwned(s: State, accepted: bool)
    requires Ledger(s) && Owned(s.wait.log, s.phy) && s.exec.ExecReady?
    ensures Owned(s.wait.log, Start(s.phy, s.exec.node.item, Dec(|s.wait.log|), accepted))
  {
    var item := s.exec.node.item;
    var p := s.phy.(calls := s.phy.calls.(running := Dec(|s.wait.log|)));
    StillOwned(s.wait.log, s.phy, s.wait.log, p);
    ExecuteOwned(s.wait.log, p, item.op, item.params, accepted);
  }

  lemma FireOwned(s: State, accepted: bool)
    requires Ledger(s) && Owned(s.wait.log, s.phy) && s.phy.retry.armed
    ensures Owned(s.wait.log, Fire(s.phy, accepted))
  {
    var p := Disarmed(s.phy);
    StillOwned(s.wait.log, s.phy, s.wait.log, p);
    ExecuteOwned(s.wait.log, p, s.phy.retry.current.op, s.phy.retry.current.params, accepted);
    StillOwned(s.wait.log, Execute(p, s.phy.retry.current.op, s.phy.retry.current.params, accepted),
               s.wait.log, Fire(s.phy, accepted));
  }

  /** Callbacks and pops start nothing. */
  lemma OthersOwned(s: State, e: Event)
    requires Buffers(s) && Owned(s.wait.log, s.phy) && Enabled(s, e) && !e.ExecRun? && !e.TimerFire?
    requires |s.phy.calls.trials| == |s.wait.log|
    ensures Owned(Next(s, e).wait.log, Next(s, e).phy)
  {
    if e.JobReport? {
      ReportJobs(s.phy, e.i, e.err);
    } else if e.AckReport? {
      AckCallsNothing(s.phy, s.air.acks[e.i], e.err);
    } else if !e.ExecPop? {
      QuietStep(s, e);
    }
    StillOwned(s.wait.log, s.phy, Next(s, e).wait.log, Next(s, e).phy);
  }

  lemma StepOwned(s: State, e: Event)
    requires Buffers(s) && Ledger(s) && Owned(s.wait.log, s.phy) && Enabled(s, e)
    ensures Owned(Next(s, e).wait.log, Next(s, e).phy)
  {
    match e {
      case ExecRun(accepted) => RunOwned(s, accepted);
      case TimerFire(accepted) => FireOwned(s, accepted);
      case _ => OthersOwned(s, e);
    }
  }

  /** In every run each job with the modem is for an operation that was dispatched and handed to it, with that
      operation's function and its own flagged handle. */
  lemma {:induction false} JobsAreAsPut(states: seq<State>, events: seq<Event>, i: nat)
    requires IsRun(states, events) && i < |states|
    ensures var s := states[i]; forall j :: j in s.phy.jobs ==> exists k :: HandedFor(j, s.wait.log, s.phy, k)
  {
    if i > 0 {
      JobsAreAsPut(states, events, i - 1);
      RunParts(states, events, i - 1);
      StepOwned(states[i - 1], events[i - 1]);
    }
  }

  // ---- covered runs ----

  lemma ExecuteCurrent(log: seq<Node>, p: Phy, op: Function, params: Params, accepted: bool)
    requires p.jobs == []
    requires op != Placeholder ==>
               p.calls.running < |log| && Submission(op, Flagged(op, params)) == CallFor(log[p.calls.running].item)
    ensures Current(log, Execute(p, op, params, accepted))
  {
  }

  /** How a report ends the only job of the modem, while nobody else has a permit. A missed start time arms the timer,
      or gives the permit when there were too many. Else the first report of a TX_RX leaves the permit where it is, and
      the last report gives it on success and loses it on an error -- and also when a TX_RX whose first report was an
      error ends well, because that report is taken for the first one. */
  ghost predicate Settles(p: Phy, t: Phy, err: ModemErr)
    requires |p.jobs| == 1 && p.calls.running < |p.calls.given|
  {
    var j, r := p.jobs[0], p.calls.running;
    var once := p.calls.given[r := p.calls.given[r] + 1];
    if err == InvalidStartTime && (IsRadio(j.op) || j.op == Rssi) then
      && t.jobs == [] && t.totals == p.totals && t.calls.losses == p.calls.losses
      && (if p.retry.failed < MAX_RETRY then
            t.retry.armed && t.retry.failed == p.retry.failed + 1 && t.sem == 0 && t.calls.given == p.calls.given
          else !t.retry.armed && t.sem == 1 && t.calls.given == once)
    else if j.op == TxRx && !j.second then
      && t.jobs == [j.(second := true)] && t.sem == 0 && t.retry == p.retry && t.totals == p.totals && t.calls == p.calls
      && t.state == (if err == NoErr then PhyState.Receiving else p.state)
    else if err == NoErr && (j.op == TxRx ==> p.state == PhyState.Receiving) then
      && t.jobs == [] && t.sem == 1 && t.retry == p.retry && t.totals == p.totals
      && t.calls == p.calls.(given := once)
    else
      && t.jobs == [] && t.sem == 0 && t.retry == p.retry && t.calls.given == p.calls.given
      && t.totals == p.totals.(lost := p.totals.lost + 1)
  }

  lemma ReportSettles(p: Phy, err: ModemErr)
    requires |p.jobs| == 1 && !p.retry.armed && p.sem == 0 && GoodJob(p.jobs[0]) && p.calls.running < |p.calls.given|
    requires MoreToCome(p.jobs[0]) ==> p.state == Transmitting
    requires Shows(p.state, p.jobs[0]) && (p.jobs[0].second ==> p.jobs[0].op == TxRx)
    ensures Settles(p, Report(p, 0, err), err)
  {
    if IsRadio(p.jobs[0].op) {
      var handle: bv32 :| p.jobs[0].handle == TrueHandle(p.jobs[0].op, MarkQueued(handle));
      HandleRoundTrip(p.jobs[0].op, handle, p.state);
    }
    assert RemoveJob(p, 0).jobs == [];
    assert KeepJob(p, 0).jobs == [p.jobs[0].(second := true)];
  }

  lemma SettledCurrent(log: seq<Node>, p: Phy, t: Phy, err: ModemErr)
    requires |p.jobs| == 1 && p.calls.running < |p.calls.given| && Current(log, p) && Settles(p, t, err)
    ensures Current(log, t)
  {
  }

  lemma StartCurrent(s: State, e: Event)
    requires Ledger(s) && Exclusive(s) && Enabled(s, e) && (e.ExecRun? || e.TimerFire?)
    ensures Current(Next(s, e).wait.log, Next(s, e).phy)
  {
    match e {
      case ExecRun(accepted) =>
        var item := s.exec.node.item;
        ExecuteCurrent(s.wait.log, s.phy.(calls := s.phy.calls.(running := Dec(|s.wait.log|))), item.op, item.params, accepted);
      case TimerFire(accepted) =>
        ExecuteCurrent(s.wait.log, Disarmed(s.phy), s.phy.retry.current.op, s.phy.retry.current.params, accepted);
      case _ =>
    }
  }

  lemma SameCurrent(log: seq<Node>, p: Phy, log': seq<Node>, t: Phy)
    requires Current(log, p) && log <= log' && t.jobs == p.jobs && t.calls.running == p.calls.running
    requires t.state == p.state || p.jobs == []
    ensures Current(log', t)
  {
  }

  lemma OthersCurrent(s: State, e: Event)
    requires Buffers(s) && Ledger(s) && Exclusive(s) && Current(s.wait.log, s.phy) && Enabled(s, e)
    requires e.ExecPop? || Quiet(e)
    ensures Current(Next(s, e).wait.log, Next(s, e).phy)
  {
    if Quiet(e) {
      QuietStep(s, e);
    }
    SameCurrent(s.wait.log, s.phy, Next(s, e).wait.log, Next(s, e).phy);
  }

  lemma CallbackCurrent(s: State, e: Event)
    requires Balanced(s) && Ledger(s) && Exclusive(s) && Current(s.wait.log, s.phy)
    requires Enabled(s, e) && Covered(s, e) && (e.JobReport? || e.AckReport?)
    ensures Current(Next(s, e).wait.log, Next(s, e).phy)
  {
    match e {
      case JobReport(i, err) =>
        ReportInState(s, i, err);
        SettledCurrent(s.wait.log, s.phy, Report(s.phy, i, err), err);
      case AckReport(i, err) =>
        AckOutcome(s, i, err);
        SameCurrent(s.wait.log, s.phy, s.wait.log, AckReported(s.phy, s.air.acks[i], err));
      case _ =>
    }
  }

  lemma StepCurrent(s: State, e: Event)
    requires Buffers(s) && Balanced(s) && Ledger(s) && Exclusive(s) && Current(s.wait.log, s.phy)
    requires Enabled(s, e) && Covered(s, e)
    ensures Current(Next(s, e).wait.log, Next(s, e).phy)
  {
    if e.ExecRun? || e.TimerFire? {
      StartCurrent(s, e);
    } else if e.JobReport? || e.AckReport? {
      CallbackCurrent(s, e);
    } else {
      OthersCurrent(s, e);
    }
  }

  lemma ReportInState(s: State, i: nat, err: ModemErr)
    requires Ledger(s) && Exclusive(s) && Current(s.wait.log, s.phy) && i < |s.phy.jobs|
    ensures i == 0 && |s.phy.jobs| == 1 && s.phy.calls.running < |s.phy.calls.given|
    ensures Settles(s.phy, Report(s.phy, i, err), err)
  {
    assert s.phy.jobs[0] in s.phy.jobs;
    ReportSettles(s.phy, err);
  }

  lemma {:induction false} CoveredCurrent(states: seq<State>, events: seq<Event>, i: nat)
    requires IsCoveredRun(states, events) && i < |states|
    ensures Current(states[i].wait.log, states[i].phy)
  {
    if i > 0 {
      CoveredCurrent(states, events, i - 1);
      CoveredPrefix(states, events, i - 1);
      RunParts(states, events, i - 1);
      StepCurrent(states[i - 1], events[i - 1]);
    }
  }

  /** In covered runs the modem's only job is for the operation started last, and current_state tells its phase. */
  lemma OneJob(states: seq<State>, events: seq<Event>, i: nat)
    requires IsCoveredRun(states, events) && i < |states| && states[i].phy.jobs != []
    ensures var s, p := states[i], states[i].phy;
            && |p.jobs| == 1 && p.sem == 0 && !p.retry.armed && p.calls.running < |s.wait.log|
            && JobOf(p.jobs[0], s.wait.log[p.calls.running].item) && Shows(p.state, p.jobs[0])
  {
    CoveredPrefix(states, events, i);
    CoveredCurrent(states, events, i);
  }

  /** In covered runs every report ends, or goes on with, that job as Settles says. */
  lemma ReportsSettle(states: seq<State>, events: seq<Event>, i: nat)
    requires IsCoveredRun(states, events) && i < |events| && events[i].JobReport?
    ensures |states[i].phy.jobs| == 1 && states[i].phy.calls.running < |states[i].phy.calls.given|
    ensures Settles(states[i].phy, states[i + 1].phy, events[i].err)
    ensures states[i + 1].wait == states[i].wait && states[i + 1].exec == states[i].exec
  {
    CoveredPrefix(states, events, i);
    CoveredCurrent(states, events, i);
    ReportInState(states[i], events[i].i, events[i].err);
  }

  /** From the put to the timer: in a covered run, when the transmission phase of a TX_RX ends well, op_complete arms the
      retransmission timer of process n if and only if the operation was put with the handle HANDLE_HARQ + n. */
  lemma TimerOfTheOperation(states: seq<State>, events: seq<Event>, i: nat, n: bv32)
    requires IsCoveredRun(states, events) && i < |states| && n < 16
    requires states[i].phy.jobs != [] && states[i].phy.jobs[0].op == TxRx && !states[i].phy.jobs[0].second
    ensures var s, p := states[i], states[i].phy;
            p.calls.running < |s.wait.log|
            && var put := s.wait.log[p.calls.running].item.params.handle;
               put < QUEUE_FLAG ==>
                 (OpComplete(p.state, NoErr, p.jobs[0].handle) == SwitchToReception(Some(n)) <==> put == HANDLE_HARQ + n)
  {
    OneJob(states, events, i);
    var s, p := states[i], states[i].phy;
    var put := s.wait.log[p.calls.running].item.params.handle;
    HandleRoundTrip(TxRx, put, p.state);
    if put < QUEUE_FLAG {
      HarqTimerExact(put, n);
    }
  }
}
