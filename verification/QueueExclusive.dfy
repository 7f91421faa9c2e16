/** Exclusive use of the modem. One permit is in use as long as every acknowledgement that ends is covered; then
    each operation is tried a bounded number of times and its permit is given at most once. */
module QueueExclusive {
  import opened PhyTypes
  import opened PriorityList
  import opened QueueModel
  import opened QueueBuffers
  import opened QueuePermit

  /** An operation of the queue is with the modem or waits for its retry. */
  predicate InUse(p: Phy) {
    p.jobs != [] || p.retry.armed
  }

  /** The end of an acknowledgement makes no second permit: nobody has the one there is, or the give is absorbed by
      the free permit or, if the acknowledgement missed its start time, by the running retry timer. */
  predicate Covered(s: State, e: Event) {
    e.AckReport? ==>
      match e.err
      case NoErr => s.phy.sem == 1 || Permits(s) == 0
      case InvalidStartTime =>
        Permits(s) == 0 || (if s.phy.retry.failed < MAX_RETRY then s.phy.retry.armed else s.phy.sem == 1)
      case _ => true
  }

  /** The account of the k-th dispatched operation, op, of which the given number were started. An operation that
      was lost is tried again when an acknowledgement comes too late, so it can be lost more than once. */
  ghost predicate Account(op: Function, k: nat, started: int, p: Phy)
    requires |p.calls.trials| == |p.calls.given| == |p.calls.losses| && k < |p.calls.trials|
  {
    var calls, given, losses := |p.calls.trials[k]|, p.calls.given[k], p.calls.losses[k];
    if k >= started || op == Placeholder then calls == 0 && given == 0 && losses == 0
    else if k == p.calls.running && InUse(p) then
      given == 0 && losses <= p.totals.late && calls + Armed(p) <= 1 + p.retry.failed && p.retry.failed <= MAX_RETRY
    else given <= 1 <= given + losses <= 1 + p.totals.late && calls <= 1 + MAX_RETRY
  }

  ghost predicate Accounts(log: seq<Node>, started: int, p: Phy)
    requires Entries(log, p)
  {
    forall k :: 0 <= k < |log| ==> Account(log[k].item.op, k, started, p)
  }

  /** Nothing was given early, and the first report of a TX_RX finds the state it was started with. */
  ghost predicate Clean(p: Phy) {
    && p.totals.early == 0
    && (forall j :: j in p.jobs && MoreToCome(j) ==> p.state == Transmitting)
    && (p.jobs != [] ==> p.retry.current.op != Placeholder)
  }

  /** While nobody has the permit, current_node holds a placeholder or an operation that lost its permit. */
  ghost predicate Parked(p: Phy) {
    p.retry.current.op != Placeholder ==>
      && p.calls.running < |p.calls.trials| == |p.calls.given|
      && p.calls.given[p.calls.running] == 0 && |p.calls.trials[p.calls.running]| <= 1 + p.retry.failed
  }

  ghost predicate Exclusive(s: State)
    requires Ledger(s)
  {
    && Permits(s) <= 1
    && Clean(s.phy)
    && Accounts(s.wait.log, Started(s.wait.log, s.exec), s.phy)
    && (s.exec.ExecReady? ==> s.phy.retry.failed == 0)
    && (Permits(s) == 0 ==> Parked(s.phy))
  }

  /** Coverage is needed: any other end of an acknowledgement makes a second permit. */
  lemma UncoveredBreaks(s: State, e: Event)
    requires Permits(s) <= 1 && s.phy.sem <= 1 && Enabled(s, e) && !Covered(s, e)
    ensures Permits(Next(s, e)) == 2
  {
    AcknowledgementReleases(s.air.acks[e.i], s.phy.state);
  }

  // ---- the start of an operation ----

  lemma ExecuteOutcome(p: Phy, op: Function, params: Params, accepted: bool)
    ensures var t := Execute(p, op, params, accepted);
            && t.calls.given == p.calls.given && t.retry.armed == p.retry.armed && t.retry.failed == p.retry.failed
            && t.sem == p.sem && t.totals.early == p.totals.early && t.totals.late == p.totals.late
            && t.calls.trials == (if op == Placeholder || op == LinkConfig then p.calls.trials
                                  else Submitted(p.calls, Submission(op, Flagged(op, params))).trials)
            && (if op == Placeholder then t.jobs == p.jobs && t.calls.losses == p.calls.losses
                else if op == LinkConfig || op == RxStop || !accepted then
                  t.jobs == p.jobs && t.calls.losses == Bump(p.calls.losses, p.calls.running)
                else t.jobs == p.jobs + [JobFor(op, params)] && t.calls.losses == p.calls.losses)
            && (op == TxRx ==> t.state == Transmitting)
            && Uses(t) <= Uses(p) + 1
  {
  }

  /** Starting the running operation when nothing is in use keeps every account. */
  lemma ExecuteAccounts(log: seq<Node>, started: int, p: Phy, op: Function, params: Params, accepted: bool)
    requires Entries(log, p) && Clean(p) && started <= |log| && p.jobs == [] && !p.retry.armed
    requires op != Placeholder ==>
               p.calls.running < |log| && Submission(op, Flagged(op, params)) == CallFor(log[p.calls.running].item)
    requires forall k :: 0 <= k < |log| && k != p.calls.running ==> Account(log[k].item.op, k, started, p)
    requires var r := p.calls.running;
             r < |log| ==>
               && r < started && log[r].item.op == op && p.calls.given[r] == 0
               && p.calls.losses[r] <= (if op == Placeholder then 0 else p.totals.late)
               && |p.calls.trials[r]| <= (if op == Placeholder then 0 else p.retry.failed)
    requires p.retry.failed <= MAX_RETRY || op == Placeholder
    ensures var t := Execute(p, op, params, accepted);
            Entries(log, t) && Clean(t) && Accounts(log, started, t) && Parked(t) && Uses(t) <= Uses(p) + 1
  {
    ExecuteEntries(log, p, op, params, accepted);
    ExecuteOutcome(p, op, params, accepted);
    var t := Execute(p, op, params, accepted);
    forall k | 0 <= k < |log| ensures Account(log[k].item.op, k, started, t) {
      if k != p.calls.running {
        assert Account(log[k].item.op, k, started, p);
      }
    }
  }

  lemma RunExclusive(s: State, accepted: bool)
    requires Ledger(s) && Exclusive(s) && Enabled(s, ExecRun(accepted))
    ensures var t := Next(s, ExecRun(accepted)); Ledger(t) && Exclusive(t)
  {
    RunKeepsLedger(s, accepted);
    var item, log := s.exec.node.item, s.wait.log;
    var r := Dec(|log|);
    var p := s.phy.(calls := s.phy.calls.(running := r));
    assert s.phy.jobs == [] && !s.phy.retry.armed && s.phy.retry.failed == 0;
    forall k | 0 <= k < |log| && k != r ensures Account(log[k].item.op, k, |log|, p) {
      assert Account(log[k].item.op, k, |log| - 1, s.phy);
    }
    assert Account(log[r].item.op, r, |log| - 1, s.phy);
    ExecuteAccounts(log, |log|, p, item.op, item.params, accepted);
  }

  lemma FireExclusive(s: State, accepted: bool)
    requires Ledger(s) && Exclusive(s) && s.phy.retry.armed
    ensures var t := s.(phy := Fire(s.phy, accepted)); Ledger(t) && Exclusive(t)
  {
    FireKeepsLedger(s, accepted);
    var log, op, params := s.wait.log, s.phy.retry.current.op, s.phy.retry.current.params;
    var started := Started(log, s.exec);
    var p := Disarmed(s.phy);
    assert s.phy.jobs == [] && Held(s.exec) == 0;
    forall k | 0 <= k < |log| && k != p.calls.running ensures Account(log[k].item.op, k, started, p) {
      assert Account(log[k].item.op, k, started, s.phy);
    }
    if p.calls.running < |log| {
      assert Account(log[p.calls.running].item.op, p.calls.running, started, s.phy);
    }
    ExecuteAccounts(log, started, p, op, params, accepted);
  }

  // ---- the end of an operation ----

  /** How the only job can end: the operation waits for its retry, or the permit is given, or it is lost. */
  ghost predicate Ended(p: Phy, t: Phy) {
    var r := p.calls.running;
    || (t.jobs == [] && t.retry == p.retry.(failed := p.retry.failed + 1, armed := true) && t.sem == p.sem
        && t.retry.failed <= MAX_RETRY && t.calls == p.calls && t.totals == p.totals)
    || (t.jobs == [] && !t.retry.armed && t.totals == p.totals && t.sem == 1
        && t.calls == p.calls.(given := Bump(p.calls.given, r)))
    || (t.jobs == [] && t.retry == p.retry && t.totals == p.totals.(lost := p.totals.lost + 1) && t.sem == p.sem
        && t.calls == p.calls.(losses := Bump(p.calls.losses, r)))
  }

  lemma EndedAccounts(log: seq<Node>, started: int, p: Phy, t: Phy)
    requires Entries(log, p) && Entries(log, t) && Accounts(log, started, p) && |p.jobs| == 1 && !p.retry.armed
    requires p.calls.running < |log| && p.calls.running < started && log[p.calls.running].item.op != Placeholder
    requires Ended(p, t) || (t == p.(jobs := t.jobs, state := t.state) && |t.jobs| == 1)
    ensures Accounts(log, started, t)
    ensures Ended(p, t) && Uses(t) == 0 ==> Parked(t)
  {
    assert Account(log[p.calls.running].item.op, p.calls.running, started, p);
    forall k | 0 <= k < |log| ensures Account(log[k].item.op, k, started, t) {
      assert Account(log[k].item.op, k, started, p);
    }
  }

  /** What a report makes of a radio job, once its handle is known to decode to its operation. */
  lemma RadioReport(p: Phy, err: ModemErr)
    requires |p.jobs| == 1 && !p.retry.armed && p.sem == 0 && IsRadio(p.jobs[0].op) && GoodJob(p.jobs[0])
    requires MoreToCome(p.jobs[0]) ==> p.state == Transmitting
    ensures var t := Report(p, 0, err);
            && (if err != InvalidStartTime && MoreToCome(p.jobs[0]) then
                  t.jobs == [p.jobs[0].(second := true)] && t == p.(jobs := t.jobs, state := t.state)
                else t.jobs == [] && Ended(p, t))
            && t.retry.current == p.retry.current
  {
    var j := p.jobs[0];
    var handle: bv32 :| j.handle == TrueHandle(j.op, MarkQueued(handle));
    HandleRoundTrip(j.op, handle, p.state);
    assert RemoveJob(p, 0).jobs == [];
    assert KeepJob(p, 0).jobs == [j.(second := true)];
  }

  lemma PlainReport(p: Phy, err: ModemErr)
    requires |p.jobs| == 1 && !p.retry.armed && p.sem == 0 && !IsRadio(p.jobs[0].op)
    ensures var t := Report(p, 0, err); t.jobs == [] && Ended(p, t) && t.retry.current == p.retry.current
  {
    assert RemoveJob(p, 0).jobs == [];
  }

  /** The one job belongs to the running operation. */
  lemma ReportExclusive(s: State, i: nat, err: ModemErr)
    requires Ledger(s) && Exclusive(s) && i < |s.phy.jobs|
    ensures var t := s.(phy := Report(s.phy, i, err)); Ledger(t) && Exclusive(t)
  {
    ReportKeepsLedger(s, i, err);
    var t := Report(s.phy, i, err);
    assert s.phy.jobs[0] in s.phy.jobs && GoodJob(s.phy.jobs[0]);
    if IsRadio(s.phy.jobs[0].op) {
      RadioReport(s.phy, err);
    } else {
      PlainReport(s.phy, err);
    }
    EndedAccounts(s.wait.log, Started(s.wait.log, s.exec), s.phy, t);
  }

  // ---- the end of an acknowledgement ----

  /** What a covered acknowledgement does: the permit comes back, or the retry timer gets it or starts anew, or
      nothing but a count changes. */
  lemma AckOutcome(s: State, i: nat, err: ModemErr)
    requires Permits(s) <= 1 && s.phy.sem <= 1 && Enabled(s, AckReport(i, err)) && Covered(s, AckReport(i, err))
    ensures var p, t := s.phy, AckReported(s.phy, s.air.acks[i], err);
            && t.jobs == p.jobs && t.calls == p.calls && t.state == p.state && t.retry.current == p.retry.current
            && t.totals.early == p.totals.early && t.totals.late >= p.totals.late
            && Uses(t) + Held(s.exec) <= 1
            && (p.jobs != [] || Held(s.exec) == 1 || Uses(t) == 0 ==> t == p)
            && (p.retry.armed ==> t == p || (t.retry.armed && t.retry.failed == p.retry.failed + 1 <= MAX_RETRY))
            && (t.retry.armed && !p.retry.armed ==>
                  Permits(s) == 0 && t.retry.failed == p.retry.failed + 1 <= MAX_RETRY
                  && t.totals.late == p.totals.late + 1)
  {
    AcknowledgementReleases(s.air.acks[i], s.phy.state);
  }

  lemma AckAccounts(log: seq<Node>, started: int, p: Phy, t: Phy)
    requires Entries(log, p) && Entries(log, t) && Accounts(log, started, p)
    requires t.jobs == p.jobs && t.calls == p.calls && t.totals.late >= p.totals.late
    requires p.jobs != [] ==> t == p
    requires p.retry.armed ==> t == p || (t.retry.armed && t.retry.failed == p.retry.failed + 1 <= MAX_RETRY)
    requires t.retry.armed && !p.retry.armed ==>
               Parked(p) && t.retry.failed == p.retry.failed + 1 <= MAX_RETRY && t.totals.late == p.totals.late + 1
    requires p.calls.running < |log| && p.calls.running < started ==> log[p.calls.running].item.op == p.retry.current.op
    ensures Accounts(log, started, t)
  {
    forall k | 0 <= k < |log| ensures Account(log[k].item.op, k, started, t) {
      assert Account(log[k].item.op, k, started, p);
    }
  }

  lemma AckExclusive(s: State, i: nat, err: ModemErr)
    requires Ledger(s) && Exclusive(s) && s.phy.sem <= 1 && Enabled(s, AckReport(i, err)) && Covered(s, AckReport(i, err))
    ensures var t := s.(phy := AckReported(s.phy, s.air.acks[i], err), air := AckEnded(s.air, i));
            Ledger(t) && Exclusive(t)
  {
    AckKeepsLedger(s, s.air.acks[i], err, AckEnded(s.air, i));
    AckOutcome(s, i, err);
    AckAccounts(s.wait.log, Started(s.wait.log, s.exec), s.phy, AckReported(s.phy, s.air.acks[i], err));
  }

  // ---- all other steps ----

  lemma QuietExclusive(s: State, t: State)
    requires Ledger(s) && Exclusive(s) && Ledger(t) && t.wait.log == s.wait.log
    requires t.phy == s.phy.(state := t.phy.state, sem := t.phy.sem, retry := s.phy.retry.(failed := t.phy.retry.failed))
    requires HasNode(s.exec) == HasNode(t.exec)
    requires t.phy.state == s.phy.state || s.phy.jobs == []
    requires t.phy.retry.failed == s.phy.retry.failed || Held(s.exec) == 1
    requires t.exec.ExecReady? ==> t.phy.retry.failed == 0
    requires Permits(t) == Permits(s)
    ensures Exclusive(t)
  {
    var log, started := s.wait.log, Started(s.wait.log, s.exec);
    forall k | 0 <= k < |log| ensures Account(log[k].item.op, k, started, t.phy) {
      assert Account(log[k].item.op, k, started, s.phy);
    }
  }

  lemma PopExclusive(s: State)
    requires Enabled(s, ExecPop) && Ledger(s) && Exclusive(s) && Buffers(s)
    ensures var t := Next(s, ExecPop); Ledger(t) && Exclusive(t)
  {
    PopKeepsLedger(s);
    var t := PopNode(s);
    var log := s.wait.log;
    forall k | 0 <= k < |t.wait.log| ensures Account(t.wait.log[k].item.op, k, |log|, t.phy) {
      if k < |log| {
        assert Account(log[k].item.op, k, |log|, s.phy);
      }
    }
  }

  lemma OthersExclusive(s: State, e: Event)
    requires Ledger(s) && Exclusive(s) && Enabled(s, e) && Quiet(e)
    ensures Ledger(Next(s, e)) && Exclusive(Next(s, e))
  {
    QuietStep(s, e);
    QuietKeepsLedger(s, e);
    QuietExclusive(s, Next(s, e));
  }

  /** The steps that start or end an operation. */
  lemma OperationExclusive(s: State, e: Event)
    requires Ledger(s) && Exclusive(s) && s.phy.sem <= 1 && Enabled(s, e) && Covered(s, e) && !Quiet(e) && !e.ExecPop?
    ensures Ledger(Next(s, e)) && Exclusive(Next(s, e))
  {
    match e {
      case ExecRun(accepted) => RunExclusive(s, accepted);
      case TimerFire(accepted) => FireExclusive(s, accepted);
      case JobReport(i, err) => ReportExclusive(s, i, err);
      case AckReport(i, err) => AckExclusive(s, i, err);
      case _ =>
    }
  }

  lemma StepExclusive(s: State, e: Event)
    requires Ledger(s) && Exclusive(s) && s.phy.sem <= 1 && Buffers(s) && Enabled(s, e) && Covered(s, e)
    ensures Ledger(Next(s, e)) && Exclusive(Next(s, e))
  {
    if e.ExecPop? {
      PopExclusive(s);
    } else if Quiet(e) {
      OthersExclusive(s, e);
    } else {
      OperationExclusive(s, e);
    }
  }
}
