/** Who holds the permit of the PHY layer: exclusive use of a modem interface that is not thread-safe. */
module QueuePermit {
  import opened PhyTypes
  import opened PriorityList
  import opened QueueModel
  import opened QueueBuffers

  /** 1 while the exec thread is between taking the permit and starting the operation. */
  function Held(exec: ExecPc): nat {
    if exec.ExecWaiting? then 0 else 1
  }

  /** 1 while the retry timer runs. */
  function Armed(p: Phy): nat {
    if p.retry.armed then 1 else 0
  }

  /** Permits that are free, with an operation of the queue or with its retry timer. */
  function Uses(p: Phy): nat {
    p.sem + |p.jobs| + Armed(p)
  }

  function Permits(s: State): nat {
    Uses(s.phy) + Held(s.exec)
  }

  /** Reports of acknowledgements, which give a permit that no operation of the queue took. */
  function Foreign(p: Phy): nat {
    p.totals.acks + p.totals.late
  }

  /** What Balanced fixes, up to the permit the exec thread holds. */
  function Balance(p: Phy): int {
    Uses(p) + p.totals.lost + p.totals.absorbed + p.totals.placeholders - Foreign(p) - p.totals.early
  }

  /** Conservation of permits in every run, whatever the modem reports and whenever acknowledgements end:
      a placeholder gives one permit away, an acknowledgement brings one in, what arrives where there already is
      one is absorbed, and some are lost. */
  ghost predicate Balanced(s: State) {
    && s.phy.sem <= 1
    && Permits(s) + s.phy.totals.lost + s.phy.totals.absorbed + s.phy.totals.placeholders
       == 1 + Foreign(s.phy) + s.phy.totals.early
  }

  lemma ExecuteUsesOne(p: Phy, op: Function, params: Params, accepted: bool)
    ensures Balance(Execute(p, op, params, accepted)) == Balance(p) + 1
    ensures Execute(p, op, params, accepted).sem == p.sem
  {
  }

  lemma GiveBringsOne(p: Phy)
    requires p.sem <= 1
    ensures Balance(GivePermit(p)) == Balance(p) + 1 && GivePermit(p).sem <= 1
    ensures Balance(Returned(p)) == Balance(p) + 1 && Returned(p).sem <= 1
  {
  }

  lemma RetryBringsOne(p: Phy, queued: bool)
    requires p.sem <= 1
    ensures Balance(RetryLater(p, queued)) == Balance(p) + 1 && RetryLater(p, queued).sem <= 1
  {
    GiveBringsOne(p.(retry := p.retry.(failed := p.retry.failed + 1)));
  }

  lemma KeepOrLoseBalances(p: Phy, i: nat)
    requires p.sem <= 1 && i < |p.jobs|
    ensures Balance(KeepJob(p, i)) == Balance(p) && Balance(RemoveJob(p, i)) == Balance(p) - 1
    ensures Balance(KeepOrLose(p, i)) == Balance(p) && KeepOrLose(p, i).sem <= 1
  {
  }

  lemma RadioReportBalances(p: Phy, i: nat, err: ModemErr)
    requires p.sem <= 1 && i < |p.jobs| && IsRadio(p.jobs[i].op)
    ensures Balance(Report(p, i, err)) == Balance(p) && Report(p, i, err).sem <= 1
  {
    KeepOrLoseBalances(p, i);
    match OpComplete(p.state, err, p.jobs[i].handle) {
      case Retry => RetryBringsOne(RemoveJob(p, i), true);
      case Release =>
        GiveBringsOne(RemoveJob(p, i));
        GiveBringsOne(Early(KeepJob(p, i)));
      case _ =>
    }
  }

  lemma ReportBalances(p: Phy, i: nat, err: ModemErr)
    requires p.sem <= 1 && i < |p.jobs|
    ensures Balance(Report(p, i, err)) == Balance(p) && Report(p, i, err).sem <= 1
  {
    if IsRadio(p.jobs[i].op) {
      RadioReportBalances(p, i, err);
    } else {
      KeepOrLoseBalances(p, i);
      GiveBringsOne(RemoveJob(p, i));
      RetryBringsOne(RemoveJob(p, i), true);
    }
  }

  lemma AckBalances(p: Phy, n: ProcessNumber, err: ModemErr)
    requires p.sem <= 1
    ensures Balance(AckReported(p, n, err)) == Balance(p) && AckReported(p, n, err).sem <= 1
  {
    RetryBringsOne(Late(p), false);
    GiveBringsOne(Acked(p));
  }

  lemma StepBalances(s: State, e: Event)
    requires Balanced(s) && Enabled(s, e)
    ensures Balanced(Next(s, e))
  {
    match e {
      case ExecRun(accepted) =>
        var item := s.exec.node.item;
        ExecuteUsesOne(s.phy.(calls := s.phy.calls.(running := Dec(|s.wait.log|))), item.op, item.params, accepted);
      case TimerFire(accepted) =>
        ExecuteUsesOne(Disarmed(s.phy), s.phy.retry.current.op, s.phy.retry.current.params, accepted);
      case JobReport(i, err) => ReportBalances(s.phy, i, err);
      case AckReport(i, err) => AckBalances(s.phy, s.air.acks[i], err);
      case _ =>
    }
  }

  // ---- the ledger of single operations, in every run ----

  /** The exec thread has taken a node and not started its operation. */
  predicate HasNode(exec: ExecPc) {
    exec.ExecHand? || exec.ExecAppended? || exec.ExecLeaving? || exec.ExecPopped? || exec.ExecReady?
  }

  /** How many of the dispatched operations were started. */
  function Started(log: seq<Node>, exec: ExecPc): int {
    |log| - (if HasNode(exec) then 1 else 0)
  }

  /** What every call for a dispatched operation must look like: its function, its parameters, the flag. */
  function CallFor(item: Item): Submission {
    Submission(item.op, Flagged(item.op, item.params))
  }

  ghost predicate AllCalls(calls: seq<Submission>, call: Submission) {
    forall c :: c in calls ==> c == call
  }

  /** What the queue submits: a job that reports back, with a handle made by TrueHandle from a flagged one. */
  ghost predicate GoodJob(j: Job) {
    && j.op != Placeholder && j.op != LinkConfig && j.op != RxStop
    && (IsRadio(j.op) ==> exists handle: bv32 :: j.handle == TrueHandle(j.op, MarkQueued(handle)))
  }

  ghost predicate Entries(log: seq<Node>, p: Phy) {
    && |p.calls.trials| == |p.calls.given| == |p.calls.losses| == |log|
    && (forall k :: 0 <= k < |log| ==> AllCalls(p.calls.trials[k], CallFor(log[k].item)))
    && (forall j :: j in p.jobs ==> GoodJob(j))
  }

  /** current_node holds the operation started last, its handle flagged or not. */
  ghost predicate Saved(log: seq<Node>, started: int, p: Phy) {
    && 0 <= started <= |log|
    && (started == 0 ==> p.jobs == [] && p.retry.current == Submission(Placeholder, NO_PARAMS))
    && (started > 0 ==>
          && p.calls.running == started - 1
          && var item := log[p.calls.running].item;
             p.retry.current.op == item.op && Flagged(item.op, p.retry.current.params) == Flagged(item.op, item.params))
  }

  ghost predicate Ledger(s: State) {
    && Entries(s.wait.log, s.phy)
    && Saved(s.wait.log, Started(s.wait.log, s.exec), s.phy)
    && (HasNode(s.exec) ==> s.wait.log[|s.wait.log| - 1] == s.exec.node)
  }

  lemma FlagTwice(op: Function, params: Params)
    ensures Flagged(op, Flagged(op, params)) == Flagged(op, params)
  {
    FlagIdempotent(params.handle);
  }

  lemma FlagIdempotent(h: bv32)
    ensures MarkQueued(MarkQueued(h)) == MarkQueued(h)
  {
  }

  lemma ExecuteEntries(log: seq<Node>, p: Phy, op: Function, params: Params, accepted: bool)
    requires Entries(log, p)
    requires op != Placeholder ==>
               p.calls.running < |log| && Submission(op, Flagged(op, params)) == CallFor(log[p.calls.running].item)
    ensures var t := Execute(p, op, params, accepted);
            && Entries(log, t) && t.retry.current == Submission(op, params) && t.calls.running == p.calls.running
            && (op == Placeholder ==> t.jobs == p.jobs)
  {
    if op != Placeholder && IsRadio(op) {
      assert GoodJob(JobFor(op, params)) by {
        assert JobFor(op, params).handle == TrueHandle(op, MarkQueued(params.handle));
      }
    }
  }

  lemma RunKeepsLedger(s: State, accepted: bool)
    requires Ledger(s) && Enabled(s, ExecRun(accepted))
    ensures Ledger(s.(exec := ExecWaiting, phy := Start(s.phy, s.exec.node.item, Dec(|s.wait.log|), accepted)))
  {
    var item := s.exec.node.item;
    ExecuteEntries(s.wait.log, s.phy.(calls := s.phy.calls.(running := Dec(|s.wait.log|))), item.op, item.params, accepted);
  }

  lemma FireKeepsLedger(s: State, accepted: bool)
    requires Ledger(s) && s.phy.retry.armed
    ensures Ledger(s.(phy := Fire(s.phy, accepted)))
  {
    ExecuteEntries(s.wait.log, Disarmed(s.phy), s.phy.retry.current.op, s.phy.retry.current.params, accepted);
    FlagTwice(s.phy.retry.current.op, s.phy.retry.current.params);
  }

  /** Callbacks make no call and save no operation. */
  predicate NoCalls(p: Phy, t: Phy) {
    && t.retry.current == p.retry.current && t.calls.running == p.calls.running && t.calls.trials == p.calls.trials
    && |t.calls.given| == |p.calls.given| && |t.calls.losses| == |p.calls.losses|
  }

  lemma ReportCallsNothing(p: Phy, i: nat, err: ModemErr)
    requires i < |p.jobs| && forall j :: j in p.jobs ==> GoodJob(j)
    ensures NoCalls(p, Report(p, i, err)) && forall j :: j in Report(p, i, err).jobs ==> GoodJob(j)
  {
    assert GoodJob(p.jobs[i]);
    assert GoodJob(p.jobs[i].(second := true));
    JobsKept(p, i);
  }

  lemma JobsKept(p: Phy, i: nat)
    requires i < |p.jobs|
    ensures forall j :: j in RemoveJob(p, i).jobs ==> j in p.jobs
    ensures forall j :: j in KeepJob(p, i).jobs ==> j in p.jobs || j == p.jobs[i].(second := true)
  {
  }

  lemma AckCallsNothing(p: Phy, n: ProcessNumber, err: ModemErr)
    ensures NoCalls(p, AckReported(p, n, err)) && AckReported(p, n, err).jobs == p.jobs
  {
  }

  lemma CallbackKeepsLedger(s: State, p: Phy)
    requires Ledger(s) && NoCalls(s.phy, p)
    requires (forall j :: j in p.jobs ==> GoodJob(j)) && (s.phy.jobs == [] ==> p.jobs == [])
    ensures Ledger(s.(phy := p))
  {
  }

  lemma ReportKeepsLedger(s: State, i: nat, err: ModemErr)
    requires Ledger(s) && i < |s.phy.jobs|
    ensures Ledger(s.(phy := Report(s.phy, i, err)))
  {
    ReportCallsNothing(s.phy, i, err);
    CallbackKeepsLedger(s, Report(s.phy, i, err));
  }

  lemma AckKeepsLedger(s: State, n: ProcessNumber, err: ModemErr, air: Air)
    requires Ledger(s)
    ensures Ledger(s.(phy := AckReported(s.phy, n, err), air := air))
  {
    AckCallsNothing(s.phy, n, err);
    CallbackKeepsLedger(s, AckReported(s.phy, n, err));
  }

  lemma PopKeepsLedger(s: State)
    requires Ledger(s) && Buffers(s) && Enabled(s, ExecPop)
    ensures Ledger(Next(s, ExecPop))
  {
  }

  /** The steps of the program that neither start, end nor dequeue an operation. */
  predicate Quiet(e: Event) {
    !e.ExecPop? && !e.ExecRun? && !e.TimerFire? && !e.JobReport? && !e.AckReport?
  }

  lemma QuietStep(s: State, e: Event)
    requires Enabled(s, e) && Quiet(e)
    ensures var t := Next(s, e);
            && t.wait.log == s.wait.log
            && t.phy == s.phy.(sem := t.phy.sem, state := t.phy.state, retry := s.phy.retry.(failed := t.phy.retry.failed))
            && HasNode(t.exec) == HasNode(s.exec) && (HasNode(t.exec) ==> t.exec.node == s.exec.node)
            && Permits(t) == Permits(s)
            && ((t.phy.state == s.phy.state && t.phy.retry == s.phy.retry) || Held(s.exec) == 1)
            && (t.exec.ExecReady? ==> t.phy.retry.failed == 0 || (t.exec == s.exec && t.phy == s.phy))
  {
  }

  lemma SameLedger(s: State, t: State)
    requires Ledger(s) && t.wait.log == s.wait.log && t.phy.jobs == s.phy.jobs && t.phy.calls == s.phy.calls
    requires t.phy.retry.current == s.phy.retry.current
    requires HasNode(t.exec) == HasNode(s.exec) && (HasNode(t.exec) ==> t.exec.node == s.exec.node)
    ensures Ledger(t)
  {
  }

  lemma QuietKeepsLedger(s: State, e: Event)
    requires Ledger(s) && Enabled(s, e) && Quiet(e)
    ensures Ledger(Next(s, e))
  {
    QuietStep(s, e);
    SameLedger(s, Next(s, e));
  }

  lemma StepKeepsLedger(s: State, e: Event)
    requires Ledger(s) && Buffers(s) && Enabled(s, e)
    ensures Ledger(Next(s, e))
  {
    match e {
      case ExecRun(accepted) => RunKeepsLedger(s, accepted);
      case TimerFire(accepted) => FireKeepsLedger(s, accepted);
      case JobReport(i, err) => ReportKeepsLedger(s, i, err);
      case AckReport(i, err) => AckKeepsLedger(s, s.air.acks[i], err, AckEnded(s.air, i));
      case ExecPop => PopKeepsLedger(s);
      case _ => QuietKeepsLedger(s, e);
    }
  }
}
