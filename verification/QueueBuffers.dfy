/** Slabs, message queue, list length, semaphore count and mutex of the operation queue. */
module QueueBuffers {
  import opened PhyTypes
  import opened PriorityList
  import opened QueueModel

  // The contributions of the threads to the counts below, 1 or 0.

  /** The put thread has taken an item whose slab block is not freed. */
  function ItemInHand(put: PutPc): nat {
    if put.PutHolding? then 1 else 0
  }

  /** The put thread has a node block that is not in the list. */
  function NodeUnlinked(put: PutPc): nat {
    if put.PutNode? then 1 else 0
  }

  /** The put thread has linked a node and not given its count. */
  function LinkOwed(put: PutPc): nat {
    if put.PutLinked? || put.PutUnlocked? then 1 else 0
  }

  /** The exec thread has unlinked a node and neither put it back nor freed it. */
  function NodeInHand(exec: ExecPc): nat {
    if exec.ExecHand? then 1 else 0
  }

  /** The exec thread has taken a count and not yet its node. */
  function TokenTaken(exec: ExecPc): nat {
    if exec.ExecToken? || exec.ExecLocked? then 1 else 0
  }

  /** The exec thread has put a permanent node back and not given its count. */
  function AppendOwed(exec: ExecPc): nat {
    if exec.ExecAppended? then 1 else 0
  }

  predicate PutInside(put: PutPc) {
    put.PutLocked? || put.PutNode? || put.PutLinked? || put.PutStuck?
  }

  predicate ExecInside(exec: ExecPc) {
    exec.ExecLocked? || exec.ExecHand? || exec.ExecAppended? || exec.ExecLeaving?
  }

  ghost predicate Buffers(s: State) {
    && s.feed.itemUsed == |s.feed.msgq| + |s.feed.callers| + ItemInHand(s.put)
    && s.feed.itemUsed <= MAX_ITEMS
    && s.wait.nodeUsed == |s.wait.list| + NodeUnlinked(s.put) + NodeInHand(s.exec)
    && s.wait.nodeUsed <= MAX_ITEMS
    && s.wait.itemSem + TokenTaken(s.exec) + LinkOwed(s.put) + AppendOwed(s.exec) == |s.wait.list|
    && (s.wait.mutex == ByPut <==> PutInside(s.put))
    && (s.wait.mutex == ByExec <==> ExecInside(s.exec))
    && !s.put.PutFull?
    && !s.exec.ExecFault?
  }

  predicate ByPutThread(e: Event) {
    e.PutGet? || e.PutFree? || e.PutLock? || e.PutAlloc? || e.PutLink? || e.PutUnlock? || e.PutGive?
  }

  lemma PutThreadKeepsBuffers(s: State, e: Event)
    requires Buffers(s) && Enabled(s, e) && ByPutThread(e)
    ensures Buffers(Next(s, e))
  {
  }

  lemma OthersKeepBuffers(s: State, e: Event)
    requires Buffers(s) && Enabled(s, e) && !ByPutThread(e)
    ensures Buffers(Next(s, e))
  {
  }

  lemma StepKeepsBuffers(s: State, e: Event)
    requires Buffers(s) && Enabled(s, e)
    ensures Buffers(Next(s, e))
  {
    if ByPutThread(e) {
      PutThreadKeepsBuffers(s, e);
    } else {
      OthersKeepBuffers(s, e);
    }
  }

  /** A caller that allocated its item never waits at the K_FOREVER put, whatever the other callers do. */
  lemma PutNeverBlocks(s: State, i: nat)
    requires Buffers(s) && i < |s.feed.callers|
    ensures |s.feed.msgq| <= MAX_ITEMS - 1
    ensures Enabled(s, CallerPut(i))
  {
  }

  /** No semaphore give of the list count is swallowed by its limit, no list access is outside the
      mutex, the list is not empty when the exec thread takes its head, and it is not full when the
      put thread, which got a node, links it. */
  lemma NoLostCount(s: State, e: Event)
    requires Buffers(s) && Enabled(s, e)
    ensures e.PutGive? || e.ExecGive? ==> Next(s, e).wait.itemSem == s.wait.itemSem + 1
    ensures e.ExecPop? || e.ExecRequeue? ==> s.wait.mutex == ByExec && !PutInside(s.put)
    ensures e.PutAlloc? || e.PutLink? ==> s.wait.mutex == ByPut && !ExecInside(s.exec)
    ensures e.ExecPop? ==> s.wait.list != []
    ensures e.PutLink? ==> |s.wait.list| < MAX_ITEMS && Next(s, e).put.PutLinked?
    ensures e.ExecRequeue? && Permanent(s.exec.node) ==> |s.wait.list| < MAX_ITEMS
  {
  }

  /** A put thread that found the node slab exhausted ended inside its critical section. From then on no
      thread gets the mutex and nothing is dispatched any more. */
  lemma StuckForever(s: State, e: Event)
    requires Buffers(s) && s.put.PutStuck? && Enabled(s, e)
    ensures var t := Next(s, e); t.put == s.put && t.wait.mutex == ByPut && t.wait.log == s.wait.log
    ensures !e.ExecLock? && !e.PutLock?
  {
  }
}
