/** The client's synchronisation engine (frontend/src/services/sync.js).
    `syncPendingVisits` is an async function with three awaits; each await is a separate
    step method here, so that other code (a capture appending to the queue) can run between
    the read of the queue and the clearing of it. The connectivity flag, the store's failures
    and the gateway's reply are parameters. */
module Sync {
  import opened Common
  import opened Records
  import opened Storage

  /** Where a started `syncPendingVisits` call is suspended. */
  datatype Step =
    | Idle
    | AwaitRead                                // awaiting storage.getOfflineVisits()
    | AwaitGateway(batch: seq<QueuedVisit>)   // awaiting api.syncOfflineVisits(batch)
    | AwaitClear(result: SyncResult)          // awaiting storage.clearSyncedVisits()

  /** What the gateway call settles to: the server's reply, or a thrown error (network
      failure or a non-2xx status). */
  datatype GatewayReply = Replied(result: SyncResult) | Threw(error: string)

  /** What a call of `syncPendingVisits` settles to. The first three resolve to undefined. */
  datatype SyncOutcome =
    | AlreadySyncing
    | Offline
    | NothingToSync
    | Synced(result: SyncResult)
    | Rethrown(error: string)

  /** The result of running one step: still suspended at an await, or settled. */
  datatype StepResult = Pending | Settled(outcome: SyncOutcome)

  /** The queue is cleared only when the reply's `success` list is non-empty. */
  predicate ClearsQueue(r: SyncResult) {
    |r.success| > 0
  }

  /** The period of the auto-sync timer, in milliseconds, for an interval in minutes. */
  function IntervalMs(minutes: nat): nat {
    minutes * 60 * 1000
  }

  /** How many registered intervals fire at `t` milliseconds after their registration: an
      interval of period p fires at p, 2p, 3p, ... */
  function CallsAtTick(intervals: seq<nat>, t: nat): nat {
    Count(intervals, (p: nat) => p > 0 && t > 0 && t % p == 0)
  }

  /** What an uninterleaved call settles to, given the flag before the call, connectivity, the
      batch the read produced and the gateway's reply. */
  function OutcomeOf(wasSyncing: bool, online: bool, batch: seq<QueuedVisit>, reply: GatewayReply): SyncOutcome {
    if wasSyncing then AlreadySyncing
    else if !online then Offline
    else if |batch| == 0 then NothingToSync
    else match reply
      case Threw(e) => Rethrown(e)
      case Replied(r) => Synced(r)
  }

  /** Does an uninterleaved call reach the gateway? */
  predicate ReachesGateway(wasSyncing: bool, online: bool, batch: seq<QueuedVisit>) {
    !wasSyncing && online && |batch| > 0
  }

  /** The queue an uninterleaved call leaves behind. */
  function QueueAfterSync(queue: seq<QueuedVisit>, wasSyncing: bool, online: bool, batch: seq<QueuedVisit>, reply: GatewayReply, clearFails: bool): seq<QueuedVisit> {
    if ReachesGateway(wasSyncing, online, batch) && reply.Replied? && ClearsQueue(reply.result) && !clearFails then []
    else queue
  }

  /** Whenever the queue is cleared, it is cleared whole: every record the server rejected
      goes too, and a record is kept only if nothing was cleared. */
  lemma ClearIsAllOrNothing(queue: seq<QueuedVisit>, wasSyncing: bool, online: bool, batch: seq<QueuedVisit>, reply: GatewayReply, clearFails: bool)
    ensures var q := QueueAfterSync(queue, wasSyncing, online, batch, reply, clearFails);
      q == [] || q == queue
    ensures (reply.Replied? && ReachesGateway(wasSyncing, online, batch) && !clearFails &&
             ClearsQueue(reply.result)) ==>
      forall f :: f in reply.result.failed ==>
        forall r :: r in queue && r.visit == f.visit ==> r !in QueueAfterSync(queue, wasSyncing, online, batch, reply, clearFails)
  {
  }

  class SyncService {
    var isSyncing: bool
    var step: Step
    /** The batches handed to the gateway, in order. */
    var submitted: seq<seq<QueuedVisit>>
    /** The periods of the intervals `startAutoSync` registered. */
    var intervals: seq<nat>
    /** The number of 'online' listeners `startAutoSync` registered. */
    var onlineListeners: nat

    /** The flag is set exactly while a call is suspended at one of its awaits. */
    ghost predicate Valid()
      reads this
    {
      isSyncing <==> !step.Idle?
    }

    constructor ()
      ensures Valid() && !isSyncing && step == Idle
      ensures submitted == [] && intervals == [] && onlineListeners == 0
    {
      isSyncing := false;
      step := Idle;
      submitted := [];
      intervals := [];
      onlineListeners := 0;
    }

    /** The synchronous part of `syncPendingVisits`: the two guards, then the flag is set and
        the call suspends on the read of the queue. The store is not touched. */
    method Begin(online: bool) returns (r: StepResult)
      requires Valid()
      modifies this
      ensures Valid()
      ensures old(isSyncing) ==> r == Settled(AlreadySyncing) && isSyncing && step == old(step)
      ensures !old(isSyncing) && !online ==> r == Settled(Offline) && !isSyncing && step == Idle
      ensures !old(isSyncing) && online ==> r == Pending && isSyncing && step == AwaitRead
      ensures submitted == old(submitted) && intervals == old(intervals) && onlineListeners == old(onlineListeners)
    {
      if isSyncing {
        return Settled(AlreadySyncing);
      }
      if !online {
        return Settled(Offline);
      }
      isSyncing := true;
      step := AwaitRead;
      r := Pending;
    }

    /** Resumes after `getOfflineVisits()`: an empty list ends the call; otherwise the whole
        list is sent to the gateway as one batch. */
    method OnQueueRead(store: StorageService, readFails: bool) returns (r: StepResult)
      requires Valid() && step == AwaitRead
      modifies this
      ensures Valid()
      ensures var batch := if readFails then [] else store.queue;
        (|batch| == 0 ==> r == Settled(NothingToSync) && step == Idle && submitted == old(submitted)) &&
        (|batch| > 0 ==> r == Pending && step == AwaitGateway(batch) && submitted == old(submitted) + [batch])
      ensures intervals == old(intervals) && onlineListeners == old(onlineListeners)
    {
      var batch := store.GetOfflineVisits(readFails);
      if |batch| == 0 {
        isSyncing := false;
        step := Idle;
        return Settled(NothingToSync);
      }
      submitted := submitted + [batch];
      step := AwaitGateway(batch);
      r := Pending;
    }

    /** Resumes after the gateway call: an error resets the flag and is re-thrown; a reply
        whose `success` list is empty ends the call; otherwise the call goes on to clear. */
    method OnGatewayReply(reply: GatewayReply) returns (r: StepResult)
      requires Valid() && step.AwaitGateway?
      modifies this
      ensures Valid()
      ensures reply.Threw? ==> r == Settled(Rethrown(reply.error)) && step == Idle
      ensures reply.Replied? && !ClearsQueue(reply.result) ==> r == Settled(Synced(reply.result)) && step == Idle
      ensures reply.Replied? && ClearsQueue(reply.result) ==> r == Pending && step == AwaitClear(reply.result)
      ensures submitted == old(submitted) && intervals == old(intervals) && onlineListeners == old(onlineListeners)
    {
      match reply {
        case Threw(e) =>
          isSyncing := false;
          step := Idle;
          r := Settled(Rethrown(e));
        case Replied(res) =>
          if ClearsQueue(res) {
            step := AwaitClear(res);
            r := Pending;
          } else {
            isSyncing := false;
            step := Idle;
            r := Settled(Synced(res));
          }
      }
    }

    /** Resumes after `clearSyncedVisits()`, which empties whatever the store holds by then. */
    method OnClearDone(store: StorageService, clearFails: bool) returns (r: StepResult)
      requires Valid() && step.AwaitClear?
      modifies this, store
      ensures Valid() && step == Idle
      ensures r == Settled(Synced(old(step).result))
      ensures store.queue == (if clearFails then old(store.queue) else []) && store.user == old(store.user)
      ensures submitted == old(submitted) && intervals == old(intervals) && onlineListeners == old(onlineListeners)
    {
      var res := step.result;
      store.ClearSyncedVisits(clearFails);
      isSyncing := false;
      step := Idle;
      r := Settled(Synced(res));
    }

    /** `syncPendingVisits` run to completion with no other code between its steps. */
    method SyncPendingVisits(store: StorageService, online: bool, readFails: bool, reply: GatewayReply, clearFails: bool)
      returns (outcome: SyncOutcome)
      requires Valid()
      modifies this, store
      ensures Valid()
      ensures var batch := if readFails then [] else old(store.queue);
        outcome == OutcomeOf(old(isSyncing), online, batch, reply) &&
        store.queue == QueueAfterSync(old(store.queue), old(isSyncing), online, batch, reply, clearFails) &&
        submitted == old(submitted) + (if ReachesGateway(old(isSyncing), online, batch) then [batch] else [])
      ensures isSyncing == old(isSyncing) && (old(isSyncing) ==> step == old(step))
      ensures store.user == old(store.user)
      ensures intervals == old(intervals) && onlineListeners == old(onlineListeners)
    {
      var r := Begin(online);
      if r.Settled? {
        return r.outcome;
      }
      r := OnQueueRead(store, readFails);
      if r.Settled? {
        return r.outcome;
      }
      r := OnGatewayReply(reply);
      if r.Settled? {
        return r.outcome;
      }
      r := OnClearDone(store, clearFails);
      outcome := r.outcome;
    }

    /** `startAutoSync(minutes)`: registers one more interval and one more 'online' listener,
        each of which calls `syncPendingVisits`. */
    method StartAutoSync(minutes: nat)
      modifies this
      ensures intervals == old(intervals) + [IntervalMs(minutes)]
      ensures onlineListeners == old(onlineListeners) + 1
      ensures isSyncing == old(isSyncing) && step == old(step) && submitted == old(submitted)
    {
      intervals := intervals + [IntervalMs(minutes)];
      onlineListeners := onlineListeners + 1;
    }
  }

  /** With one interval of five minutes, syncs are triggered exactly at the positive multiples
      of 300000 ms. */
  lemma FiveMinuteTimer(t: nat)
    ensures CallsAtTick([IntervalMs(5)], t) == (if t > 0 && t % 300000 == 0 then 1 else 0)
  {
    assert IntervalMs(5) == 300000;
    assert [IntervalMs(5)][1..] == [];
  }

  /** A call made while another is suspended returns at once and touches neither the store
      nor the gateway; the suspended call then carries on. */
  method ReentrantCallIsIgnored(q0: seq<QueuedVisit>, online: bool, readFails: bool, reply: GatewayReply)
    returns (outcome: SyncOutcome, queue: seq<QueuedVisit>, sent: seq<seq<QueuedVisit>>, stillSyncing: bool)
    requires |q0| > 0
    ensures outcome == AlreadySyncing && queue == q0 && sent == [q0] && stillSyncing
  {
    var store := new StorageService();
    var _ := store.SetOfflineVisits(q0, false);
    var sync := new SyncService();
    var r := sync.Begin(true);
    r := sync.OnQueueRead(store, false);
    outcome := sync.SyncPendingVisits(store, online, readFails, reply, false);
    queue := store.queue;
    sent := sync.submitted;
    stillSyncing := sync.isSyncing;
  }

  /** A visit queued while the batch is at the gateway is never sent, and the clear that
      follows the reply deletes it. */
  method ConcurrentAppendIsLost(q0: seq<QueuedVisit>, v: VisitData, now: nat, result: SyncResult)
    returns (record: QueuedVisit, beforeClear: seq<QueuedVisit>, after: seq<QueuedVisit>, sent: seq<seq<QueuedVisit>>)
    requires |q0| > 0 && ClearsQueue(result)
    requires NewRecord(v, now) !in q0
    ensures record.visit == v && beforeClear == q0 + [record]
    ensures sent == [q0] && record !in sent[0]
    ensures after == []
  {
    var store := new StorageService();
    var _ := store.SetOfflineVisits(q0, false);
    var sync := new SyncService();
    var r := sync.Begin(true);
    r := sync.OnQueueRead(store, false);
    var saved := store.SaveVisitOffline(v, now, false, false);
    record := saved.record;
    r := sync.OnGatewayReply(Replied(result));
    beforeClear := store.queue;
    r := sync.OnClearDone(store, false);
    after := store.queue;
    sent := sync.submitted;
  }

  /** A visit the server rejects is deleted with the rest of the batch as soon as one other
      visit of the batch is accepted. */
  method RejectedVisitIsLost(accepted: QueuedVisit, rejected: QueuedVisit, dbId: int, reason: string)
    returns (after: seq<QueuedVisit>, sent: seq<seq<QueuedVisit>>, outcome: SyncOutcome)
    ensures sent == [[accepted, rejected]]
    ensures outcome == Synced(SyncResult([dbId], [SyncFailure(rejected.visit, reason)]))
    ensures after == []
  {
    var store := new StorageService();
    var _ := store.SetOfflineVisits([accepted, rejected], false);
    var sync := new SyncService();
    var reply := Replied(SyncResult([dbId], [SyncFailure(rejected.visit, reason)]));
    outcome := sync.SyncPendingVisits(store, true, false, reply, false);
    after := store.queue;
    sent := sync.submitted;
  }

  /** A save whose read came before a sync and whose write came after the sync's clear
      writes the already-sent records back, so the next sync sends them a second time. */
  method StaleSaveResendsRecords(q0: seq<QueuedVisit>, v: VisitData, now: nat, result: SyncResult)
    returns (sent: seq<seq<QueuedVisit>>)
    requires |q0| > 0 && ClearsQueue(result)
    ensures sent == [q0, q0 + [NewRecord(v, now)]]
  {
    var store := new StorageService();
    var _ := store.SetOfflineVisits(q0, false);
    var sync := new SyncService();
    // saveVisitOffline has read the list and is suspended before its write
    var read := store.GetOfflineVisits(false);
    var o := sync.SyncPendingVisits(store, true, false, Replied(result), false);
    // saveVisitOffline resumes and writes the list it read, plus the new record
    var _ := store.SetOfflineVisits(read + [NewRecord(v, now)], false);
    o := sync.SyncPendingVisits(store, true, false, Replied(result), false);
    sent := sync.submitted;
  }

  /** If the gateway throws, the queue is kept unchanged, the flag is reset and the error is
      re-thrown, so a later call sends the same batch again. */
  method GatewayErrorKeepsQueue(q0: seq<QueuedVisit>, e: string, result: SyncResult)
    returns (first: SyncOutcome, afterFirst: seq<QueuedVisit>, sent: seq<seq<QueuedVisit>>)
    requires |q0| > 0
    ensures first == Rethrown(e) && afterFirst == q0
    ensures sent == [q0, q0]
  {
    var store := new StorageService();
    var _ := store.SetOfflineVisits(q0, false);
    var sync := new SyncService();
    first := sync.SyncPendingVisits(store, true, false, Threw(e), false);
    afterFirst := store.queue;
    var second := sync.SyncPendingVisits(store, true, false, Replied(result), false);
    sent := sync.submitted;
  }
}
