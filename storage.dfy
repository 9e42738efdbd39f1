/** The client's persistent store (frontend/src/services/storage.js): the list kept under the
    key 'offline-visits' and the cached user, both in a browser key-value store.
    A failing read or write of that store is a boolean parameter of each operation. */
module Storage {
  import opened Common
  import opened Text
  import opened Records

  /** The client id of a record queued at clock value `now`: "offline-" followed by the
      clock in decimal. */
  function OfflineId(now: nat): string {
    "offline-" + NatToString(now)
  }

  /** The record `saveVisitOffline` stores: the visit's fields plus the client id, the flag
      `syncronizado` set to false and the creation time. */
  function NewRecord(visit: VisitData, now: nat): QueuedVisit {
    QueuedVisit(visit, OfflineId(now), false, now)
  }

  /** The queue a `saveVisitOffline` call leaves behind: the list it read (empty if the
      read failed) with the new record pushed at the end, or the old queue if the write failed. */
  function QueueAfterSave(queue: seq<QueuedVisit>, visit: VisitData, now: nat, readFails: bool, writeFails: bool): seq<QueuedVisit> {
    if writeFails then queue else (if readFails then [] else queue) + [NewRecord(visit, now)]
  }

  /** Two queued records get the same id exactly when they were queued at the same clock value. */
  lemma OfflineIdsDistinct(t1: nat, t2: nat)
    ensures OfflineId(t1) == OfflineId(t2) <==> t1 == t2
  {
    if OfflineId(t1) == OfflineId(t2) {
      assert OfflineId(t1)[8..] == NatToString(t1);
      assert OfflineId(t2)[8..] == NatToString(t2);
      NatToStringInjective(t1, t2);
    }
  }

  /** A successful save appends exactly one record at the end and keeps every earlier record
      in place; the record carries the visit unchanged and is not marked as synchronised. */
  lemma SaveAppendsOne(queue: seq<QueuedVisit>, visit: VisitData, now: nat)
    ensures var q := QueueAfterSave(queue, visit, now, false, false);
      |q| == |queue| + 1 && q[..|queue|] == queue &&
      q[|queue|].visit == visit && !q[|queue|].syncronizado && q[|queue|].createdAt == now &&
      q[|queue|].id == OfflineId(now)
  {
    var q := QueueAfterSave(queue, visit, now, false, false);
    assert q[..|queue|] == queue;
  }

  /** A read failure inside a save is swallowed, so the save overwrites the whole queue with the
      one new record: every earlier record is lost. */
  lemma SaveAfterFailedReadDropsQueue(queue: seq<QueuedVisit>, visit: VisitData, now: nat)
    ensures QueueAfterSave(queue, visit, now, true, false) == [NewRecord(visit, now)]
    ensures forall r :: r in queue && r != NewRecord(visit, now) ==> r !in QueueAfterSave(queue, visit, now, true, false)
  {
  }

  /** Saving several visits in a row without failures queues one record per visit, in order. */
  function QueueAfterSaves(queue: seq<QueuedVisit>, visits: seq<VisitData>, clocks: seq<nat>): seq<QueuedVisit>
    requires |visits| == |clocks|
    decreases |visits|
  {
    if visits == [] then queue
    else QueueAfterSaves(QueueAfterSave(queue, visits[0], clocks[0], false, false), visits[1..], clocks[1..])
  }

  lemma {:induction false} SavesKeepOrder(queue: seq<QueuedVisit>, visits: seq<VisitData>, clocks: seq<nat>)
    requires |visits| == |clocks|
    decreases |visits|
    ensures var q := QueueAfterSaves(queue, visits, clocks);
      |q| == |queue| + |visits| && q[..|queue|] == queue &&
      forall i :: 0 <= i < |visits| ==> q[|queue| + i] == NewRecord(visits[i], clocks[i])
  {
    if visits != [] {
      var q1 := QueueAfterSave(queue, visits[0], clocks[0], false, false);
      SaveAppendsOne(queue, visits[0], clocks[0]);
      SavesKeepOrder(q1, visits[1..], clocks[1..]);
      var q := QueueAfterSaves(q1, visits[1..], clocks[1..]);
      assert q[..|queue|] == q[..|q1|][..|queue|];
      forall i | 0 <= i < |visits|
        ensures q[|queue| + i] == NewRecord(visits[i], clocks[i])
      {
        if i == 0 {
          assert q[|queue|] == q[..|q1|][|queue|];
        } else {
          assert q[|queue| + i] == q[|q1| + (i - 1)];
        }
      }
    }
  }

  /** The outcome of `saveVisitOffline`: the stored record, or the re-thrown storage error. */
  datatype SaveOutcome = Saved(record: QueuedVisit) | SaveThrew

  class StorageService {
    /** The value under 'offline-visits' (an absent key reads as []). */
    var queue: seq<QueuedVisit>
    /** The value under 'user'. */
    var user: Option<User>

    constructor ()
      ensures queue == [] && user == None
    {
      queue := [];
      user := None;
    }

    /** `getOfflineVisits`: the stored list, or [] when the read fails; it never throws. */
    method GetOfflineVisits(readFails: bool) returns (visits: seq<QueuedVisit>)
      ensures visits == if readFails then [] else queue
    {
      if readFails {
        visits := [];
      } else {
        visits := queue;
      }
    }

    /** `localforage.setItem('offline-visits', visits)`; a failed write changes nothing. */
    method SetOfflineVisits(visits: seq<QueuedVisit>, writeFails: bool) returns (ok: bool)
      modifies this
      ensures ok == !writeFails
      ensures queue == if writeFails then old(queue) else visits
      ensures user == old(user)
    {
      ok := !writeFails;
      if ok {
        queue := visits;
      }
    }

    /** `saveVisitOffline`: read the list, push the new record, write the list back.
        A failed write is re-thrown; a failed read is not. */
    method SaveVisitOffline(visit: VisitData, now: nat, readFails: bool, writeFails: bool) returns (outcome: SaveOutcome)
      modifies this
      ensures outcome == if writeFails then SaveThrew else Saved(NewRecord(visit, now))
      ensures queue == QueueAfterSave(old(queue), visit, now, readFails, writeFails)
      ensures user == old(user)
    {
      var visits := GetOfflineVisits(readFails);
      var record := NewRecord(visit, now);
      visits := visits + [record];
      var ok := SetOfflineVisits(visits, writeFails);
      outcome := if ok then Saved(record) else SaveThrew;
    }

    /** `clearSyncedVisits`: writes [] whatever the records' flags say; errors are swallowed. */
    method ClearSyncedVisits(writeFails: bool)
      modifies this
      ensures queue == if writeFails then old(queue) else []
      ensures user == old(user)
    {
      var _ := SetOfflineVisits([], writeFails);
    }

    /** `saveUser`: errors are swallowed. */
    method SaveUser(u: User, writeFails: bool)
      modifies this
      ensures user == if writeFails then old(user) else Some(u)
      ensures queue == old(queue)
    {
      if !writeFails {
        user := Some(u);
      }
    }

    /** `getUser`: the cached user, or null when absent or when the read fails. */
    method GetUser(readFails: bool) returns (u: Option<User>)
      ensures u == if readFails then None else user
    {
      u := if readFails then None else user;
    }

    /** `clear`: removes every key; errors are swallowed. */
    method Clear(fails: bool)
      modifies this
      ensures if fails then queue == old(queue) && user == old(user) else queue == [] && user == None
    {
      if !fails {
        queue := [];
        user := None;
      }
    }
  }

  /** `saveUser(u)` followed by a successful `getUser()` yields `u`, whatever was stored before. */
  method SaveUserThenGetUser(store: StorageService, u: User) returns (got: Option<User>)
    modifies store
    ensures got == Some(u)
  {
    store.SaveUser(u, false);
    got := store.GetUser(false);
  }

  /** After a successful `clear()`, the user reads as null and the queue as []. */
  method ClearThenRead(store: StorageService) returns (got: Option<User>, visits: seq<QueuedVisit>)
    modifies store
    ensures got == None && visits == []
  {
    store.Clear(false);
    got := store.GetUser(false);
    visits := store.GetOfflineVisits(false);
  }
}
