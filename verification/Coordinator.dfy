/**
  The coordinator of the deletion saga (mopl-content): its tables, and what the
  start step, the response handler, the timeout scheduler and the inbox purge
  do to them. Every handler is one serialised transaction.
*/
module Coordinator {
  import opened Entities

  const TIMEOUT: nat := 180_000

  /** An entry of the start topic. */
  datatype Command =
    | Start(saga: Id, content: Id)
    | Compensate(saga: Id, content: Id)

  /** An entry of the response topic. */
  datatype Response = Response(saga: Id, content: Id, participant: Participant, answer: Answer)
  {
    function MessageKey(): MessageId {
      MessageId(saga, participant, answer)
    }
  }

  datatype MessageId = MessageId(saga: Id, participant: Participant, answer: Answer)

  /** The tables of mopl-content, and the start topic that the outbox and the direct sends feed. */
  datatype CoordinatorState = CoordinatorState(
    contents: map<Id, ContentRow>,
    sagas: map<Id, SagaRow>,
    inbox: map<MessageId, Time>,
    log: seq<Command>)

  // ---------- What the handlers compute ----------

  function SaveContent(st: CoordinatorState, content: Id, row: ContentRow): CoordinatorState {
    st.(contents := st.contents[content := row])
  }

  function SaveSaga(st: CoordinatorState, saga: Id, row: SagaRow): CoordinatorState {
    st.(sagas := st.sagas[saga := row])
  }

  /** COMPENSATE is sent to the topic directly and stored in the outbox as well: the topic gets it twice. */
  function Publish(st: CoordinatorState, saga: Id, content: Id): CoordinatorState {
    st.(log := st.log + [Compensate(saga, content), Compensate(saga, content)])
  }

  function RestoreContent(st: CoordinatorState, content: Id, now: Time): CoordinatorState {
    if content in st.contents then SaveContent(st, content, st.contents[content].Restored(now)) else st
  }

  function RemoveContent(st: CoordinatorState, content: Id, now: Time): CoordinatorState {
    if content in st.contents then SaveContent(st, content, st.contents[content].Removed(now)) else st
  }

  function Record(st: CoordinatorState, m: MessageId, now: Time): CoordinatorState {
    st.(inbox := st.inbox[m := now])
  }

  /** The start step. The content is locked at `lockedAt` and the saga stamped at `createdAt`: two clock readings. */
  function StartDeletion(st: CoordinatorState, content: Id, saga: Id, lockedAt: Time, createdAt: Time): CoordinatorState {
    if content in st.contents && st.contents[content].status == Active then
      var row := st.contents[content].(status := Deleting, updatedAt := lockedAt);
      var started := SagaRow(content, Started, Pending, Pending, createdAt, createdAt);
      var st1 := SaveSaga(SaveContent(st, content, row), saga, started);
      st1.(log := st1.log + [Start(saga, content)])
    else
      st
  }

  /** A response taken for new, whatever the inbox says. */
  function ProcessUnseen(st: CoordinatorState, now: Time, e: Response): CoordinatorState {
    if e.saga !in st.sagas || st.sagas[e.saga].Finished() then
      st
    else
      var noted := st.sagas[e.saga].Noted(e.participant, e.answer, now);
      if e.answer == Refused || noted.AnyFailed() then
        var st1 := SaveSaga(st, e.saga, noted.(status := Failed));
        Publish(RestoreContent(st1, e.content, now), e.saga, e.content)
      else if noted.AllSuccess() then
        RemoveContent(SaveSaga(st, e.saga, noted.(status := Completed)), e.content, now)
      else
        SaveSaga(st, e.saga, noted)
  }

  function HandleResponse(st: CoordinatorState, now: Time, e: Response): CoordinatorState {
    if e.MessageKey() in st.inbox then st
    else Record(ProcessUnseen(st, now, e), e.MessageKey(), now)
  }

  function PurgeInbox(st: CoordinatorState, threshold: int): CoordinatorState {
    st.(inbox := map m | m in st.inbox && st.inbox[m] >= threshold :: st.inbox[m])
  }

  /** `ids` lists the started sagas created before the threshold, each once: any answer of the query. */
  ghost predicate ListsTimedOut(st: CoordinatorState, threshold: int, ids: seq<Id>) {
    && (forall i, j :: 0 <= i < j < |ids| ==> ids[i] != ids[j])
    && (forall s :: s in ids <==> s in st.sagas && st.sagas[s].status == Started && st.sagas[s].createdAt < threshold)
  }

  function TimeOutOne(st: CoordinatorState, now: Time, saga: Id): CoordinatorState {
    if saga in st.sagas then
      var row := st.sagas[saga];
      var st1 := SaveSaga(st, saga, row.(status := TimedOut, updatedAt := now));
      Publish(RestoreContent(st1, row.content, now), saga, row.content)
    else
      st
  }

  function TimeOutAll(st: CoordinatorState, now: Time, ids: seq<Id>): CoordinatorState
    decreases |ids|
  {
    if ids == [] then st
    else TimeOutOne(TimeOutAll(st, now, ids[..|ids| - 1]), now, ids[|ids| - 1])
  }

  predicate Stale(row: ContentRow, threshold: int) {
    row.status == Deleting && row.updatedAt < threshold
  }

  /** The safety net: every content still locked and untouched since the threshold is unlocked. */
  function Fallback(st: CoordinatorState, now: Time, threshold: int): CoordinatorState {
    st.(contents := map c | c in st.contents ::
          if Stale(st.contents[c], threshold) then st.contents[c].Restored(now) else st.contents[c])
  }

  function Sweep(st: CoordinatorState, now: Time, ids: seq<Id>): CoordinatorState {
    Fallback(TimeOutAll(st, now, ids), now, now - TIMEOUT)
  }

  /** The rows with their watcher counts replaced where the batch names them. */
  function WithWatcherCounts(contents: map<Id, ContentRow>, counts: map<Id, nat>): map<Id, ContentRow> {
    map c | c in contents ::
      if c in counts then contents[c].(watcherCount := counts[c]) else contents[c]
  }

  // ---------- The services themselves ----------

  /** The tables of the service, shared by its components. */
  class ContentDb {
    var contents: map<Id, ContentRow>
    var sagas: map<Id, SagaRow>
    var inbox: map<MessageId, Time>
    var log: seq<Command>

    constructor ()
      ensures State() == CoordinatorState(map[], map[], map[], [])
    {
      contents, sagas, inbox, log := map[], map[], map[], [];
    }

    function State(): CoordinatorState
      reads this
    {
      CoordinatorState(contents, sagas, inbox, log)
    }

    /** Sends COMPENSATE directly, then stores it in the outbox. */
    method PublishCompensation(saga: Id, content: Id)
      modifies this
      ensures State() == Publish(old(State()), saga, content)
    {
      log := log + [Compensate(saga, content)];
      log := log + [Compensate(saga, content)];
    }

    /** Loads the content if it is there, restores it and saves it back. */
    method RestoreActive(content: Id, now: Time)
      modifies this`contents
      ensures State() == RestoreContent(old(State()), content, now)
    {
      if content in contents {
        var entity := new Content.Load(contents[content]);
        entity.RestoreActive(now);
        contents := contents[content := entity.Row()];
      }
    }

    /** Loads the content if it is there, marks it deleted and saves it back. */
    method MarkAsDeleted(content: Id, now: Time)
      modifies this`contents
      ensures State() == RemoveContent(old(State()), content, now)
    {
      if content in contents {
        var entity := new Content.Load(contents[content]);
        entity.MarkAsDeleted(now);
        contents := contents[content := entity.Row()];
      }
    }

    method FindStartedBefore(threshold: int) returns (ids: seq<Id>)
      ensures ListsTimedOut(State(), threshold, ids)
    {
      ids := [];
      var left := set s | s in sagas && sagas[s].status == Started && sagas[s].createdAt < threshold;
      ghost var all := left;
      while left != {}
        invariant left <= all
        invariant forall s :: s in ids <==> s in all && s !in left
        invariant forall i, j :: 0 <= i < j < |ids| ==> ids[i] != ids[j]
        decreases left
      {
        var s :| s in left;
        ids := ids + [s];
        left := left - {s};
      }
    }
  }

  datatype DeleteResult = Accepted | NotFound | NotActive

  class ContentCommandService {
    const db: ContentDb

    constructor (db: ContentDb)
      ensures this.db == db
    {
      this.db := db;
    }

    /** `saga` is the fresh identifier drawn; the clock is read twice. */
    method DeleteSaga(content: Id, saga: Id, lockedAt: Time, createdAt: Time) returns (r: DeleteResult)
      modifies db
      ensures db.State() == StartDeletion(old(db.State()), content, saga, lockedAt, createdAt)
      ensures r == NotFound <==> content !in old(db.contents)
      ensures r == Accepted <==> content in old(db.contents) && old(db.contents)[content].status == Active
      ensures r != Accepted ==> db.State() == old(db.State())
    {
      if content !in db.contents {
        return NotFound;
      }
      var entity := new Content.Load(db.contents[content]);
      var ok := entity.MarkAsDeleting(lockedAt);
      if !ok {
        return NotActive;
      }
      db.contents := db.contents[content := entity.Row()];
      var instance := new SagaInstance.Create(content, createdAt);
      db.sagas := db.sagas[saga := instance.Row()];
      db.log := db.log + [Start(saga, content)];
      return Accepted;
    }

    /** Updates only the rows whose count differs, and says how many those were. */
    method UpdateWatcherCounts(counts: map<Id, nat>) returns (updated: nat)
      modifies db
      ensures db.State() == old(db.State()).(contents := WithWatcherCounts(old(db.contents), counts))
      ensures db.contents.Keys == old(db.contents).Keys
      ensures forall c :: c in db.contents ==>
                            db.contents[c] == old(db.contents)[c].(watcherCount := db.contents[c].watcherCount)
      ensures forall c :: c in db.contents ==>
                            db.contents[c].watcherCount == if c in counts then counts[c] else old(db.contents)[c].watcherCount
      ensures updated == |set c | c in counts && c in old(db.contents) && old(db.contents)[c].watcherCount != counts[c]|
    {
      updated := 0;
      var before := db.contents;
      var left := counts.Keys;
      ghost var changed: set<Id> := {};
      while left != {}
        invariant left <= counts.Keys
        invariant db.sagas == old(db.sagas) && db.inbox == old(db.inbox) && db.log == old(db.log)
        invariant db.contents.Keys == before.Keys
        invariant forall c :: c in before && (c in left || c !in counts) ==> db.contents[c] == before[c]
        invariant forall c :: c in before && c in counts && c !in left ==>
                                db.contents[c] == before[c].(watcherCount := counts[c])
        invariant changed == set c | c in counts && c !in left && c in before && before[c].watcherCount != counts[c]
        invariant updated == |changed|
        decreases left
      {
        var c :| c in left;
        if c in db.contents && db.contents[c].watcherCount != counts[c] {
          db.contents := db.contents[c := db.contents[c].(watcherCount := counts[c])];
          updated := updated + 1;
          changed := changed + {c};
        }
        left := left - {c};
      }
      assert db.contents == WithWatcherCounts(before, counts);
      assert changed == set c | c in counts && c in before && before[c].watcherCount != counts[c];
    }
  }

  class ContentSagaEventListener {
    const db: ContentDb

    constructor (db: ContentDb)
      ensures this.db == db
    {
      this.db := db;
    }

    method ProcessSagaResponse(now: Time, e: Response)
      modifies db
      ensures db.State() == HandleResponse(old(db.State()), now, e)
    {
      var messageId := e.MessageKey();
      if messageId in db.inbox {
        return;
      }
      if e.saga !in db.sagas {
        db.inbox := db.inbox[messageId := now];
        return;
      }
      var saga := new SagaInstance.Load(db.sagas[e.saga]);
      if saga.IsFinished() {
        db.inbox := db.inbox[messageId := now];
        return;
      }
      saga.UpdateParticipant(e.participant, e.answer, now);
      if e.answer == Refused || saga.IsAnyFailed() {
        saga.MarkFailed(now);
        db.sagas := db.sagas[e.saga := saga.Row()];
        db.RestoreActive(e.content, now);
        db.PublishCompensation(e.saga, e.content);
      } else if saga.IsAllSuccess() {
        saga.MarkCompleted(now);
        db.sagas := db.sagas[e.saga := saga.Row()];
        db.MarkAsDeleted(e.content, now);
      } else {
        db.sagas := db.sagas[e.saga := saga.Row()];
      }
      db.inbox := db.inbox[messageId := now];
    }
  }

  class ContentSagaTimeoutScheduler {
    const db: ContentDb

    constructor (db: ContentDb)
      ensures this.db == db
    {
      this.db := db;
    }

    /** `ids` is the answer of the first query. */
    method HandleTimedOutSaga(now: Time) returns (ids: seq<Id>)
      modifies db
      ensures ListsTimedOut(old(db.State()), now - TIMEOUT, ids)
      ensures db.State() == Sweep(old(db.State()), now, ids)
    {
      var threshold := now - TIMEOUT;
      ids := db.FindStartedBefore(threshold);
      for i := 0 to |ids|
        invariant db.State() == TimeOutAll(old(db.State()), now, ids[..i])
        invariant db.sagas.Keys == old(db.sagas).Keys
      {
        TimeOutOneSaga(now, ids[i]);
        assert ids[..i + 1][..i] == ids[..i];
      }
      assert ids[..|ids|] == ids;
      UnlockStale(now, threshold);
    }

    /** One turn of the first loop. */
    method TimeOutOneSaga(now: Time, id: Id)
      requires id in db.sagas
      modifies db
      ensures db.State() == TimeOutOne(old(db.State()), now, id)
    {
      var saga := new SagaInstance.Load(db.sagas[id]);
      saga.MarkTimedOut(now);
      db.sagas := db.sagas[id := saga.Row()];
      db.RestoreActive(saga.content, now);
      db.PublishCompensation(id, saga.content);
    }

    /** The second query and the second loop. */
    method UnlockStale(now: Time, threshold: int)
      modifies db
      ensures db.State() == Fallback(old(db.State()), now, threshold)
    {
      var before := db.contents;
      var left := set c | c in before && Stale(before[c], threshold);
      while left != {}
        invariant left <= before.Keys
        invariant forall c :: c in left ==> Stale(before[c], threshold)
        invariant db.sagas == old(db.sagas) && db.inbox == old(db.inbox) && db.log == old(db.log)
        invariant db.contents.Keys == before.Keys
        invariant forall c :: c in before && (c in left || !Stale(before[c], threshold)) ==> db.contents[c] == before[c]
        invariant forall c :: c in before && c !in left && Stale(before[c], threshold) ==>
                                db.contents[c] == before[c].Restored(now)
        decreases left
      {
        var c :| c in left;
        var content := new Content.Load(db.contents[c]);
        content.RestoreActive(now);
        db.contents := db.contents[c := content.Row()];
        left := left - {c};
      }
      assert db.contents == Fallback(old(db.State()), now, threshold).contents;
    }
  }

  class InboxService {
    const db: ContentDb

    constructor (db: ContentDb)
      ensures this.db == db
    {
      this.db := db;
    }

    /** Deletes the records processed before the threshold and counts them. */
    method PurgeOldInboxEvents(threshold: int) returns (deleted: nat)
      modifies db
      ensures db.State() == PurgeInbox(old(db.State()), threshold)
      ensures forall m :: m in db.inbox <==> m in old(db.inbox) && threshold <= old(db.inbox)[m]
      ensures forall m :: m in db.inbox ==> db.inbox[m] == old(db.inbox)[m]
      ensures db.contents == old(db.contents) && db.sagas == old(db.sagas) && db.log == old(db.log)
      ensures deleted + |db.inbox| == |old(db.inbox)|
    {
      var old' := set m | m in db.inbox && db.inbox[m] < threshold;
      deleted := |old'|;
      ghost var before := db.inbox;
      db.inbox := db.inbox - old';
      assert db.inbox == PurgeInbox(old(db.State()), threshold).inbox;
      assert before.Keys == db.inbox.Keys + old';
    }
  }
}
