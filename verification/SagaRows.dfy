/**
  What each operation of the coordinator does to the rows of its tables, field by
  field and with the numbers of the code.
*/
module SagaRows {
  import opened Entities
  import opened Coordinator
  import opened SagaWorld
  import opened SagaHandlers

  // ---------- Contents ----------

  /** Ratings and counts of the two rows are the same. */
  predicate SameFigures(x: ContentRow, y: ContentRow) {
    x.averageTenths == y.averageTenths && x.reviewCount == y.reviewCount && x.watcherCount == y.watcherCount
  }

  /** The changes of a content's status that an action can make. */
  predicate Moves(a: Action, c: Id, from: ContentStatus, to: ContentStatus) {
    || (a.Delete? && a.content == c && from == Active && to == Deleting)
    || (a.Deliver? && a.response.content == c && from == Deleting && to == Active)
    || (a.Deliver? && a.response.content == c && to == Deleted)
    || (a.Tick? && from == Deleting && to == Active)
  }

  /** The row with its lock lifted, and nothing else touched. */
  predicate Lifted(x: ContentRow, y: ContentRow, now: Time) {
    x.status == Deleting && y.status == Active && y.updatedAt == now && SameFigures(x, y)
  }

  lemma {:induction false} TimeOutAllLifts(st: CoordinatorState, now: Time, ids: seq<Id>, c: Id)
    requires c in st.contents && forall s :: s in ids ==> s in st.sagas
    ensures c in TimeOutAll(st, now, ids).contents
    ensures var x, y := st.contents[c], TimeOutAll(st, now, ids).contents[c];
            if x.status == Deleting && exists s :: s in ids && st.sagas[s].content == c then Lifted(x, y, now) else y == x
    decreases |ids|
  {
    if ids != [] {
      var n := |ids| - 1;
      assert ids == ids[..n] + [ids[n]];
      TimeOutAllLifts(st, now, ids[..n], c);
      TimeOutAllSagas(st, now, ids[..n]);
      assert TimeOutAll(st, now, ids[..n]).sagas[ids[n]].content == st.sagas[ids[n]].content;
    }
  }

  /** Started more than 180 seconds ago. */
  predicate Overdue(st: CoordinatorState, s: Id, now: Time) {
    s in st.sagas && st.sagas[s].status == Started && st.sagas[s].createdAt + 180_000 < now
  }

  /** Locked, by its own stamp, more than 180 seconds ago. */
  predicate LongLocked(x: ContentRow, now: Time) {
    x.status == Deleting && x.updatedAt + 180_000 < now
  }

  /**
    A sweep ends exactly the sagas started more than 180 seconds ago, and lifts
    exactly the locks of their contents and those older than that themselves.
  */
  lemma SweepExactly(st: CoordinatorState, now: Time, ids: seq<Id>)
    requires ListsTimedOut(st, now - TIMEOUT, ids)
    ensures var after := Sweep(st, now, ids);
            && after.sagas.Keys == st.sagas.Keys && after.contents.Keys == st.contents.Keys && after.inbox == st.inbox
            && (forall s :: s in st.sagas ==>
                  if Overdue(st, s, now)
                  then after.sagas[s] == st.sagas[s].(status := TimedOut, updatedAt := now)
                  else after.sagas[s] == st.sagas[s])
            && (forall c :: c in st.contents ==>
                  if LongLocked(st.contents[c], now)
                     || (st.contents[c].status == Deleting && exists s :: Overdue(st, s, now) && st.sagas[s].content == c)
                  then Lifted(st.contents[c], after.contents[c], now)
                  else after.contents[c] == st.contents[c])
  {
    hide TimeOutAll;
    TimeOutAllSagas(st, now, ids);
    TimeOutAllInbox(st, now, ids);
    TimeOutAllContents(st, now, ids);
    var after := Sweep(st, now, ids);
    forall s
      ensures s in ids <==> Overdue(st, s, now)
    {
    }
    forall c | c in st.contents
      ensures if LongLocked(st.contents[c], now)
                 || (st.contents[c].status == Deleting && exists s :: Overdue(st, s, now) && st.sagas[s].content == c)
              then Lifted(st.contents[c], after.contents[c], now)
              else after.contents[c] == st.contents[c]
    {
      TimeOutAllLifts(st, now, ids, c);
    }
  }

  lemma {:induction false} TimeOutAllContents(st: CoordinatorState, now: Time, ids: seq<Id>)
    ensures TimeOutAll(st, now, ids).contents.Keys == st.contents.Keys
    decreases |ids|
  {
    if ids != [] {
      TimeOutAllContents(st, now, ids[..|ids| - 1]);
    }
  }

  /** The second loop alone. */
  lemma FallbackExactly(st: CoordinatorState, now: Time)
    ensures var after := Fallback(st, now, now - TIMEOUT);
            && after.contents.Keys == st.contents.Keys
            && after.sagas == st.sagas && after.log == st.log && after.inbox == st.inbox
            && (forall c :: c in st.contents ==>
                  if LongLocked(st.contents[c], now) then Lifted(st.contents[c], after.contents[c], now)
                  else after.contents[c] == st.contents[c])
  {
  }

  // ---------- Starting ----------

  /** An accepted start locks the content, appends one START and adds one saga with nothing noted. */
  lemma StartExactly(st: CoordinatorState, c: Id, s: Id, lockedAt: Time, createdAt: Time)
    requires c in st.contents && s !in st.sagas
    ensures var after := StartDeletion(st, c, s, lockedAt, createdAt);
            if st.contents[c].status != Active then after == st
            else
              && after.contents.Keys == st.contents.Keys
              && (forall d :: d in st.contents && d != c ==> after.contents[d] == st.contents[d])
              && after.contents[c].status == Deleting && after.contents[c].updatedAt == lockedAt
              && SameFigures(st.contents[c], after.contents[c])
              && after.sagas.Keys == st.sagas.Keys + {s}
              && (forall t :: t in st.sagas ==> after.sagas[t] == st.sagas[t])
              && after.sagas[s] == SagaRow(c, Started, Pending, Pending, createdAt, createdAt)
              && after.log == st.log + [Start(s, c)] && after.inbox == st.inbox
  {
  }

  // ---------- Responses ----------

  /** The answer fails a saga in this state: a refusal, any text but SUCCESS from a participant, or an earlier failure. */
  predicate FailsSaga(row: SagaRow, who: Participant, answer: Answer) {
    || answer == Refused
    || (who != OtherParticipant && answer != Succeeded)
    || (who != Playlist && row.playlist == Failure)
    || (who != WatchingSession && row.watching == Failure)
  }

  /** With this answer both participants have succeeded. */
  predicate CompletesSaga(row: SagaRow, who: Participant) {
    (who == Playlist || row.playlist == Success) && (who == WatchingSession || row.watching == Success)
  }

  /**
    A response is recorded at the time it is handled, once; it moves only a saga
    still started, and of the contents only its own: unlocked and compensated by a
    failure, removed by the last success, and left alone otherwise.
  */
  lemma ResponseExactly(st: CoordinatorState, now: Time, e: Response)
    ensures var after := HandleResponse(st, now, e);
            var m := MessageId(e.saga, e.participant, e.answer);
            if m in st.inbox then after == st
            else
              && after.inbox == st.inbox[m := now]
              && (if e.saga !in st.sagas || st.sagas[e.saga].status != Started
                  then after.sagas == st.sagas && after.contents == st.contents && after.log == st.log
                  else RowAfter(st, after, now, e))
  {
    hide RowAfter;
    if e.MessageKey() !in st.inbox && e.saga in st.sagas && st.sagas[e.saga].status == Started {
      StartedExactly(st, now, e);
      SameRowAfter(st, ProcessUnseen(st, now, e), HandleResponse(st, now, e), now, e);
    }
  }

  lemma StartedExactly(st: CoordinatorState, now: Time, e: Response)
    requires e.saga in st.sagas && st.sagas[e.saga].status == Started
    ensures ProcessUnseen(st, now, e).inbox == st.inbox && RowAfter(st, ProcessUnseen(st, now, e), now, e)
  {
    var noted := st.sagas[e.saga].Noted(e.participant, e.answer, now);
    assert FailsSaga(st.sagas[e.saga], e.participant, e.answer) <==> e.answer == Refused || noted.AnyFailed();
    if FailsSaga(st.sagas[e.saga], e.participant, e.answer) {
    } else if CompletesSaga(st.sagas[e.saga], e.participant) {
      assert noted.AllSuccess();
    }
  }

  /** The inbox is no part of it. */
  lemma SameRowAfter(st: CoordinatorState, after: CoordinatorState, after': CoordinatorState, now: Time, e: Response)
    requires e.saga in st.sagas && RowAfter(st, after, now, e)
    requires after' == after.(inbox := after'.inbox)
    ensures RowAfter(st, after', now, e)
  {
  }

  /** What a response to a saga still started leaves of contents, sagas and topic. */
  ghost predicate RowAfter(st: CoordinatorState, after: CoordinatorState, now: Time, e: Response)
    requires e.saga in st.sagas
  {
    var row := st.sagas[e.saga];
    var failed := FailsSaga(row, e.participant, e.answer);
    var completed := !failed && CompletesSaga(row, e.participant);
    && after.sagas.Keys == st.sagas.Keys && after.contents.Keys == st.contents.Keys
    && (forall s :: s in st.sagas && s != e.saga ==> after.sagas[s] == st.sagas[s])
    && (forall c :: c in st.contents && c != e.content ==> after.contents[c] == st.contents[c])
    && var row' := after.sagas[e.saga];
    && row'.content == row.content && row'.createdAt == row.createdAt && row'.updatedAt == now
    && row'.status == (if failed then SagaStatus.Failed else if completed then Completed else Started)
    && row'.playlist == (if e.participant != Playlist then row.playlist else if e.answer == Succeeded then Success else Failure)
    && row'.watching ==
       (if e.participant != WatchingSession then row.watching else if e.answer == Succeeded then Success else Failure)
    && after.log == st.log + (if failed then [Compensate(e.saga, e.content), Compensate(e.saga, e.content)] else [])
    && (e.content in st.contents ==>
          var x, y := st.contents[e.content], after.contents[e.content];
          if failed && x.status == Deleting then Lifted(x, y, now)
          else if completed && x.status != Deleted
          then y.status == Deleted && y.updatedAt == now && SameFigures(x, y)
          else y == x)
  }

  /** A purge of the inbox takes the records before the threshold and nothing else. */
  lemma PurgeExactly(st: CoordinatorState, threshold: int)
    ensures var after := Coordinator.PurgeInbox(st, threshold);
            && (forall m :: m in st.inbox && st.inbox[m] < threshold ==> m !in after.inbox)
            && (forall m :: m in st.inbox && st.inbox[m] >= threshold ==> m in after.inbox && after.inbox[m] == st.inbox[m])
            && after.inbox.Keys <= st.inbox.Keys
            && after.contents == st.contents && after.sagas == st.sagas && after.log == st.log
  {
  }

  // ---------- Every step and every run ----------

  /** The only changes of a content: its status as allowed, stamped with the time; and the time stamp by an edit. */
  lemma StepOnRow(w: World, a: Action, c: Id)
    requires c in w.coord.contents
    ensures c in Step(w, a).coord.contents
    ensures var x, y := w.coord.contents[c], Step(w, a).coord.contents[c];
            && SameFigures(x, y)
            && (y.status != x.status ==> y.updatedAt == w.now && Moves(a, c, x.status, y.status))
            && (y.status == x.status ==> y.updatedAt == x.updatedAt || (a == EditContent(c) && y.updatedAt == w.now))
  {
    hide TimeOutAll, HandleResponse, Sweep, StartDeletion;
    match a
    case Deliver(e) => ResponseOnRow(w.coord, w.now, e, c);
    case Delete(d, s, delay) =>
      if s !in w.coord.sagas {
        StartOnRow(w.coord, d, s, w.now, w.now + delay, c);
      }
    case Tick(ids) =>
      if Sweeps(w, a) {
        SweepExactly(w.coord, w.now, ids);
      }
    case _ =>
  }

  lemma ResponseOnRow(st: CoordinatorState, now: Time, e: Response, c: Id)
    requires c in st.contents
    ensures c in HandleResponse(st, now, e).contents
    ensures var x, y := st.contents[c], HandleResponse(st, now, e).contents[c];
            && SameFigures(x, y)
            && (y != x ==> c == e.content && y.updatedAt == now && (y.status == Deleted || (x.status == Deleting && y.status == Active)))
            && (y.status == x.status ==> y == x)
  {
    hide HandleResponse;
    ResponseExactly(st, now, e);
  }

  lemma StartOnRow(st: CoordinatorState, d: Id, s: Id, lockedAt: Time, createdAt: Time, c: Id)
    requires c in st.contents && s !in st.sagas
    ensures var after := StartDeletion(st, d, s, lockedAt, createdAt);
            && c in after.contents
            && if c == d && st.contents[c].status == Active
               then after.contents[c].status == Deleting && after.contents[c].updatedAt == lockedAt
                    && SameFigures(st.contents[c], after.contents[c])
               else after.contents[c] == st.contents[c]
  {
  }

  /** No deletion, failed or not, ever changes the rating, the review count or the watcher count of a content. */
  lemma {:induction false} FiguresSurvive(w: World, acts: seq<Action>, c: Id)
    requires c in w.coord.contents
    ensures c in Exec(w, acts).coord.contents
    ensures var x, y := w.coord.contents[c], Exec(w, acts).coord.contents[c];
            y.averageTenths == x.averageTenths && y.reviewCount == x.reviewCount && y.watcherCount == x.watcherCount
    decreases |acts|
  {
    hide Step;
    if acts != [] {
      StepOnRow(w, acts[0], c);
      FiguresSurvive(Step(w, acts[0]), acts[1..], c);
    }
  }
}
