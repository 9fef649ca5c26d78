/**
  What ties contents, sagas and the start topic together inside the
  coordinator, and why each of its transitions keeps it.
*/
module SagaCoupling {
  import opened Entities
  import opened Coordinator
  import opened SagaWorld

  predicate Undone(row: SagaRow) {
    row.status == SagaStatus.Failed || row.status == TimedOut
  }

  /** A content is locked exactly while one started saga names it, and removed exactly when one completed saga does. */
  ghost predicate Coupled(st: CoordinatorState) {
    && (forall s :: s in st.sagas ==> RowCoupled(st, s))
    && ContentsDriven(st)
    && SoleDrivers(st)
  }

  predicate RowCoupled(st: CoordinatorState, s: Id)
    requires s in st.sagas
  {
    var row := st.sagas[s];
    && row.content in st.contents
    && (row.status == Started ==>
          st.contents[row.content].status == Deleting && !row.AnyFailed() && !row.AllSuccess())
    && (row.status == Completed ==> st.contents[row.content].status == Deleted && row.AllSuccess())
  }

  ghost predicate ContentsDriven(st: CoordinatorState) {
    && (forall c :: c in st.contents && st.contents[c].status == Deleting ==> exists s :: Drives(st, s, c, Started))
    && (forall c :: c in st.contents && st.contents[c].status == Deleted ==> exists s :: Drives(st, s, c, Completed))
  }

  ghost predicate SoleDrivers(st: CoordinatorState) {
    && (forall s, t, c :: Drives(st, s, c, Started) && Drives(st, t, c, Started) ==> s == t)
    && (forall s, t, c :: Drives(st, s, c, Completed) && Drives(st, t, c, Completed) ==> s == t)
  }

  ghost predicate Drives(st: CoordinatorState, s: Id, c: Id, status: SagaStatus) {
    s in st.sagas && st.sagas[s].content == c && st.sagas[s].status == status
  }

  /** The start topic: what Tallied says, and every entry in its place. */
  ghost predicate LogSound(st: CoordinatorState) {
    Tallied(st) && Ordered(st.log)
  }

  /** Every saga's START, a COMPENSATE exactly for the sagas undone, and each as often as it should be. */
  ghost predicate Tallied(st: CoordinatorState) {
    && (forall c :: c in st.log ==> Entry(st.sagas, c))
    && (forall s :: s in st.sagas ==> Start(s, st.sagas[s].content) in st.log)
    && (forall s :: s in st.sagas && Undone(st.sagas[s]) ==> Compensate(s, st.sagas[s].content) in st.log)
    && LogCounted(st)
  }

  /** Every entry was in its place when it was appended. */
  ghost predicate Ordered(log: seq<Command>)
    decreases |log|
  {
    log == [] || (Ordered(log[..|log| - 1]) && InPlace(log[..|log| - 1], log[|log| - 1]))
  }

  /**
    A COMPENSATE comes after its START; a START of a content after the
    COMPENSATE of every earlier saga of that content.
  */
  ghost predicate InPlace(earlier: seq<Command>, c: Command) {
    match c
    case Compensate(s, content) => Start(s, content) in earlier
    case Start(s, content) =>
      forall t :: Start(t, content) in earlier ==> t != s && Compensate(t, content) in earlier
  }

  /** How often each command occurs: one START, and the COMPENSATE twice or never. */
  ghost predicate LogCounted(st: CoordinatorState) {
    forall s :: s in st.sagas ==>
      && Occurrences(st.log, Start(s, st.sagas[s].content)) == 1
      && Occurrences(st.log, Compensate(s, st.sagas[s].content)) == if Undone(st.sagas[s]) then 2 else 0
  }

  ghost function Occurrences(log: seq<Command>, c: Command): nat {
    multiset(log)[c]
  }

  /** An entry names a known saga with its content, and compensates only a saga undone. */
  predicate Entry(sagas: map<Id, SagaRow>, c: Command) {
    && c.saga in sagas
    && sagas[c.saga].content == c.content
    && (c.Compensate? ==> Undone(sagas[c.saga]))
  }

  ghost predicate CoordSound(st: CoordinatorState) {
    Coupled(st) && LogSound(st)
  }

  // ---------- Transitions ----------

  /** A saga is undone, by a failure or a timeout, and its content unlocked. */
  function Undo(st: CoordinatorState, s: Id, row: SagaRow, now: Time): CoordinatorState {
    Publish(RestoreContent(SaveSaga(st, s, row), row.content, now), s, row.content)
  }

  /** A saga completes, and its content is removed. */
  function Complete(st: CoordinatorState, s: Id, row: SagaRow, now: Time): CoordinatorState {
    RemoveContent(SaveSaga(st, s, row), row.content, now)
  }

  lemma OthersDriveOthers(st: CoordinatorState, s: Id)
    requires Coupled(st) && s in st.sagas && st.sagas[s].status == Started
    ensures forall t :: t in st.sagas && t != s && st.sagas[t].status == Started ==>
                          st.sagas[t].content != st.sagas[s].content
  {
    forall t | t in st.sagas && t != s && st.sagas[t].status == Started
      ensures st.sagas[t].content != st.sagas[s].content
    {
      assert Drives(st, t, st.sagas[t].content, Started) && Drives(st, s, st.sagas[s].content, Started);
    }
  }

  /** Contents other than `c0` keep their status and their sagas, so they stay driven as before. */
  lemma KeptDrivers(st: CoordinatorState, after: CoordinatorState, c0: Id)
    requires Coupled(st) && after.contents.Keys == st.contents.Keys
    requires forall c :: c in st.contents && c != c0 ==> after.contents[c].status == st.contents[c].status
    requires forall s, c, status :: c != c0 && Drives(st, s, c, status) ==> Drives(after, s, c, status)
    ensures forall c :: c in after.contents && c != c0 && after.contents[c].status == Deleting ==>
                          exists s :: Drives(after, s, c, Started)
    ensures forall c :: c in after.contents && c != c0 && after.contents[c].status == Deleted ==>
                          exists s :: Drives(after, s, c, Completed)
  {
    forall c | c in after.contents && c != c0 && after.contents[c].status == Deleting
      ensures exists s :: Drives(after, s, c, Started)
    {
      var s :| Drives(st, s, c, Started);
      assert Drives(after, s, c, Started);
    }
    forall c | c in after.contents && c != c0 && after.contents[c].status == Deleted
      ensures exists s :: Drives(after, s, c, Completed)
    {
      var s :| Drives(st, s, c, Completed);
      assert Drives(after, s, c, Completed);
    }
  }

  /** The status that a saga of this status gives its content. */
  function StatusUnder(status: SagaStatus): ContentStatus {
    match status
    case Started => Deleting
    case Completed => Deleted
    case Failed => Active
    case TimedOut => Active
  }

  /** A started saga moves on, and its content with it. */
  ghost predicate Moves(st: CoordinatorState, after: CoordinatorState, s: Id, row: SagaRow) {
    && s in st.sagas && st.sagas[s].status == Started && st.sagas[s].content == row.content
    && (row.status == Started ==> !row.AnyFailed() && !row.AllSuccess())
    && (row.status == Completed ==> row.AllSuccess())
    && after.sagas == st.sagas[s := row]
    && after.contents.Keys == st.contents.Keys
    && (forall c :: c in st.contents ==>
          after.contents[c].status == if c == row.content then StatusUnder(row.status) else st.contents[c].status)
  }

  lemma MovesDrives(st: CoordinatorState, after: CoordinatorState, s: Id, row: SagaRow)
    requires Moves(st, after, s, row)
    ensures forall t, c, status :: Drives(after, t, c, status) <==>
              if t == s then c == row.content && status == row.status else Drives(st, t, c, status)
  {
  }

  /** Of the content of a started saga every other saga is undone. */
  lemma OthersUndone(st: CoordinatorState, s: Id)
    requires Coupled(st) && s in st.sagas && st.sagas[s].status == Started
    ensures forall t, status :: Drives(st, t, st.sagas[s].content, status) && t != s ==>
                                  status != Started && status != Completed
  {
    hide ContentsDriven, SoleDrivers;
    OthersDriveOthers(st, s);
    assert RowCoupled(st, s);
  }

  lemma MoveSole(st: CoordinatorState, after: CoordinatorState, s: Id, row: SagaRow)
    requires Coupled(st) && Moves(st, after, s, row)
    ensures SoleDrivers(after)
  {
    OthersUndone(st, s);
    MovesDrives(st, after, s, row);
    hide Moves, Drives, ContentsDriven, RowCoupled;
  }

  lemma MoveRows(st: CoordinatorState, after: CoordinatorState, s: Id, row: SagaRow)
    requires Coupled(st) && Moves(st, after, s, row)
    ensures forall t :: t in after.sagas ==> RowCoupled(after, t)
  {
    hide SoleDrivers, ContentsDriven;
    OthersUndone(st, s);
    forall t | t in after.sagas
      ensures RowCoupled(after, t)
    {
      assert RowCoupled(st, t);
      assert t != s ==> Drives(st, t, st.sagas[t].content, st.sagas[t].status);
    }
  }

  lemma MoveCoupled(st: CoordinatorState, after: CoordinatorState, s: Id, row: SagaRow)
    requires Coupled(st) && Moves(st, after, s, row)
    ensures Coupled(after)
  {
    MoveSole(st, after, s, row);
    MoveRows(st, after, s, row);
    MovesDrives(st, after, s, row);
    KeptDrivers(st, after, row.content);
    assert RowCoupled(st, s);
    assert Drives(after, s, row.content, row.status);
    hide SoleDrivers, RowCoupled, Drives;
  }

  lemma UndoCoupled(st: CoordinatorState, s: Id, row: SagaRow, now: Time)
    requires Coupled(st) && s in st.sagas && st.sagas[s].status == Started
    requires row.content == st.sagas[s].content && Undone(row)
    ensures Coupled(Undo(st, s, row, now))
  {
    assert RowCoupled(st, s);
    hide Coupled;
    MoveCoupled(st, Undo(st, s, row, now), s, row);
  }

  lemma CompleteCoupled(st: CoordinatorState, s: Id, row: SagaRow, now: Time)
    requires Coupled(st) && s in st.sagas && st.sagas[s].status == Started
    requires row.content == st.sagas[s].content && row.status == Completed && row.AllSuccess()
    ensures Coupled(Complete(st, s, row, now))
  {
    assert RowCoupled(st, s);
    hide Coupled;
    MoveCoupled(st, Complete(st, s, row, now), s, row);
  }

  /** A success is noted and the saga waits for the other participant. */
  lemma NoteCoupled(st: CoordinatorState, s: Id, row: SagaRow)
    requires Coupled(st) && s in st.sagas && st.sagas[s].status == Started
    requires row.content == st.sagas[s].content && row.status == Started && !row.AnyFailed() && !row.AllSuccess()
    ensures Coupled(SaveSaga(st, s, row))
  {
    assert RowCoupled(st, s);
    hide Coupled;
    MoveCoupled(st, SaveSaga(st, s, row), s, row);
  }

  lemma StartDrives(st: CoordinatorState, c: Id, s: Id, lockedAt: Time, createdAt: Time)
    requires s !in st.sagas && c in st.contents && st.contents[c].status == Active
    ensures var after := StartDeletion(st, c, s, lockedAt, createdAt);
            forall t, d, status :: Drives(after, t, d, status) <==>
              if t == s then d == c && status == Started else Drives(st, t, d, status)
  {
  }

  /** An active content has neither a started nor a completed saga. */
  lemma NobodyDrives(st: CoordinatorState, c: Id)
    requires Coupled(st) && c in st.contents && st.contents[c].status == Active
    ensures forall t :: !Drives(st, t, c, Started) && !Drives(st, t, c, Completed)
  {
    hide ContentsDriven, SoleDrivers;
    forall t | t in st.sagas
      ensures RowCoupled(st, t)
    {
    }
  }

  lemma StartCoupled(st: CoordinatorState, c: Id, s: Id, lockedAt: Time, createdAt: Time)
    requires Coupled(st) && s !in st.sagas
    ensures Coupled(StartDeletion(st, c, s, lockedAt, createdAt))
  {
    var after := StartDeletion(st, c, s, lockedAt, createdAt);
    if c in st.contents && st.contents[c].status == Active {
      StartDrives(st, c, s, lockedAt, createdAt);
      NobodyDrives(st, c);
      StartSole(st, after, c, s);
      StartRows(st, c, s, lockedAt, createdAt);
      KeptDrivers(st, after, c);
      assert Drives(after, s, c, Started);
      hide Drives, RowCoupled, SoleDrivers;
    }
  }

  lemma StartSole(st: CoordinatorState, after: CoordinatorState, c: Id, s: Id)
    requires SoleDrivers(st)
    requires forall t :: !Drives(st, t, c, Started) && !Drives(st, t, c, Completed)
    requires forall t, d, status :: Drives(after, t, d, status) <==>
               if t == s then d == c && status == Started else Drives(st, t, d, status)
    ensures SoleDrivers(after)
  {
    hide Drives;
  }

  lemma StartRows(st: CoordinatorState, c: Id, s: Id, lockedAt: Time, createdAt: Time)
    requires Coupled(st) && s !in st.sagas && c in st.contents && st.contents[c].status == Active
    ensures var after := StartDeletion(st, c, s, lockedAt, createdAt); forall t :: t in after.sagas ==> RowCoupled(after, t)
  {
    hide ContentsDriven, SoleDrivers;
    var after := StartDeletion(st, c, s, lockedAt, createdAt);
    forall t | t in after.sagas
      ensures RowCoupled(after, t)
    {
      if t != s {
        assert RowCoupled(st, t);
      }
    }
  }

  /** New contents, and edits that keep the status, do not concern the sagas. */
  lemma ContentsCoupled(st: CoordinatorState, after: CoordinatorState)
    requires Coupled(st) && after.sagas == st.sagas && st.contents.Keys <= after.contents.Keys
    requires forall c :: c in after.contents ==>
                           after.contents[c].status == if c in st.contents then st.contents[c].status else Active
    ensures Coupled(after)
  {
    forall t, c, status
      ensures Drives(after, t, c, status) <==> Drives(st, t, c, status)
    {
    }
  }

  // ---------- The start topic ----------

  lemma OrderedAppend(log: seq<Command>, c: Command)
    requires Ordered(log) && InPlace(log, c)
    ensures Ordered(log + [c])
  {
    assert (log + [c])[..|log|] == log;
  }

  lemma {:induction false} OrderedPrefix(log: seq<Command>, n: nat)
    requires Ordered(log) && n <= |log|
    ensures Ordered(log[..n])
    ensures n < |log| ==> InPlace(log[..n], log[n])
    decreases |log|
  {
    if n < |log| {
      var m := |log| - 1;
      OrderedPrefix(log[..m], n);
      assert log[..m][..n] == log[..n];
    } else {
      assert log[..n] == log;
    }
  }

  lemma {:induction false} CompensateNeedsStart(log: seq<Command>, s: Id, c: Id)
    requires Ordered(log) && Compensate(s, c) in log
    ensures Start(s, c) in log
    decreases |log|
  {
    var m := |log| - 1;
    assert log == log[..m] + [log[m]];
    if Compensate(s, c) in log[..m] {
      CompensateNeedsStart(log[..m], s, c);
    }
  }

  /** Of two sagas of one content, the earlier was compensated before the later started. */
  lemma {:induction false} TwoStarts(log: seq<Command>, s: Id, t: Id, c: Id)
    requires Ordered(log) && Start(s, c) in log && Start(t, c) in log && s != t
    ensures Compensate(s, c) in log || Compensate(t, c) in log
    decreases |log|
  {
    var m := |log| - 1;
    assert log == log[..m] + [log[m]];
    if Start(s, c) in log[..m] && Start(t, c) in log[..m] {
      TwoStarts(log[..m], s, t, c);
    }
  }

  lemma UndoTallied(st: CoordinatorState, s: Id, row: SagaRow, now: Time)
    requires Tallied(st) && s in st.sagas && st.sagas[s].status == Started
    requires row.content == st.sagas[s].content && Undone(row)
    ensures Tallied(Undo(st, s, row, now))
  {
    hide Occurrences;
    forall t | t in st.sagas
      ensures Occurrences(Undo(st, s, row, now).log, Start(t, st.sagas[t].content)) == 1
      ensures Occurrences(Undo(st, s, row, now).log, Compensate(t, st.sagas[t].content)) ==
              if t == s || Undone(st.sagas[t]) then 2 else 0
    {
      CountTwo(st.log, Compensate(s, row.content), Start(t, st.sagas[t].content));
      CountTwo(st.log, Compensate(s, row.content), Compensate(t, st.sagas[t].content));
    }
  }

  lemma UndoLog(st: CoordinatorState, s: Id, row: SagaRow, now: Time)
    requires LogSound(st) && s in st.sagas && st.sagas[s].status == Started
    requires row.content == st.sagas[s].content && Undone(row)
    ensures LogSound(Undo(st, s, row, now))
  {
    hide Ordered, LogCounted;
    UndoTallied(st, s, row, now);
    CompensateTwice(st.log, s, row.content);
  }

  lemma CountTwo(log: seq<Command>, c: Command, x: Command)
    ensures Occurrences(log + [c, c], x) == Occurrences(log, x) + if x == c then 2 else 0
  {
    assert multiset(log + [c, c]) == multiset(log) + multiset{c, c};
  }

  lemma CountOne(log: seq<Command>, c: Command, x: Command)
    ensures Occurrences(log + [c], x) == Occurrences(log, x) + if x == c then 1 else 0
  {
    assert multiset(log + [c]) == multiset(log) + multiset{c};
  }

  lemma CountNone(log: seq<Command>, x: Command)
    requires x !in log
    ensures Occurrences(log, x) == 0
  {
  }

  lemma CompensateTwice(log: seq<Command>, s: Id, c: Id)
    requires Ordered(log) && Start(s, c) in log
    ensures Ordered(log + [Compensate(s, c), Compensate(s, c)])
  {
    OrderedAppend(log, Compensate(s, c));
    OrderedAppend(log + [Compensate(s, c)], Compensate(s, c));
    assert log + [Compensate(s, c)] + [Compensate(s, c)] == log + [Compensate(s, c), Compensate(s, c)];
  }

  /** The same log stays sound when sagas progress without being undone. */
  lemma SameTally(st: CoordinatorState, after: CoordinatorState)
    requires Tallied(st) && after.log == st.log && after.sagas.Keys == st.sagas.Keys
    requires forall s :: s in st.sagas ==>
                           after.sagas[s].content == st.sagas[s].content && Undone(after.sagas[s]) == Undone(st.sagas[s])
    ensures Tallied(after)
  {
  }

  lemma SameLog(st: CoordinatorState, after: CoordinatorState)
    requires LogSound(st) && after.log == st.log && after.sagas.Keys == st.sagas.Keys
    requires forall s :: s in st.sagas ==>
                           after.sagas[s].content == st.sagas[s].content && Undone(after.sagas[s]) == Undone(st.sagas[s])
    ensures LogSound(after)
  {
    hide Tallied;
    SameTally(st, after);
  }

  lemma StartTallied(st: CoordinatorState, c: Id, s: Id, lockedAt: Time, createdAt: Time)
    requires Tallied(st) && s !in st.sagas
    ensures Tallied(StartDeletion(st, c, s, lockedAt, createdAt))
  {
    hide LogCounted;
    if c in st.contents && st.contents[c].status == Active {
      StartLogCounted(st, c, s, lockedAt, createdAt);
    }
  }

  lemma StartLog(st: CoordinatorState, c: Id, s: Id, lockedAt: Time, createdAt: Time)
    requires CoordSound(st) && s !in st.sagas
    ensures LogSound(StartDeletion(st, c, s, lockedAt, createdAt))
  {
    hide Ordered, Tallied, Coupled;
    StartTallied(st, c, s, lockedAt, createdAt);
    if c in st.contents && st.contents[c].status == Active {
      StartOrdered(st, c, s);
    }
  }

  lemma StartLogCounted(st: CoordinatorState, c: Id, s: Id, lockedAt: Time, createdAt: Time)
    requires Tallied(st) && s !in st.sagas && c in st.contents && st.contents[c].status == Active
    ensures LogCounted(StartDeletion(st, c, s, lockedAt, createdAt))
  {
    hide Occurrences, Tallied;
    StartCounted(st, c, s);
  }

  lemma StartOrdered(st: CoordinatorState, c: Id, s: Id)
    requires CoordSound(st) && s !in st.sagas
    requires c in st.contents && st.contents[c].status == Active
    ensures Ordered(st.log + [Start(s, c)])
  {
    forall t | Start(t, c) in st.log
      ensures t != s && Compensate(t, c) in st.log
    {
      PreviousSagaUndone(st, c, t);
    }
    OrderedAppend(st.log, Start(s, c));
  }

  lemma StartCounted(st: CoordinatorState, c: Id, s: Id)
    requires Tallied(st) && s !in st.sagas
    ensures forall t :: t in st.sagas ==>
                          && Occurrences(st.log + [Start(s, c)], Start(t, st.sagas[t].content)) == 1
                          && Occurrences(st.log + [Start(s, c)], Compensate(t, st.sagas[t].content)) ==
                             if Undone(st.sagas[t]) then 2 else 0
    ensures Occurrences(st.log + [Start(s, c)], Start(s, c)) == 1
    ensures Occurrences(st.log + [Start(s, c)], Compensate(s, c)) == 0
  {
    hide Occurrences;
    forall x: Command
      ensures Occurrences(st.log + [Start(s, c)], x) == Occurrences(st.log, x) + if x == Start(s, c) then 1 else 0
    {
      CountOne(st.log, Start(s, c), x);
    }
    CountNone(st.log, Start(s, c));
    CountNone(st.log, Compensate(s, c));
  }

  /** Every saga that an active content has had is undone. */
  lemma PreviousSagaUndone(st: CoordinatorState, c: Id, t: Id)
    requires CoordSound(st) && c in st.contents && st.contents[c].status == Active
    requires Start(t, c) in st.log
    ensures t in st.sagas && Undone(st.sagas[t]) && Compensate(t, c) in st.log
  {
    assert Entry(st.sagas, Start(t, c));
  }
}
