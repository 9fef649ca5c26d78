/**
  The two entities of mopl-content that the deletion saga moves: a content and
  a saga instance. A row is the value stored in the table; a class is the
  object that the persistence layer loads from a row, whose methods assign its
  fields, and whose row is saved back.
*/
module Entities {

  /** A UUID. The order of `nat` stands for the order of UUIDs where one is needed. */
  type Id = nat

  /** An instant, in milliseconds. */
  type Time = nat

  datatype Option<+T> = None | Some(value: T)

  datatype ContentStatus = Active | Deleting | Deleted

  datatype SagaStatus = Started | Completed | Failed | TimedOut

  datatype ParticipantStatus = Pending | Success | Failure

  /** The participant named by a response; any third name is `OtherParticipant`. */
  datatype Participant = Playlist | WatchingSession | OtherParticipant

  /** The status text of a response: SUCCESS, FAILED, or any third text. */
  datatype Answer = Succeeded | Refused | OtherAnswer

  /** `num / den` rounded to the nearest integer, halves upward, as `Math.round` does. */
  function RoundedQuotient(num: int, den: nat): int
    requires den > 0
  {
    (2 * num + den) / (2 * den)
  }

  /** A row of the contents table. The average rating has one decimal: it is kept in tenths. */
  datatype ContentRow = ContentRow(
    status: ContentStatus,
    updatedAt: Time,
    averageTenths: int,
    reviewCount: nat,
    watcherCount: nat)
  {
    function Restored(now: Time): ContentRow {
      if status == Deleting then this.(status := Active, updatedAt := now) else this
    }

    function Removed(now: Time): ContentRow {
      if status == Deleted then this else this.(status := Deleted, updatedAt := now)
    }

    /** Ten times the total of all ratings, as the stored average remembers it. */
    function RememberedTotal(): int {
      averageTenths * reviewCount
    }

    function WithReview(rating: int): ContentRow {
      this.(reviewCount := reviewCount + 1,
      averageTenths := RoundedQuotient(RememberedTotal() + 10 * rating, reviewCount + 1))
    }

    function WithoutReview(rating: int): ContentRow {
      if reviewCount <= 1 then
        this.(reviewCount := 0, averageTenths := 0)
      else
        this.(reviewCount := reviewCount - 1,
        averageTenths := RoundedQuotient(RememberedTotal() - 10 * rating, reviewCount - 1))
    }

    function WithChangedReview(before: int, after: int): ContentRow {
      if reviewCount == 0 then this
      else this.(averageTenths := RoundedQuotient(RememberedTotal() - 10 * before + 10 * after, reviewCount))
    }
  }

  class Content {
    var status: ContentStatus
    var updatedAt: Time
    var averageTenths: int
    var reviewCount: nat
    var watcherCount: nat

    constructor Load(row: ContentRow)
      ensures Row() == row
    {
      status := row.status;
      updatedAt := row.updatedAt;
      averageTenths := row.averageTenths;
      reviewCount := row.reviewCount;
      watcherCount := row.watcherCount;
    }

    function Row(): ContentRow
      reads this
    {
      ContentRow(status, updatedAt, averageTenths, reviewCount, watcherCount)
    }

    method AddReview(rating: int)
      modifies this`averageTenths, this`reviewCount
      ensures reviewCount == old(reviewCount) + 1
      ensures Row() == old(Row()).WithReview(rating)
    {
      var total := averageTenths * reviewCount;
      reviewCount := reviewCount + 1;
      total := total + 10 * rating;
      averageTenths := RoundedQuotient(total, reviewCount);
    }

    method RemoveReview(rating: int)
      modifies this`averageTenths, this`reviewCount
      ensures reviewCount == if old(reviewCount) == 0 then 0 else old(reviewCount) - 1
      ensures reviewCount == 0 ==> averageTenths == 0
      ensures Row() == old(Row()).WithoutReview(rating)
    {
      if reviewCount <= 1 {
        reviewCount := 0;
        averageTenths := 0;
      } else {
        var total := averageTenths * reviewCount;
        reviewCount := reviewCount - 1;
        total := total - 10 * rating;
        averageTenths := RoundedQuotient(total, reviewCount);
      }
    }

    method UpdateReview(before: int, after: int)
      modifies this`averageTenths
      ensures Row() == old(Row()).WithChangedReview(before, after)
    {
      if reviewCount > 0 {
        var total := averageTenths * reviewCount;
        total := total - 10 * before + 10 * after;
        averageTenths := RoundedQuotient(total, reviewCount);
      }
    }

    /** Refused, and nothing changes, unless the content is active. */
    method MarkAsDeleting(now: Time) returns (ok: bool)
      modifies this`status, this`updatedAt
      ensures ok <==> old(status) == Active
      ensures status == if ok then Deleting else old(status)
      ensures updatedAt == if ok then now else old(updatedAt)
      ensures Row() == if ok then old(Row()).(status := Deleting, updatedAt := now) else old(Row())
    {
      if status != Active {
        return false;
      }
      status := Deleting;
      updatedAt := now;
      return true;
    }

    method MarkAsDeleted(now: Time)
      modifies this`status, this`updatedAt
      ensures status == Deleted
      ensures updatedAt == if old(status) == Deleted then old(updatedAt) else now
      ensures Row() == old(Row()).Removed(now)
    {
      if status == Deleted {
        return;
      }
      status := Deleted;
      updatedAt := now;
    }

    method RestoreActive(now: Time)
      modifies this`status, this`updatedAt
      ensures status == if old(status) == Deleting then Active else old(status)
      ensures updatedAt == if old(status) == Deleting then now else old(updatedAt)
      ensures Row() == old(Row()).Restored(now)
    {
      if status != Deleting {
        return;
      }
      status := Active;
      updatedAt := now;
    }
  }

  /** A row of the saga_instances table. */
  datatype SagaRow = SagaRow(
    content: Id,
    status: SagaStatus,
    playlist: ParticipantStatus,
    watching: ParticipantStatus,
    createdAt: Time,
    updatedAt: Time)
  {
    predicate AllSuccess() {
      playlist == Success && watching == Success
    }

    predicate AnyFailed() {
      playlist == Failure || watching == Failure
    }

    predicate Finished() {
      status != Started
    }

    /** The row with the answer noted; a text other than SUCCESS counts as a failure. */
    function Noted(who: Participant, answer: Answer, now: Time): SagaRow {
      var said := if answer == Succeeded then Success else Failure;
      match who
      case Playlist => this.(playlist := said, updatedAt := now)
      case WatchingSession => this.(watching := said, updatedAt := now)
      case OtherParticipant => this.(updatedAt := now)
    }
  }

  class SagaInstance {
    var content: Id
    var status: SagaStatus
    var playlistStatus: ParticipantStatus
    var watchingSessionStatus: ParticipantStatus
    var createdAt: Time
    var updatedAt: Time

    constructor Create(contentId: Id, now: Time)
      ensures Row() == SagaRow(contentId, Started, Pending, Pending, now, now)
    {
      content := contentId;
      status := Started;
      playlistStatus := Pending;
      watchingSessionStatus := Pending;
      createdAt := now;
      updatedAt := now;
    }

    constructor Load(row: SagaRow)
      ensures Row() == row
    {
      content := row.content;
      status := row.status;
      playlistStatus := row.playlist;
      watchingSessionStatus := row.watching;
      createdAt := row.createdAt;
      updatedAt := row.updatedAt;
    }

    function Row(): SagaRow
      reads this
    {
      SagaRow(content, status, playlistStatus, watchingSessionStatus, createdAt, updatedAt)
    }

    method UpdateParticipant(who: Participant, answer: Answer, now: Time)
      modifies this
      ensures Row() == old(Row()).Noted(who, answer, now)
    {
      var said := if answer == Succeeded then Success else Failure;
      if who == Playlist {
        playlistStatus := said;
      } else if who == WatchingSession {
        watchingSessionStatus := said;
      }
      updatedAt := now;
    }

    predicate IsAllSuccess()
      reads this
    {
      Row().AllSuccess()
    }

    predicate IsAnyFailed()
      reads this
    {
      Row().AnyFailed()
    }

    predicate IsFinished()
      reads this
    {
      status == Completed || status == Failed || status == TimedOut
    }

    method MarkCompleted(now: Time)
      modifies this
      ensures Row() == old(Row()).(status := Completed, updatedAt := now)
    {
      status := Completed;
      updatedAt := now;
    }

    method MarkFailed(now: Time)
      modifies this
      ensures Row() == old(Row()).(status := Failed, updatedAt := now)
    {
      status := Failed;
      updatedAt := now;
    }

    method MarkTimedOut(now: Time)
      modifies this
      ensures Row() == old(Row()).(status := TimedOut, updatedAt := now)
    {
      status := TimedOut;
      updatedAt := now;
    }
  }
}
