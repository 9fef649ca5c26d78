/**
  The participant that can undo (mopl-playlist): curations with tombstones, the
  view of contents, and the inbox that makes redelivered commands harmless.
*/
module PlaylistParticipant {
  import opened Entities
  import opened Coordinator

  /** Tombstones older than this are purged. */
  const RETENTION: nat := 7 * 24 * 60 * 60 * 1000

  datatype Key = Key(playlist: Id, content: Id)

  /** The two message ids under which the listener records a command. */
  datatype InboxKey = StartOf(saga: Id) | CompensateOf(saga: Id)

  /** The event type stored with the record of a START tells the answer that was sent. */
  datatype Outcome = Done | DoneWithFailure

  /** Where an exception strikes while a START is processed, if it does. */
  datatype Fault = NoFault | BeforeDelete | AfterCurations | AfterView

  /**
    `curations` maps a row to its deletion time; `None` is a live row. `views`
    does the same for the view rows of contents.
  */
  datatype PlaylistState = PlaylistState(
    curations: map<Key, Option<Time>>,
    views: map<Id, Option<Time>>,
    inbox: map<InboxKey, Outcome>)
  {
    predicate Live(k: Key) {
      k in curations && curations[k] == None
    }

    predicate Shown(content: Id) {
      content in views && views[content] == None
    }
  }

  // ---------- Queries on curations ----------

  function DeleteAllByContent(p: PlaylistState, content: Id, now: Time): PlaylistState {
    p.(curations := map k | k in p.curations ::
          if k.content == content then Some(now) else p.curations[k])
  }

  function RestoreAllByContent(p: PlaylistState, content: Id): PlaylistState {
    p.(curations := map k | k in p.curations ::
          if k.content == content then None else p.curations[k])
  }

  function DeleteAllByPlaylist(p: PlaylistState, playlist: Id, now: Time): PlaylistState {
    p.(curations := map k | k in p.curations ::
          if k.playlist == playlist then Some(now) else p.curations[k])
  }

  predicate PurgedBy(p: PlaylistState, k: Key, threshold: int) {
    k in p.curations && p.curations[k].Some? && p.curations[k].value < threshold
  }

  predicate ViewPurgedBy(p: PlaylistState, content: Id, threshold: int) {
    content in p.views && p.views[content].Some? && p.views[content].value < threshold
  }

  function PurgeCurationsBefore(p: PlaylistState, threshold: int): PlaylistState {
    p.(curations := map k | k in p.curations && !PurgedBy(p, k, threshold) :: p.curations[k])
  }

  function PurgeViewsBefore(p: PlaylistState, threshold: int): PlaylistState {
    p.(views := map c | c in p.views && !ViewPurgedBy(p, c, threshold) :: p.views[c])
  }

  function PurgeDeletedBefore(p: PlaylistState, threshold: int): PlaylistState {
    PurgeViewsBefore(PurgeCurationsBefore(p, threshold), threshold)
  }

  /** Adding a curation that is already live is refused. */
  function AddCuration(p: PlaylistState, k: Key): PlaylistState {
    if p.Live(k) then p else p.(curations := p.curations[k := None])
  }

  /** Only a live curation is found, and then removed by a tombstone. */
  function RemoveCuration(p: PlaylistState, k: Key, now: Time): PlaylistState {
    if p.Live(k) then p.(curations := p.curations[k := Some(now)]) else p
  }

  // ---------- Views ----------

  /** Only a view that is shown is found, and then marked deleted. */
  function HideView(p: PlaylistState, content: Id, now: Time): PlaylistState {
    if p.Shown(content) then p.(views := p.views[content := Some(now)]) else p
  }

  /** One update; it finds the row whether marked or not, but no row that is gone. */
  function RestoreView(p: PlaylistState, content: Id): PlaylistState {
    if content in p.views then p.(views := p.views[content := None]) else p
  }

  function AddView(p: PlaylistState, content: Id): PlaylistState {
    if content in p.views then p else p.(views := p.views[content := None])
  }

  // ---------- Commands ----------

  function Reply(saga: Id, content: Id, outcome: Outcome): Response {
    Response(saga, content, Playlist, if outcome == Done then Succeeded else Refused)
  }

  /** What a START that was never seen does to the tables. */
  function ApplyStart(p: PlaylistState, now: Time, saga: Id, content: Id, fault: Fault): PlaylistState {
    var p1 := if fault == BeforeDelete then p else DeleteAllByContent(p, content, now);
    var p2 := if fault == NoFault || fault == AfterView then HideView(p1, content, now) else p1;
    p2.(inbox := p2.inbox[StartOf(saga) := if fault == NoFault then Done else DoneWithFailure])
  }

  function ApplyCompensate(p: PlaylistState, saga: Id, content: Id): PlaylistState {
    var p1 := RestoreView(RestoreAllByContent(p, content), content);
    p1.(inbox := p1.inbox[CompensateOf(saga) := Done])
  }

  function Handle(p: PlaylistState, now: Time, c: Command, fault: Fault): PlaylistState {
    match c
    case Start(saga, content) =>
      if StartOf(saga) in p.inbox then p else ApplyStart(p, now, saga, content, fault)
    case Compensate(saga, content) =>
      if CompensateOf(saga) in p.inbox then p else ApplyCompensate(p, saga, content)
  }

  /** A START is answered every time it is read, from the record; a COMPENSATE is not answered. */
  function Answers(p: PlaylistState, now: Time, c: Command, fault: Fault): seq<Response> {
    match c
    case Start(saga, content) => [Reply(saga, content, Handle(p, now, c, fault).inbox[StartOf(saga)])]
    case Compensate(_, _) => []
  }

  /**
    The order of the topic matters: if COMPENSATE is read before its own START,
    the curations stay deleted and the view stays hidden, whatever is read again.
  */
  lemma OvertakingCompensateLosesCurations(
      p: PlaylistState, saga: Id, k: Key, now: Time, later: Time, again: Command, fault: Fault)
    requires StartOf(saga) !in p.inbox && CompensateOf(saga) !in p.inbox && k in p.curations
    requires again == Start(saga, k.content) || again == Compensate(saga, k.content)
    ensures var undone := Handle(p, now, Compensate(saga, k.content), NoFault);
            var after := Handle(undone, later, Start(saga, k.content), NoFault);
            && undone.Live(k)
            && !after.Live(k) && !after.Shown(k.content)
            && Handle(after, later, again, fault) == after
  {
  }

  // ---------- Row by row ----------

  /** Deleted more than seven days, that is 604,800,000 milliseconds, ago. */
  predicate LongDeleted(deletedAt: Option<Time>, now: Time) {
    deletedAt.Some? && deletedAt.value + 604_800_000 < now
  }

  /** The purge takes exactly what was deleted more than seven days ago. */
  lemma PurgeExactly(p: PlaylistState, now: Time)
    ensures var after := PurgeDeletedBefore(p, now - RETENTION);
            && (forall k :: k in p.curations ==> (k in after.curations <==> !LongDeleted(p.curations[k], now)))
            && (forall k :: k in after.curations ==> k in p.curations && after.curations[k] == p.curations[k])
            && (forall c :: c in p.views ==> (c in after.views <==> !LongDeleted(p.views[c], now)))
            && (forall c :: c in after.views ==> c in p.views && after.views[c] == p.views[c])
            && after.inbox == p.inbox
  {
  }

  /**
    A START read first marks all rows of the content, also those deleted before,
    and then its view unless that is marked already; an exception stops it where it
    strikes, what was marked stays marked, and the answer is a refusal.
  */
  lemma StartExactly(p: PlaylistState, now: Time, saga: Id, content: Id, fault: Fault)
    requires StartOf(saga) !in p.inbox
    ensures var after := Handle(p, now, Start(saga, content), fault);
            && after.curations.Keys == p.curations.Keys && after.views.Keys == p.views.Keys
            && (forall k :: k in p.curations ==>
                  after.curations[k] == if k.content == content && fault != BeforeDelete then Some(now) else p.curations[k])
            && (forall c :: c in p.views ==>
                  after.views[c] ==
                  if c == content && p.views[c] == None && (fault == NoFault || fault == AfterView) then Some(now) else p.views[c])
            && after.inbox == p.inbox[StartOf(saga) := if fault == NoFault then Done else DoneWithFailure]
            && Answers(p, now, Start(saga, content), fault) ==
               [Response(saga, content, Playlist, if fault == NoFault then Succeeded else Refused)]
  {
  }

  /** A COMPENSATE read first makes every row of the content live, and shows its view; it is not answered. */
  lemma CompensateExactly(p: PlaylistState, now: Time, saga: Id, content: Id, fault: Fault)
    requires CompensateOf(saga) !in p.inbox
    ensures var after := Handle(p, now, Compensate(saga, content), fault);
            && after.curations.Keys == p.curations.Keys && after.views.Keys == p.views.Keys
            && (forall k :: k in p.curations ==> after.curations[k] == if k.content == content then None else p.curations[k])
            && (forall c :: c in p.views ==> after.views[c] == if c == content then None else p.views[c])
            && after.inbox == p.inbox[CompensateOf(saga) := Done]
            && Answers(p, now, Compensate(saga, content), fault) == []
  {
  }

  /** Deleting a playlist marks all its rows and no others. */
  lemma DeletedPlaylistExactly(p: PlaylistState, playlist: Id, now: Time)
    ensures var after := DeleteAllByPlaylist(p, playlist, now);
            && after.curations.Keys == p.curations.Keys && after.views == p.views && after.inbox == p.inbox
            && (forall k :: k in p.curations ==>
                  after.curations[k] == if k.playlist == playlist then Some(now) else p.curations[k])
  {
  }

  /** A user's removal marks a live row now, and is undone by adding it again; of other rows neither touches any. */
  lemma EditsExactly(p: PlaylistState, k: Key, now: Time)
    requires p.Live(k)
    ensures var removed := RemoveCuration(p, k, now);
            && removed.curations == p.curations[k := Some(now)]
            && removed.views == p.views && removed.inbox == p.inbox
            && AddCuration(removed, k) == p
            && AddCuration(p, k) == p && RemoveCuration(removed, k, now) == removed
  {
    assert AddCuration(RemoveCuration(p, k, now), k).curations == p.curations;
  }

  // ---------- The service ----------

  class PlaylistDb {
    /** The owner of each playlist. */
    var owners: map<Id, Id>
    var curations: map<Key, Option<Time>>
    var views: map<Id, Option<Time>>
    var inbox: map<InboxKey, Outcome>
    var sent: seq<Response>

    constructor ()
      ensures State() == PlaylistState(map[], map[], map[]) && sent == [] && owners == map[]
    {
      owners := map[];
      curations, views, inbox, sent := map[], map[], map[], [];
    }

    function State(): PlaylistState
      reads this
    {
      PlaylistState(curations, views, inbox)
    }

    /** One bulk update; it also moves the deletion time of rows already deleted. */
    method DeleteAllByContentId(content: Id, now: Time)
      modifies this`curations
      ensures State() == DeleteAllByContent(old(State()), content, now)
    {
      curations := map k | k in curations :: if k.content == content then Some(now) else curations[k];
    }

    /** One bulk update; it revives every row of the content, whoever deleted it. */
    method RestoreAllByContentId(content: Id)
      modifies this`curations
      ensures State() == RestoreAllByContent(old(State()), content)
    {
      curations := map k | k in curations :: if k.content == content then None else curations[k];
    }

    method DeleteAllByPlaylistId(playlist: Id, now: Time)
      modifies this`curations
      ensures State() == DeleteAllByPlaylist(old(State()), playlist, now)
    {
      curations := map k | k in curations :: if k.playlist == playlist then Some(now) else curations[k];
    }

    method PurgeCurationsDeletedBefore(threshold: int) returns (purged: nat)
      modifies this`curations
      ensures State() == PurgeCurationsBefore(old(State()), threshold)
      ensures purged + |curations| == |old(curations)|
    {
      var old' := set k | k in curations && PurgedBy(State(), k, threshold);
      ghost var before := curations;
      purged := |old'|;
      curations := curations - old';
      assert curations == PurgeCurationsBefore(old(State()), threshold).curations;
      assert before.Keys == curations.Keys + old';
    }

    method DeleteViewById(content: Id, now: Time)
      modifies this`views
      ensures State() == HideView(old(State()), content, now)
    {
      if content in views && views[content] == None {
        views := views[content := Some(now)];
      }
    }

    method RestoreViewById(content: Id)
      modifies this`views
      ensures State() == RestoreView(old(State()), content)
    {
      if content in views {
        views := views[content := None];
      }
    }

    method PurgeViewsDeletedBefore(threshold: int) returns (purged: nat)
      modifies this`views
      ensures State() == PurgeViewsBefore(old(State()), threshold)
      ensures purged + |views| == |old(views)|
    {
      var old' := set c | c in views && ViewPurgedBy(State(), c, threshold);
      ghost var before := views;
      purged := |old'|;
      views := views - old';
      assert views == PurgeViewsBefore(old(State()), threshold).views;
      assert before.Keys == views.Keys + old';
    }
  }

  datatype EditResult = Edited | NoPlaylist | NotOwner | Rejected

  class PlaylistCommandService {
    const db: PlaylistDb

    constructor (db: PlaylistDb)
      ensures this.db == db
    {
      this.db := db;
    }

    /** Checked in this order: the playlist, its owner, and whether the curation is live. */
    function AddResult(k: Key, user: Id): EditResult
      reads db
    {
      if k.playlist !in db.owners then NoPlaylist
      else if db.owners[k.playlist] != user then NotOwner
      else if db.State().Live(k) then Rejected
      else Edited
    }

    method AddContentToPlaylist(k: Key, user: Id) returns (r: EditResult)
      modifies db
      ensures r == NoPlaylist <==> k.playlist !in old(db.owners)
      ensures r == NotOwner <==> k.playlist in old(db.owners) && old(db.owners)[k.playlist] != user
      ensures r == Rejected <==>
              && k.playlist in old(db.owners) && old(db.owners)[k.playlist] == user
              && k in old(db.curations) && old(db.curations)[k] == None
      ensures db.curations == if r == Edited then old(db.curations)[k := None] else old(db.curations)
      ensures db.views == old(db.views) && db.inbox == old(db.inbox)
      ensures r == old(AddResult(k, user))
      ensures db.State() == if r == Edited then AddCuration(old(db.State()), k) else old(db.State())
      ensures db.sent == old(db.sent) && db.owners == old(db.owners)
    {
      if k.playlist !in db.owners {
        return NoPlaylist;
      }
      if db.owners[k.playlist] != user {
        return NotOwner;
      }
      if db.State().Live(k) {
        return Rejected;
      }
      db.curations := db.curations[k := None];
      return Edited;
    }

    method DeleteContentFromPlaylist(k: Key, user: Id, now: Time) returns (r: EditResult)
      modifies db
      ensures r == NoPlaylist <==> k.playlist !in old(db.owners)
      ensures r == NotOwner <==> k.playlist in old(db.owners) && old(db.owners)[k.playlist] != user
      ensures r == Rejected <==>
              && k.playlist in old(db.owners) && old(db.owners)[k.playlist] == user
              && !(k in old(db.curations) && old(db.curations)[k] == None)
      ensures db.curations == if r == Edited then old(db.curations)[k := Some(now)] else old(db.curations)
      ensures db.views == old(db.views) && db.inbox == old(db.inbox)
      ensures db.State() == if r == Edited then RemoveCuration(old(db.State()), k, now) else old(db.State())
      ensures db.sent == old(db.sent) && db.owners == old(db.owners)
    {
      if k.playlist !in db.owners {
        return NoPlaylist;
      }
      if db.owners[k.playlist] != user {
        return NotOwner;
      }
      if !db.State().Live(k) {
        return Rejected;
      }
      db.curations := db.curations[k := Some(now)];
      return Edited;
    }

    method DeleteCurationByContentId(content: Id, now: Time)
      modifies db`curations
      ensures db.State() == DeleteAllByContent(old(db.State()), content, now)
    {
      db.DeleteAllByContentId(content, now);
    }

    method RestoreCurationByContentId(content: Id)
      modifies db`curations
      ensures db.State() == RestoreAllByContent(old(db.State()), content)
    {
      db.RestoreAllByContentId(content);
    }
  }

  class PlaylistPurgeScheduler {
    const db: PlaylistDb

    constructor (db: PlaylistDb)
      ensures this.db == db
    {
      this.db := db;
    }

    method PurgeOldSoftDeletedData(now: Time)
      modifies db
      ensures forall k :: k in db.curations <==> k in old(db.curations) && !LongDeleted(old(db.curations)[k], now)
      ensures forall k :: k in db.curations ==> db.curations[k] == old(db.curations)[k]
      ensures forall c :: c in db.views <==> c in old(db.views) && !LongDeleted(old(db.views)[c], now)
      ensures forall c :: c in db.views ==> db.views[c] == old(db.views)[c]
      ensures db.State() == PurgeDeletedBefore(old(db.State()), now - RETENTION)
      ensures db.sent == old(db.sent) && db.owners == old(db.owners)
    {
      var threshold := now - RETENTION;
      var _ := db.PurgeCurationsDeletedBefore(threshold);
      var _ := db.PurgeViewsDeletedBefore(threshold);
    }
  }

  class ContentEventListener {
    const service: PlaylistCommandService
    const db: PlaylistDb := service.db

    constructor (service: PlaylistCommandService)
      ensures this.service == service
    {
      this.service := service;
    }

    method ProcessContentDeletionSaga(now: Time, c: Command, fault: Fault)
      modifies db
      ensures db.State() == Handle(old(db.State()), now, c, fault)
      ensures db.sent == old(db.sent) + Answers(old(db.State()), now, c, fault)
    {
      if c.Compensate? {
        HandleContentCompensate(c);
        return;
      }
      var messageId := StartOf(c.saga);
      if messageId in db.inbox {
        if db.inbox[messageId] == DoneWithFailure {
          db.sent := db.sent + [Response(c.saga, c.content, Playlist, Refused)];
        } else {
          db.sent := db.sent + [Response(c.saga, c.content, Playlist, Succeeded)];
        }
        return;
      }
      if fault != BeforeDelete {
        service.DeleteCurationByContentId(c.content, now);
      }
      if fault == NoFault || fault == AfterView {
        db.DeleteViewById(c.content, now);
      }
      if fault == NoFault {
        db.inbox := db.inbox[messageId := Done];
        db.sent := db.sent + [Response(c.saga, c.content, Playlist, Succeeded)];
      } else {
        // The handler of the exception: whatever was deleted stays deleted.
        db.inbox := db.inbox[messageId := DoneWithFailure];
        db.sent := db.sent + [Response(c.saga, c.content, Playlist, Refused)];
      }
    }

    method HandleContentCompensate(c: Command)
      requires c.Compensate?
      modifies db
      ensures db.State() == Handle(old(db.State()), 0, c, NoFault) && db.sent == old(db.sent)
    {
      var messageId := CompensateOf(c.saga);
      if messageId in db.inbox {
        return;
      }
      service.RestoreCurationByContentId(c.content);
      db.RestoreViewById(c.content);
      db.inbox := db.inbox[messageId := Done];
    }
  }
}
