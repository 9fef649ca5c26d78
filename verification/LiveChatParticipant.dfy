/**
  The participant without undo (mopl-live-chat): it closes the room of the
  content and remembers its answer in Redis.
*/
module LiveChatParticipant {
  import opened Entities
  import opened Coordinator
  import opened WatchingSessions

  /** Whether an exception strikes, and the sessions it then leaves behind. */
  datatype ChatFault = NoFault | Fault(left: SessionStore)

  datatype ChatState = ChatState(store: SessionStore, inbox: map<Id, bool>)

  function Reply(saga: Id, content: Id, done: bool): Response {
    Response(saga, content, Participant.WatchingSession, if done then Succeeded else Refused)
  }

  function Handle(s: ChatState, c: Command, fault: ChatFault): ChatState {
    match c
    case Compensate(_, _) => s
    case Start(saga, content) =>
      if saga in s.inbox then s
      else match fault
        case NoFault => ChatState(s.store.WithoutRoom(content), s.inbox[saga := true])
        case Fault(left) => ChatState(left, s.inbox[saga := false])
  }

  function Answers(s: ChatState, c: Command, fault: ChatFault): seq<Response> {
    match c
    case Compensate(_, _) => []
    case Start(saga, content) => [Reply(saga, content, Handle(s, c, fault).inbox[saga])]
  }

  /**
    A START read for the first time closes the room of the content and is answered
    by success; it ends no session elsewhere exactly if no watcher listed in the
    room has the current session elsewhere. Read again, whatever happens then, it
    changes nothing and is answered the same.
  */
  lemma StartClosesRoomOnce(s: ChatState, saga: Id, content: Id, again: ChatFault)
    requires s.store.Agrees() && saga !in s.inbox
    ensures var c := Start(saga, content);
            var after := Handle(s, c, NoFault);
            && after.store.Agrees() && after.store.Count(content) == 0
            && (s.store.Exact() ==> after.store.Exact() && !ListedFromElsewhere(s.store, content))
            && (forall w :: w in s.store.watchers && s.store.watchers[w].room == content ==> w !in after.store.watchers)
            && ((forall w :: w in s.store.watchers && s.store.watchers[w].room != content ==> w in after.store.watchers) <==>
                  !ListedFromElsewhere(s.store, content))
            && Handle(after, c, again) == after
            && Answers(after, c, again) == Answers(s, c, NoFault) ==
               [Response(saga, content, Participant.WatchingSession, Succeeded)]
  {
    ClosedRoomIsEmpty(s.store, content);
    WithoutRoomAgrees(s.store, content);
    if s.store.Exact() {
      WithoutRoomExact(s.store, content);
    }
  }

  /**
    If an exception strikes while a START is read first, the failure is recorded and
    answered by a refusal, now and whenever START is read again; COMPENSATE changes
    nothing and is not answered.
  */
  lemma FaultIsRemembered(s: ChatState, saga: Id, content: Id, left: SessionStore, again: ChatFault)
    requires saga !in s.inbox
    ensures var c := Start(saga, content);
            var after := Handle(s, c, Fault(left));
            && after == ChatState(left, s.inbox[saga := false])
            && Answers(s, c, Fault(left)) == [Response(saga, content, Participant.WatchingSession, Refused)]
            && Handle(after, c, again) == after
            && Answers(after, c, again) == Answers(s, c, Fault(left))
            && Handle(s, Compensate(saga, content), again) == s && Answers(s, Compensate(saga, content), again) == []
  {
  }

  class ContentEventListener {
    const service: WatchingSessionCommandService
    var inbox: map<Id, bool>
    var sent: seq<Response>

    constructor (service: WatchingSessionCommandService)
      ensures this.service == service && inbox == map[] && sent == []
    {
      this.service := service;
      inbox, sent := map[], [];
    }

    function State(): ChatState
      reads this, service.repository
    {
      ChatState(service.repository.Store(), inbox)
    }

    method ProcessContentDeletionSaga(c: Command, fault: ChatFault)
      modifies this, service.repository
      ensures State() == Handle(old(State()), c, fault)
      ensures sent == old(sent) + Answers(old(State()), c, fault)
    {
      if c.Compensate? {
        return;
      }
      if c.saga in inbox {
        sent := sent + [Reply(c.saga, c.content, inbox[c.saga])];
        return;
      }
      match fault {
        case NoFault =>
          service.repository.DeleteByLiveChatRoomId(c.content);
          inbox := inbox[c.saga := true];
          sent := sent + [Response(c.saga, c.content, Participant.WatchingSession, Succeeded)];
        case Fault(left) =>
          service.repository.watchers, service.repository.ids, service.repository.members :=
            left.watchers, left.ids, left.members;
          inbox := inbox[c.saga := false];
          sent := sent + [Response(c.saga, c.content, Participant.WatchingSession, Refused)];
      }
    }
  }
}
