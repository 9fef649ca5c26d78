/**
  The order and the repetition of responses do not matter.
*/
module SagaConfluence {
  import opened Entities
  import opened Coordinator
  import opened SagaWorld
  import opened SagaCoupling
  import opened SagaHandlers
  import P = PlaylistParticipant
  import L = LiveChatParticipant
  import opened SagaInvariant
  import opened SagaTheorems

  /** What can reach the coordinator between two runs of the timeout scheduler. */
  datatype Delivery = Arrive(now: Time, response: Response) | Purge(threshold: int)

  function Feed(st: CoordinatorState, d: Delivery): CoordinatorState {
    match d
    case Arrive(now, e) => HandleResponse(st, now, e)
    case Purge(threshold) => Coordinator.PurgeInbox(st, threshold)
  }

  function FeedAll(st: CoordinatorState, ds: seq<Delivery>): CoordinatorState
    decreases |ds|
  {
    if ds == [] then st else Feed(FeedAll(st, ds[..|ds| - 1]), ds[|ds| - 1])
  }

  ghost predicate AllEcho(st: CoordinatorState, ds: seq<Delivery>) {
    forall d :: d in ds && d.Arrive? ==> Echoes(st, d.response)
  }

  lemma {:induction false} FeedAllSound(st: CoordinatorState, ds: seq<Delivery>)
    requires CoordSound(st) && AllEcho(st, ds)
    ensures CoordSound(FeedAll(st, ds)) && Evolves(st, FeedAll(st, ds))
    ensures FeedAll(st, ds).sagas.Keys == st.sagas.Keys
    decreases |ds|
  {
    hide CoordSound, HandleResponse;
    EvolvesReflexive(st);
    if ds != [] {
      var n := |ds| - 1;
      FeedAllSound(st, ds[..n]);
      var mid := FeedAll(st, ds[..n]);
      assert ds[n] in ds;
      match ds[n] {
        case Arrive(now, e) =>
          HandleResponseSound(mid, now, e);
          SagasStay(mid, now, e);
        case Purge(threshold) => InboxSound(mid, Coordinator.PurgeInbox(mid, threshold).inbox);
      }
      EvolvesTransitive(st, mid, FeedAll(st, ds));
    }
  }

  lemma SagasStay(st: CoordinatorState, now: Time, e: Response)
    ensures HandleResponse(st, now, e).sagas.Keys == st.sagas.Keys
  {
  }

  // ---------- The order does not matter ----------

  /** Everything said about one saga, in no order and without repetition. */
  ghost function Told(ds: seq<Delivery>, s: Id): set<(Participant, Answer)> {
    set d | d in ds && d.Arrive? && d.response.saga == s :: (d.response.participant, d.response.answer)
  }

  /** An answer that fails its saga at once. */
  predicate Fails(t: (Participant, Answer)) {
    t.1 == Refused || (t.0 != OtherParticipant && t.1 != Succeeded)
  }

  ghost predicate SomeFail(told: set<(Participant, Answer)>) {
    exists t :: t in told && Fails(t)
  }

  predicate BothSucceed(told: set<(Participant, Answer)>) {
    (Playlist, Succeeded) in told && (WatchingSession, Succeeded) in told
  }

  ghost function Verdict(told: set<(Participant, Answer)>): SagaStatus {
    if SomeFail(told) then SagaStatus.Failed else if BothSucceed(told) then Completed else Started
  }

  /** The saga is where the answers told so far lead, in whatever order they came. */
  ghost predicate Follows(st: CoordinatorState, s: Id, told: set<(Participant, Answer)>) {
    && s in st.sagas
    && st.sagas[s].status == Verdict(told)
    && (st.sagas[s].status == Started ==>
          && (st.sagas[s].playlist == if (Playlist, Succeeded) in told then Success else Pending)
          && (st.sagas[s].watching == if (WatchingSession, Succeeded) in told then Success else Pending))
    && (forall m :: m in st.inbox && m.saga == s ==> (m.participant, m.answer) in told)
  }

  lemma FeedFollows(st: CoordinatorState, s: Id, told: set<(Participant, Answer)>, now: Time, e: Response)
    requires Follows(st, s, told) && e.saga == s
    requires var all := told + {(e.participant, e.answer)}; !(SomeFail(all) && BothSucceed(all))
    ensures Follows(HandleResponse(st, now, e), s, told + {(e.participant, e.answer)})
  {
    var t := (e.participant, e.answer);
    if e.MessageKey() in st.inbox {
      assert told + {t} == told;
    } else {
      VerdictGrows(told, t);
      assert HandleResponse(st, now, e).sagas == ProcessUnseen(st, now, e).sagas;
    }
  }

  lemma VerdictGrows(told: set<(Participant, Answer)>, t: (Participant, Answer))
    requires !(SomeFail(told + {t}) && BothSucceed(told + {t}))
    ensures Verdict(told + {t}) ==
            if Verdict(told) != Started then Verdict(told)
            else if Fails(t) then SagaStatus.Failed
            else if BothSucceed(told + {t}) then Completed else Started
  {
    if SomeFail(told) {
      var f :| f in told && Fails(f);
      assert f in told + {t};
    }
    assert Fails(t) ==> SomeFail(told + {t}) by { assert t in told + {t}; }
  }

  lemma OthersFollow(st: CoordinatorState, s: Id, told: set<(Participant, Answer)>, d: Delivery)
    requires Follows(st, s, told) && (d.Arrive? ==> d.response.saga != s)
    ensures Follows(Feed(st, d), s, told)
  {
  }

  lemma ToldGrows(ds: seq<Delivery>, s: Id)
    requires ds != []
    ensures var last := ds[|ds| - 1];
            Told(ds, s) == Told(ds[..|ds| - 1], s) +
                           if last.Arrive? && last.response.saga == s
                           then {(last.response.participant, last.response.answer)} else {}
  {
    var n := |ds| - 1;
    assert ds == ds[..n] + [ds[n]];
    var last := ds[n];
    var more := if last.Arrive? && last.response.saga == s then {(last.response.participant, last.response.answer)} else {};
    forall t | t in Told(ds, s)
      ensures t in Told(ds[..n], s) + more
    {
      var d :| d in ds && d.Arrive? && d.response.saga == s && t == (d.response.participant, d.response.answer);
      assert d in ds[..n] || d == last;
    }
    forall t | t in Told(ds[..n], s) + more
      ensures t in Told(ds, s)
    {
      if t in Told(ds[..n], s) {
        var d :| d in ds[..n] && d.Arrive? && d.response.saga == s && t == (d.response.participant, d.response.answer);
        assert d in ds;
      } else {
        assert last in ds;
      }
    }
  }

  lemma {:induction false} FeedAllFollows(st: CoordinatorState, ds: seq<Delivery>, s: Id)
    requires Follows(st, s, {})
    requires !(SomeFail(Told(ds, s)) && BothSucceed(Told(ds, s)))
    ensures Follows(FeedAll(st, ds), s, Told(ds, s))
    decreases |ds|
  {
    hide Follows, Told, Feed, HandleResponse;
    if ds == [] {
      NothingTold(s);
    } else {
      var n := |ds| - 1;
      ToldGrows(ds, s);
      FewerTold(Told(ds[..n], s), Told(ds, s));
      FeedAllFollows(st, ds[..n], s);
      FeedFollowsEither(FeedAll(st, ds[..n]), s, Told(ds[..n], s), ds[n], Told(ds, s));
    }
  }

  lemma NothingTold(s: Id)
    ensures Told([], s) == {}
  {
  }

  lemma FewerTold(less: set<(Participant, Answer)>, more: set<(Participant, Answer)>)
    requires less <= more && !(SomeFail(more) && BothSucceed(more))
    ensures !(SomeFail(less) && BothSucceed(less))
  {
  }

  lemma FeedFollowsEither(
      st: CoordinatorState, s: Id, told: set<(Participant, Answer)>, d: Delivery, all: set<(Participant, Answer)>)
    requires Follows(st, s, told) && !(SomeFail(all) && BothSucceed(all))
    requires all == told + if d.Arrive? && d.response.saga == s then {(d.response.participant, d.response.answer)} else {}
    ensures Follows(Feed(st, d), s, all)
  {
    hide Follows, HandleResponse, SomeFail;
    if d.Arrive? && d.response.saga == s {
      FeedFollows(st, s, told, d.now, d.response);
    } else {
      assert all == told;
      OthersFollow(st, s, told, d);
    }
  }

  /** A saga that has just started: nothing noted, nothing recorded. */
  ghost predicate JustStarted(st: CoordinatorState, s: Id) {
    && s in st.sagas && st.sagas[s].status == Started
    && st.sagas[s].playlist == Pending && st.sagas[s].watching == Pending
    && (forall m :: m in st.inbox ==> m.saga != s)
  }

  /**
    Whatever the order and the repetition of the responses, and whatever else
    arrives between them, a saga ends where the set of answers leads: failed and
    unlocked if some answer fails it, completed and removed if both participants
    succeeded, and otherwise still started and locked.
  */
  lemma OutcomeIgnoresOrder(st: CoordinatorState, ds: seq<Delivery>, s: Id)
    requires CoordSound(st) && AllEcho(st, ds) && JustStarted(st, s)
    requires !(SomeFail(Told(ds, s)) && BothSucceed(Told(ds, s)))
    ensures var after := FeedAll(st, ds);
            var c := st.sagas[s].content;
            && s in after.sagas && after.sagas[s].status == Verdict(Told(ds, s))
            && c in after.contents
            && after.contents[c].status ==
               if SomeFail(Told(ds, s)) then Active else if BothSucceed(Told(ds, s)) then Deleted else Deleting
  {
    hide LogSound, FeedAll, Told, SomeFail, AllEcho;
    EmptyVerdict();
    FeedAllFollows(st, ds, s);
    FeedAllSound(st, ds);
    SoleDriver(st, FeedAll(st, ds), s);
  }

  /** The responses that a run really sends never both fail and complete one saga, so the condition above is met. */
  lemma AnswersNeverClash(acts: seq<Action>, ds: seq<Delivery>, s: Id)
    requires forall d :: d in ds && d.Arrive? ==> d.response in Exec(GENESIS, acts).responses
    ensures !(SomeFail(Told(ds, s)) && BothSucceed(Told(ds, s)))
  {
    hide Exec;
    if SomeFail(Told(ds, s)) && BothSucceed(Told(ds, s)) {
      var t :| t in Told(ds, s) && Fails(t);
      var d: Delivery :| d in ds && d.Arrive? && d.response.saga == s && t == (d.response.participant, d.response.answer);
      AnswersAreStable(acts, d.response, d.response);
      assert (t.0, Succeeded) in Told(ds, s);
      var e: Delivery :| e in ds && e.Arrive? && e.response.saga == s
                         && (t.0, Succeeded) == (e.response.participant, e.response.answer);
      AnswersAreStable(acts, d.response, e.response);
    }
  }

  lemma EmptyVerdict()
    ensures Verdict({}) == Started
  {
  }

  lemma NoOtherDriver(st: CoordinatorState, after: CoordinatorState, s: Id, t: Id)
    requires Coupled(st) && s in st.sagas && st.sagas[s].status == Started
    requires Evolves(st, after) && after.sagas.Keys == st.sagas.Keys && t != s
    ensures !Drives(after, t, st.sagas[s].content, Started) && !Drives(after, t, st.sagas[s].content, Completed)
  {
    if t in st.sagas && st.sagas[t].content == st.sagas[s].content {
      assert RowEvolves(st.sagas[t], after.sagas[t]);
      NotCompletedYet(st, s, t);
    }
  }

  /** While a saga is started, every other saga of its content is undone. */
  lemma NotCompletedYet(st: CoordinatorState, s: Id, t: Id)
    requires Coupled(st) && s in st.sagas && st.sagas[s].status == Started
    requires t in st.sagas && t != s && st.sagas[t].content == st.sagas[s].content
    ensures Undone(st.sagas[t])
  {
    OthersDriveOthers(st, s);
  }

  /** While only responses arrive, no other saga drives the content. */
  lemma SoleDriver(st: CoordinatorState, after: CoordinatorState, s: Id)
    requires Coupled(st) && s in st.sagas && st.sagas[s].status == Started
    requires Coupled(after) && Evolves(st, after) && after.sagas.Keys == st.sagas.Keys
    ensures var c := st.sagas[s].content;
            && c in after.contents
            && (after.sagas[s].status == Started ==> after.contents[c].status == Deleting)
            && (after.sagas[s].status == Completed ==> after.contents[c].status == Deleted)
            && (Undone(after.sagas[s]) ==> after.contents[c].status == Active)
  {
    assert RowEvolves(st.sagas[s], after.sagas[s]);
    if Undone(after.sagas[s]) {
      Unlocked(st, after, s);
    }
  }

  lemma Unlocked(st: CoordinatorState, after: CoordinatorState, s: Id)
    requires Coupled(st) && s in st.sagas && st.sagas[s].status == Started
    requires Coupled(after) && Evolves(st, after) && after.sagas.Keys == st.sagas.Keys
    requires Undone(after.sagas[s])
    ensures ContentIs(after, st.sagas[s].content, Active)
  {
    var c := st.sagas[s].content;
    assert RowEvolves(st.sagas[s], after.sagas[s]);
    if t: Id :| Drives(after, t, c, Started) || Drives(after, t, c, Completed) {
      NoOtherDriver(st, after, s, t);
    }
  }

  predicate HasStatus(st: CoordinatorState, s: Id, status: SagaStatus) {
    s in st.sagas && st.sagas[s].status == status
  }

  lemma FinishedStays(st: CoordinatorState, s: Id, status: SagaStatus, d: Delivery)
    requires HasStatus(st, s, status) && status != Started
    ensures HasStatus(Feed(st, d), s, status)
  {
  }

  lemma {:induction false} FinishedForAll(st: CoordinatorState, s: Id, status: SagaStatus, ds: seq<Delivery>)
    requires HasStatus(st, s, status) && status != Started
    ensures HasStatus(FeedAll(st, ds), s, status)
    decreases |ds|
  {
    hide Feed;
    if ds != [] {
      FinishedForAll(st, s, status, ds[..|ds| - 1]);
      FinishedStays(FeedAll(st, ds[..|ds| - 1]), s, status, ds[|ds| - 1]);
    }
  }

  lemma {:induction false} FeedAppend(st: CoordinatorState, ds: seq<Delivery>, more: seq<Delivery>)
    ensures FeedAll(st, ds + more) == FeedAll(FeedAll(st, ds), more)
    decreases |more|
  {
    hide Feed;
    if more == [] {
      assert ds + more == ds;
    } else {
      var n := |more| - 1;
      assert (ds + more)[..|ds| + n] == ds + more[..n];
      FeedAppend(st, ds, more[..n]);
    }
  }

  lemma FeedOne(st: CoordinatorState, d: Delivery)
    ensures FeedAll(st, [d]) == Feed(st, d)
  {
    assert [d][..0] == [];
    assert FeedAll(st, []) == st;
  }

  /** A delivery that tells of this saga. */
  predicate Tells(d: Delivery, s: Id, t: (Participant, Answer)) {
    d.Arrive? && d.response.saga == s && (d.response.participant, d.response.answer) == t
  }

  lemma BothFirst(st: CoordinatorState, s: Id, p: Delivery, w: Delivery, rest: seq<Delivery>)
    requires JustStarted(st, s)
    requires Tells(p, s, (Playlist, Succeeded)) && Tells(w, s, (WatchingSession, Succeeded))
    ensures HasStatus(FeedAll(st, [p, w] + rest), s, Completed)
  {
    hide FeedAll;
    assert [p] + [w] == [p, w];
    FeedOne(st, p);
    FeedAppend(st, [p], [w]);
    FeedOne(Feed(st, p), w);
    assert Feed(st, p).sagas[s] == st.sagas[s].(playlist := Success, updatedAt := p.now);
    FeedAppend(st, [p, w], rest);
    FinishedForAll(FeedAll(st, [p, w]), s, Completed, rest);
  }

  lemma FailureFirst(st: CoordinatorState, s: Id, f: Delivery, t: (Participant, Answer), rest: seq<Delivery>)
    requires JustStarted(st, s) && Tells(f, s, t) && Fails(t)
    ensures HasStatus(FeedAll(st, [f] + rest), s, SagaStatus.Failed)
  {
    hide FeedAll;
    FeedOne(st, f);
    FeedAppend(st, [f], rest);
    FinishedForAll(Feed(st, f), s, SagaStatus.Failed, rest);
  }

  /** A sequence with one of its elements in front. */
  lemma InFront(ds: seq<Delivery>, d: Delivery) returns (rest: seq<Delivery>)
    requires d in ds
    ensures multiset([d] + rest) == multiset(ds)
  {
    var i :| 0 <= i < |ds| && ds[i] == d;
    rest := ds[..i] + ds[i + 1..];
    assert ds == ds[..i] + ([d] + ds[i + 1..]);
  }

  lemma TwoInFront(ds: seq<Delivery>, d: Delivery, e: Delivery) returns (rest: seq<Delivery>)
    requires d in ds && e in ds && d != e
    ensures multiset([d, e] + rest) == multiset(ds)
  {
    var others := InFront(ds, d);
    assert multiset([d] + others) == multiset{d} + multiset(others);
    assert e in multiset(ds);
    assert e in multiset(others);
    rest := InFront(others, e);
    assert multiset([e] + rest) == multiset{e} + multiset(rest);
    assert multiset([d, e] + rest) == multiset{d} + multiset{e} + multiset(rest);
  }

  ghost predicate SameDeliveries(ds: seq<Delivery>, ds': seq<Delivery>) {
    multiset(ds) == multiset(ds')
  }

  lemma DifferentTales(p: Delivery, w: Delivery, s: Id)
    requires Tells(p, s, (Playlist, Succeeded)) && Tells(w, s, (WatchingSession, Succeeded))
    ensures p != w
  {
  }

  /**
    Whenever the answers delivered both fail the saga and complete it, two orders
    of the very same deliveries end differently.
  */
  lemma OrderMattersOtherwise(st: CoordinatorState, ds: seq<Delivery>, s: Id)
    requires JustStarted(st, s)
    requires SomeFail(Told(ds, s)) && BothSucceed(Told(ds, s))
    ensures exists a, b ::
              && SameDeliveries(a, ds) && SameDeliveries(b, ds)
              && HasStatus(FeedAll(st, a), s, Completed) && HasStatus(FeedAll(st, b), s, SagaStatus.Failed)
  {
    hide FeedAll, JustStarted, HasStatus;
    var t :| t in Told(ds, s) && Fails(t);
    var f: Delivery :| f in ds && Tells(f, s, t);
    var p: Delivery :| p in ds && Tells(p, s, (Playlist, Succeeded));
    var w: Delivery :| w in ds && Tells(w, s, (WatchingSession, Succeeded));
    var rest := InFront(ds, f);
    FailureFirst(st, s, f, t, rest);
    DifferentTales(p, w, s);
    var last := TwoInFront(ds, p, w);
    BothFirst(st, s, p, w, last);
    assert SameDeliveries([p, w] + last, ds) && SameDeliveries([f] + rest, ds);
  }

  function StatusOf(st: CoordinatorState, s: Id): Option<SagaStatus> {
    if s in st.sagas then Some(st.sagas[s].status) else None
  }

  ghost predicate OrderIrrelevant(st: CoordinatorState, ds: seq<Delivery>, s: Id) {
    forall a, b :: SameDeliveries(a, ds) && SameDeliveries(b, ds) ==>
      StatusOf(FeedAll(st, a), s) == StatusOf(FeedAll(st, b), s)
  }

  /** The status a saga ends with is independent of the order exactly if the answers do not both fail and complete it. */
  lemma OrderIrrelevantIff(st: CoordinatorState, ds: seq<Delivery>, s: Id)
    requires JustStarted(st, s)
    ensures OrderIrrelevant(st, ds, s) <==> !(SomeFail(Told(ds, s)) && BothSucceed(Told(ds, s)))
  {
    hide FeedAll, SomeFail;
    if SomeFail(Told(ds, s)) && BothSucceed(Told(ds, s)) {
      OrderMattersOtherwise(st, ds, s);
      var a, b :| SameDeliveries(a, ds) && SameDeliveries(b, ds)
                  && HasStatus(FeedAll(st, a), s, Completed) && HasStatus(FeedAll(st, b), s, SagaStatus.Failed);
      assert StatusOf(FeedAll(st, a), s) != StatusOf(FeedAll(st, b), s);
    } else {
      forall a, b | SameDeliveries(a, ds) && SameDeliveries(b, ds)
        ensures StatusOf(FeedAll(st, a), s) == StatusOf(FeedAll(st, b), s)
      {
        VerdictOf(st, a, ds, s);
        VerdictOf(st, b, ds, s);
      }
    }
  }

  lemma VerdictOf(st: CoordinatorState, a: seq<Delivery>, ds: seq<Delivery>, s: Id)
    requires JustStarted(st, s) && SameDeliveries(a, ds)
    requires !(SomeFail(Told(ds, s)) && BothSucceed(Told(ds, s)))
    ensures StatusOf(FeedAll(st, a), s) == Some(Verdict(Told(ds, s)))
  {
    hide FeedAll, SomeFail, Told;
    EmptyVerdict();
    forall d
      ensures d in a <==> d in ds
    {
      assert d in multiset(a) <==> d in multiset(ds);
    }
    SameElements(a, ds, s);
    FeedAllFollows(st, a, s);
  }

  lemma SameElements(ds: seq<Delivery>, ds': seq<Delivery>, s: Id)
    requires forall d :: d in ds <==> d in ds'
    ensures Told(ds, s) == Told(ds', s)
  {
  }
}
