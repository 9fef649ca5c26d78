/**
  In every run of the whole system a saga times out exactly if a sweep lists it,
  and otherwise ends where the answers delivered for it lead.
*/
module SagaOutcome {
  import opened Entities
  import opened Coordinator
  import P = PlaylistParticipant
  import L = LiveChatParticipant
  import opened SagaWorld
  import opened SagaCoupling
  import opened SagaHandlers
  import opened SagaInvariant
  import opened SagaEveryRun
  import opened SagaTheorems
  import opened SagaConfluence

  /** The answer that a step hands to the coordinator for this saga, if it does. */
  ghost function Handed(w: World, a: Action, s: Id): set<(Participant, Answer)> {
    if a.Deliver? && a.response in w.responses && a.response.saga == s
    then {(a.response.participant, a.response.answer)} else {}
  }

  ghost function Delivered(w: World, acts: seq<Action>, s: Id): set<(Participant, Answer)>
    decreases |acts|
  {
    if acts == [] then {} else Handed(w, acts[0], s) + Delivered(Step(w, acts[0]), acts[1..], s)
  }

  ghost predicate Clash(told: set<(Participant, Answer)>) {
    SomeFail(told) && BothSucceed(told)
  }

  /** Some sweep of the run listed the saga. */
  ghost predicate TimesOut(w: World, acts: seq<Action>, s: Id)
    decreases |acts|
  {
    acts != [] && (ListedBy(w, acts[0], s) || TimesOut(Step(w, acts[0]), acts[1..], s))
  }

  ghost predicate ListedBy(w: World, a: Action, s: Id) {
    Sweeps(w, a) && s in a.ids
  }

  /** Whatever else happens in the system, a saga that is not timed out follows the answers handed over. */
  lemma StepFollows(w: World, a: Action, s: Id, told: set<(Participant, Answer)>)
    requires Follows(w.coord, s, told) && !ListedBy(w, a, s) && !Clash(told + Handed(w, a, s))
    ensures Follows(Step(w, a).coord, s, told + Handed(w, a, s))
  {
    hide SomeFail, BothSucceed, Verdict, HandleResponse, ListedBy;
    if Handed(w, a, s) == {} {
      assert told + Handed(w, a, s) == told;
      OtherStepFollows(w, a, s, told);
    } else {
      FeedFollows(w.coord, s, told, w.now, a.response);
    }
  }

  lemma OtherStepFollows(w: World, a: Action, s: Id, told: set<(Participant, Answer)>)
    requires Follows(w.coord, s, told) && !ListedBy(w, a, s) && Handed(w, a, s) == {}
    ensures Follows(Step(w, a).coord, s, told)
  {
    hide Verdict, TimeOutAll;
    match a
    case Deliver(e) =>
      if e in w.responses {
        assert e.saga == s ==> (e.participant, e.answer) in Handed(w, a, s);
        OthersFollow(w.coord, s, told, Arrive(w.now, e));
      }
    case Tick(ids) =>
      if Sweeps(w, a) {
        TimeOutAllSagas(w.coord, w.now, ids);
        TimeOutAllInbox(w.coord, w.now, ids);
      }
    case _ =>
  }

  /** A sweep times out every saga it lists. */
  lemma ListedTimesOut(w: World, a: Action, s: Id)
    requires ListedBy(w, a, s)
    ensures HasStatus(Step(w, a).coord, s, TimedOut)
  {
    hide TimeOutAll;
    TimeOutAllSagas(w.coord, w.now, a.ids);
  }

  lemma TimedOutStays(w: World, acts: seq<Action>, s: Id)
    requires HasStatus(w.coord, s, TimedOut)
    ensures HasStatus(Exec(w, acts).coord, s, TimedOut)
  {
    hide Exec;
    RunEvolves(w, acts);
  }

  lemma LessClash(told: set<(Participant, Answer)>, more: set<(Participant, Answer)>)
    requires told <= more && !Clash(more)
    ensures !Clash(told)
  {
    FewerTold(told, more);
  }

  lemma {:induction false} RunFollows(w: World, acts: seq<Action>, s: Id, told: set<(Participant, Answer)>)
    requires Follows(w.coord, s, told) && !Clash(told + Delivered(w, acts, s))
    ensures if TimesOut(w, acts, s) then HasStatus(Exec(w, acts).coord, s, TimedOut)
            else Follows(Exec(w, acts).coord, s, told + Delivered(w, acts, s))
    decreases |acts|
  {
    hide Step, Follows, Clash, Handed, ListedBy, HasStatus;
    if acts == [] {
      assert told + {} == told;
    } else if ListedBy(w, acts[0], s) {
      ListedTimesOut(w, acts[0], s);
      TimedOutStays(Step(w, acts[0]), acts[1..], s);
    } else {
      var a := acts[0];
      var heard := told + Handed(w, a, s);
      assert heard + Delivered(Step(w, a), acts[1..], s) == told + Delivered(w, acts, s);
      LessClash(heard, told + Delivered(w, acts, s));
      StepFollows(w, a, s, told);
      RunFollows(Step(w, a), acts[1..], s, heard);
    }
  }

  // ---------- Delivered answers were sent ----------

  ghost predicate WasSent(w: World, s: Id, t: (Participant, Answer)) {
    exists r :: r in w.responses && r.saga == s && r.participant == t.0 && r.answer == t.1
  }

  lemma ResponsesStay(w: World, a: Action, s: Id, t: (Participant, Answer))
    ensures WasSent(w, s, t) ==> WasSent(Step(w, a), s, t)
    ensures t in Handed(w, a, s) ==> WasSent(w, s, t)
  {
    assert w.responses <= Step(w, a).responses;
  }

  lemma {:induction false} DeliveredWasSent(w: World, acts: seq<Action>, s: Id, t: (Participant, Answer))
    requires t in Delivered(w, acts, s) || WasSent(w, s, t)
    ensures WasSent(Exec(w, acts), s, t)
    decreases |acts|
  {
    hide Step, WasSent, Handed;
    if acts != [] {
      ResponsesStay(w, acts[0], s, t);
      DeliveredWasSent(Step(w, acts[0]), acts[1..], s, t);
    }
  }

  lemma NoClashInRuns(acts: seq<Action>, more: seq<Action>, s: Id)
    ensures !Clash(Delivered(Exec(GENESIS, acts), more, s))
  {
    hide Exec, Delivered;
    ExecAppend(GENESIS, acts, more);
    var w := Exec(GENESIS, acts + more);
    var told := Delivered(Exec(GENESIS, acts), more, s);
    forall t | t in told && Fails(t)
      ensures (t.0, Succeeded) !in told && (t.0 == Playlist || t.0 == Participant.WatchingSession)
    {
      DeliveredWasSent(Exec(GENESIS, acts), more, s, t);
      var r :| r in w.responses && r.saga == s && r.participant == t.0 && r.answer == t.1;
      AnswersAreStable(acts + more, r, r);
      if (t.0, Succeeded) in told {
        DeliveredWasSent(Exec(GENESIS, acts), more, s, (t.0, Succeeded));
        var q :| q in w.responses && q.saga == s && q.participant == t.0 && q.answer == Succeeded;
        AnswersAreStable(acts + more, r, q);
      }
    }
  }

  /**
    However the run goes on after a saga has started, with any redeliveries,
    reorderings, sweeps and other sagas: it has timed out exactly if a sweep listed
    it. Otherwise it has failed exactly if a refusal was delivered for it, has
    completed and removed its content exactly if both successes were, and else
    goes on. That its content is then still locked needs that no sweep straddled a
    deletion.
  */
  lemma SagaFollowsAnswers(acts: seq<Action>, more: seq<Action>, s: Id)
    requires JustStarted(Exec(GENESIS, acts).coord, s)
    ensures var st := Exec(GENESIS, acts + more).coord;
            var told := Delivered(Exec(GENESIS, acts), more, s);
            var late := TimesOut(Exec(GENESIS, acts), more, s);
            && s in st.sagas
            && (st.sagas[s].status == TimedOut <==> late)
            && (st.sagas[s].status == SagaStatus.Failed <==> !late && SomeFail(told))
            && (st.sagas[s].status == Completed <==> !late && BothSucceed(told))
            && (st.sagas[s].status == Started <==> !late && !SomeFail(told) && !BothSucceed(told))
            && (st.sagas[s].status == Completed ==> ContentIs(st, st.sagas[s].content, Deleted))
            && (st.sagas[s].status == Started && NoTickStraddles(GENESIS, acts + more) ==>
                  ContentIs(st, st.sagas[s].content, Deleting))
  {
    hide Exec, NoTickStraddles, Delivered, TimesOut, SomeFail, Tallied, LocksNamed, LogSound;
    hide PlaylistSound, ResponsesSound, VotesSound, CurationsSound;
    ExecAppend(GENESIS, acts, more);
    var w := Exec(GENESIS, acts);
    var told := Delivered(w, more, s);
    EmptyVerdict();
    NoClashInRuns(acts, more, s);
    assert {} + told == told;
    RunFollows(w, more, s, {});
    ReachableSteady(acts + more);
    if NoTickStraddles(GENESIS, acts + more) {
      ReachableSound(acts + more);
      assert RowCoupled(Exec(GENESIS, acts + more).coord, s);
    }
  }

  /** An accepted deletion leads to such a state, in every run: no answer for the fresh saga can be recorded yet. */
  lemma StartedFromScratch(acts: seq<Action>, c: Id, s: Id, delay: nat)
    requires ContentIs(Exec(GENESIS, acts).coord, c, Active) && s !in Exec(GENESIS, acts).coord.sagas
    ensures JustStarted(Exec(GENESIS, acts + [Delete(c, s, delay)]).coord, s)
  {
    hide Exec, Tallied, RowsNamed, LocksNamed, PlaylistSound, ResponsesSound;
    ReachableSteady(acts);
    ExecAppend(GENESIS, acts, [Delete(c, s, delay)]);
    OneStep(Exec(GENESIS, acts), Delete(c, s, delay));
  }

  lemma OneStep(w: World, a: Action)
    ensures Exec(w, [a]) == Step(w, a)
  {
    hide Step;
    assert [a][1..] == [];
    assert Exec(Step(w, a), []) == Step(w, a);
  }
}
