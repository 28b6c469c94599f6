/**
 The price of at most once: wherever between its claim and its reservation a
 worker is lost, in whatever company, its message is stored and never answered.
 */
module LostReplies {
  import opened Common
  import opened Messages
  import opened ReplyProtocol
  import R = ReplyGuarantees

  /** Claimed, and the reservation not committed: the only worker that can still answer. */
  predicate Owes(me: Worker, id: Key) {
    && me.phase == Answering && me.delivery == id
    && (me.pc.Routing? || me.pc.Generating? || me.pc.Ready? || me.pc.ReserveInserted?)
  }

  ghost function Owing(workers: map<nat, Worker>, id: Key): set<nat> {
    set w | w in workers && Owes(workers[w], id)
  }

  /** Each committed claim pays for one reservation, made or still owed. */
  ghost predicate AnswersPaid(t: Table, workers: map<nat, Worker>, claims: multiset<Key>) {
    forall id: Key :: id.Plain? ==> One(ReplyTaken(t, id)) + |Owing(workers, id)| <= claims[id]
  }

  lemma OwingMove(workers: map<nat, Worker>, w: nat, me: Worker, id: Key)
    ensures |Owing(workers[w := me], id)|
         == |Owing(workers, id)| - One(w in workers && Owes(workers[w], id)) + One(Owes(me, id))
  {
    OneChanges(Owing(workers, id), Owing(workers[w := me], id), w);
  }

  lemma OwingDrop(workers: map<nat, Worker>, w: nat, id: Key)
    ensures |Owing(workers - {w}, id)| <= |Owing(workers, id)|
  {
    OneChanges(Owing(workers, id), Owing(workers - {w}, id), w);
  }

  /** A step that moves one worker and books what it newly owes or reserves. */
  lemma PaidMove(s: State, w: nat, me: Worker, s': State)
    requires AnswersPaid(s.table, s.workers, s.claims) && s'.workers == s.workers[w := me]
    requires forall id: Key :: id.Plain? ==>
      One(ReplyTaken(s'.table, id)) - One(ReplyTaken(s.table, id)) + One(Owes(me, id))
        <= One(w in s.workers && Owes(s.workers[w], id)) + s'.claims[id] - s.claims[id]
    ensures AnswersPaid(s'.table, s'.workers, s'.claims)
  {
    hide ReplyTaken, Owes, Owing;
    forall id: Key | id.Plain? ensures One(ReplyTaken(s'.table, id)) + |Owing(s'.workers, id)| <= s'.claims[id] {
      OwingMove(s.workers, w, me, id);
    }
  }

  lemma PaidDrop(s: State, w: nat)
    requires AnswersPaid(s.table, s.workers, s.claims)
    ensures AnswersPaid(s.table, s.workers - {w}, s.claims)
  {
    hide ReplyTaken, Owing;
    forall id: Key | id.Plain? ensures One(ReplyTaken(s.table, id)) + |Owing(s.workers - {w}, id)| <= s.claims[id] {
      OwingDrop(s.workers, w, id);
    }
  }

  lemma ClaimPaid(s: State, w: nat)
    requires Valid(s.table) && AnswersPaid(s.table, s.workers, s.claims) && At(s, w, ClaimInserted)
    ensures var s' := DoCommitClaim(s, w); AnswersPaid(s'.table, s'.workers, s'.claims)
  {
    ClaimIsExclusive(s.table, s.workers[w].conversation, s.workers[w].delivery, 0);
    hide ReplyTaken, WaTaken, InboundStored, Valid, AnswersPaid;
    PaidMove(s, w, s.workers[w].(pc := Routing), DoCommitClaim(s, w));
  }

  lemma ReservePaid(s: State, w: nat)
    requires Valid(s.table) && AllShaped(s.delivered, s.workers)
    requires AnswersPaid(s.table, s.workers, s.claims) && w in s.workers && s.workers[w].pc.ReserveInserted?
    ensures var s' := DoCommitReservation(s, w); AnswersPaid(s'.table, s'.workers, s'.claims)
  {
    var me := s.workers[w];
    assert Shaped(s.delivered, me);
    ReserveIsExclusive(s.table, me.pc.conversation, me.key, me.pc.body, 0, me.pc.body);
    hide ReplyTaken, WaTaken, InboundStored, Valid, AnswersPaid;
    PaidMove(s, w, me.(pc := Holding(s.table.next)), DoCommitReservation(s, w));
  }

  /** A worker that comes to owe nothing new, with no new reservation in the table. */
  lemma WorkerPaid(t: Table, t': Table, workers: map<nat, Worker>, claims: multiset<Key>, w: nat, me: Worker)
    requires AnswersPaid(t, workers, claims) && (forall id :: ReplyTaken(t', id) ==> ReplyTaken(t, id))
    requires Owes(me, me.delivery) ==> w in workers && Owes(workers[w], me.delivery)
    ensures AnswersPaid(t', workers, claims) && AnswersPaid(t', workers[w := me], claims)
  {
    hide ReplyTaken, Owing;
    forall id: Key | id.Plain? ensures One(ReplyTaken(t', id)) + |Owing(workers[w := me], id)| <= claims[id] {
      OwingMove(workers, w, me, id);
    }
  }

  lemma ConfirmPaid(s: State, w: nat)
    requires Valid(s.table) && AllInHand(s.table, s.removedReserves, s.workers)
    requires AnswersPaid(s.table, s.workers, s.claims) && w in s.workers && s.workers[w].pc.Returned?
    ensures var s' := DoAcknowledge(s, w); AnswersPaid(s'.table, s'.workers, s.claims) && s'.claims == s.claims
  {
    hide ReplyTaken, WaTaken, InboundStored, Valid, AnswersPaid, Confirm, ConfirmConflicts;
    var me := s.workers[w];
    assert InHand(s.table, s.removedReserves, me);
    var out, status := if me.pc.ok then me.pc.out else None, if me.pc.ok then Sent else Unconfirmed;
    ConfirmKeepsKeys(s.table, me.pc.row, out, status);
    WorkerPaid(s.table, Confirm(s.table, me.pc.row, out, status), s.workers, s.claims, w, me.(pc := Ended));
    PaidDrop(s, w);
  }

  lemma DeletePaid(s: State, conversation: nat)
    requires Valid(s.table) && AnswersPaid(s.table, s.workers, s.claims)
    ensures AnswersPaid(DeleteConversation(s.table, conversation), s.workers, s.claims)
  {
    hide Owing;
    forall id ensures ReplyTaken(DeleteConversation(s.table, conversation), id) ==> ReplyTaken(s.table, id) {
      DeleteAccounts(s.table, conversation, id);
    }
  }

  lemma UnpromptedPaid(s: State, conversation: nat, goodbye: bool, wa: Option<Key>)
    requires Valid(s.table) && AnswersPaid(s.table, s.workers, s.claims)
    ensures AnswersPaid(DoUnprompted(s, conversation, goodbye, wa).table, s.workers, s.claims)
  {
    hide Owing, ReplyTaken, WaTaken, InboundStored, Valid;
    UnpromptedKeepsKeys(s.table, conversation, goodbye, wa);
  }

  lemma RoutePaid(s: State, w: nat, choice: Choice)
    requires AnswersPaid(s.table, s.workers, s.claims)
    ensures AnswersPaid(s.table, DoRoute(s, w, choice).workers, s.claims)
  {
    hide AnswersPaid, ReplyTaken;
    if At(s, w, Routing) {
      var me := s.workers[w];
      WorkerPaid(s.table, s.table, s.workers, s.claims, w, me.(pc := Ended));
      WorkerPaid(s.table, s.table, s.workers, s.claims, w, me.(pc := Ready));
      WorkerPaid(s.table, s.table, s.workers, s.claims, w, me.(generated := true, pc := Ready));
      WorkerPaid(s.table, s.table, s.workers, s.claims, w, me.(generated := true, pc := Generating));
    }
  }

  lemma StartPaid(s: State, w: nat, id: Key, conversation: nat, comment: bool)
    requires AnswersPaid(s.table, s.workers, s.claims)
    ensures AnswersPaid(s.table, DoDeliver(s, w, id, conversation, comment).workers, s.claims)
    ensures AnswersPaid(s.table, DoInsertClaim(s, w).workers, s.claims)
  {
    hide AnswersPaid, ReplyTaken, WaTaken;
    WorkerPaid(s.table, s.table, s.workers, s.claims, w, Worker(id, conversation, comment, false, Answering, id, Start));
    if At(s, w, Start) {
      WorkerPaid(s.table, s.table, s.workers, s.claims, w, s.workers[w].(pc := Ended));
      WorkerPaid(s.table, s.table, s.workers, s.claims, w, s.workers[w].(pc := ClaimInserted));
    }
  }

  lemma StillOwes(me: Worker, conversation: nat, body: Body)
    ensures !Owes(me.(pc := Ended), me.delivery)
    ensures me.pc.Generating? && Owes(me.(pc := Ready), me.delivery) ==> Owes(me, me.delivery)
    ensures me.pc.Ready? && Owes(me.(pc := ReserveInserted(conversation, body)), me.delivery) ==> Owes(me, me.delivery)
  {
  }

  lemma MiddlePaid(s: State, w: nat, stored: bool, conversation: nat, body: Body)
    requires AnswersPaid(s.table, s.workers, s.claims)
    ensures AnswersPaid(s.table, DoComplete(s, w, stored).workers, s.claims)
    ensures AnswersPaid(s.table, DoInsertReservation(s, w, conversation, body).workers, s.claims)
  {
    hide AnswersPaid, ReplyTaken, Owes;
    if w in s.workers {
      var me := s.workers[w];
      StillOwes(me, conversation, body);
      WorkerPaid(s.table, s.table, s.workers, s.claims, w, me.(pc := Ended));
      if me.pc.Generating? {
        WorkerPaid(s.table, s.table, s.workers, s.claims, w, me.(pc := Ready));
      }
      if me.pc.Ready? {
        WorkerPaid(s.table, s.table, s.workers, s.claims, w, me.(pc := ReserveInserted(conversation, body)));
      }
    }
  }

  lemma EndPaid(s: State, w: nat, out: Option<Key>, ok: bool, invite: bool)
    requires AnswersPaid(s.table, s.workers, s.claims)
    ensures AnswersPaid(s.table, DoCall(s, w, out, ok).workers, s.claims)
    ensures AnswersPaid(s.table, DoFinish(s, w, invite).workers, s.claims)
  {
    hide AnswersPaid, ReplyTaken;
    PaidDrop(s, w);
    if w in s.workers {
      var me := s.workers[w];
      var invited := me.(phase := Inviting, key := ReservationKey(me.delivery), pc := Ready);
      WorkerPaid(s.table, s.table, s.workers, s.claims, w, invited);
      if me.pc.Holding? {
        WorkerPaid(s.table, s.table, s.workers, s.claims, w, me.(pc := Returned(me.pc.row, out, ok)));
      }
    }
  }

  lemma ClaimsFrame(s: State, step: Step)
    requires !R.TouchesTable(step)
    ensures Apply(s, step).claims == s.claims
  {
  }

  /** Every other step leaves table and claims alone, and makes no worker owe an answer that did not. */
  lemma QuietPaid(s: State, step: Step)
    requires AnswersPaid(s.table, s.workers, s.claims) && !R.TouchesTable(step)
    ensures var s' := Apply(s, step); AnswersPaid(s'.table, s'.workers, s'.claims)
  {
    hide AnswersPaid, DoDeliver, DoInsertClaim, DoRoute, DoComplete, DoInsertReservation, DoCall, DoFinish;
    R.FrameOf(s, step);
    ClaimsFrame(s, step);
    match step
    case Deliver(w, id, conversation, comment) => StartPaid(s, w, id, conversation, comment);
    case InsertClaim(w) => StartPaid(s, w, EMPTY, 0, false);
    case Route(w, choice) => RoutePaid(s, w, choice);
    case Complete(w, stored) => MiddlePaid(s, w, stored, 0, Notice);
    case InsertReservation(w, conversation, body) => MiddlePaid(s, w, false, conversation, body);
    case Call(w, out, ok) => EndPaid(s, w, out, ok, false);
    case Finish(w, invite) => EndPaid(s, w, None, false, invite);
    case Crash(w) => PaidDrop(s, w);
    case Expire(_) =>
  }

  lemma StepPaid(s: State, step: Step)
    requires Inv(s) && AnswersPaid(s.table, s.workers, s.claims)
    ensures var s' := Apply(s, step); AnswersPaid(s'.table, s'.workers, s'.claims)
  {
    hide Valid, LocksFree, LocksHeld, AllShaped, AllInHand, ClaimsAccounted, ReservesAccounted, SendsPaid, CallsPaid,
         SendsSplit, CacheExplained, HitsExplained, KeysExplained, AnswersPaid;
    match step
    case CommitClaim(w) => if At(s, w, ClaimInserted) { hide DoCommitClaim; ClaimPaid(s, w); }
    case CommitReservation(w) =>
      if w in s.workers && s.workers[w].pc.ReserveInserted? { hide DoCommitReservation; ReservePaid(s, w); }
    case Acknowledge(w) => if w in s.workers && s.workers[w].pc.Returned? { hide DoAcknowledge; ConfirmPaid(s, w); }
    case Unprompted(conversation, goodbye, wa) => UnpromptedPaid(s, conversation, goodbye, wa);
    case Delete(conversation) => DeletePaid(s, conversation);
    case _ => hide Apply; QuietPaid(s, step);
  }

  /** In every reachable state, deletes or not, reservations made and owed for a message are covered by its claims. */
  lemma {:induction false} EveryAnswerPaid(steps: seq<Step>)
    ensures var s := Run(Init(), steps); AnswersPaid(s.table, s.workers, s.claims)
  {
    if steps == [] {
      assert forall id :: Owing(Init().workers, id) == {};
    } else {
      hide Inv, AnswersPaid, Apply;
      EveryAnswerPaid(steps[..|steps| - 1]);
      Reachable(steps[..|steps| - 1]);
      StepPaid(Run(Init(), steps[..|steps| - 1]), steps[|steps| - 1]);
    }
  }

  /** Nobody else is on the message of a worker that still owes its answer, and nothing of it has gone out. */
  lemma OnlyOneOwes(s: State, w: nat, id: Key)
    requires Inv(s) && AnswersPaid(s.table, s.workers, s.claims)
    requires s.removedClaims == multiset{} && s.removedReserves == multiset{}
    requires id.Plain? && w in s.workers && Owes(s.workers[w], id)
    ensures InboundStored(s.table, id) && !ReplyTaken(s.table, id) && s.sends[id] == 0
    ensures forall v :: v in s.workers && v != w && s.workers[v].key == id ==> s.workers[v].pc.Start? || s.workers[v].pc.Ended?
  {
    hide CallsPaid, SendsSplit, CacheExplained, HitsExplained, KeysExplained;
    var owing := Owing(s.workers, id);
    assert w in owing && |owing| >= 1;
    assert s.claims[id] == One(InboundStored(s.table, id));
    assert s.reserves[id] == One(ReplyTaken(s.table, id));
    assert s.sends[id] + |Holders(s.workers, id)| <= s.reserves[id];
    forall v | v in s.workers && v != w && s.workers[v].key == id
      ensures s.workers[v].pc.Start? || s.workers[v].pc.Ended?
    {
      var me := s.workers[v];
      assert Shaped(s.delivered, me) && InHand(s.table, s.removedReserves, me);
      if Owes(me, id) {
        assert {v, w} <= owing;
        SmallSet(owing, v, w);
      }
      assert me.pc.ClaimInserted? ==> WaTaken(s.table, id);
    }
  }

  lemma SmallSet(a: set<nat>, v: nat, w: nat)
    requires v in a && w in a && v != w
    ensures |a| >= 2
  {
    assert a == a - {v, w} + {v, w};
  }

  lemma CrashAbandons(s: State, w: nat, id: Key)
    requires Inv(s) && AnswersPaid(s.table, s.workers, s.claims)
    requires s.removedClaims == multiset{} && s.removedReserves == multiset{}
    requires id.Plain? && w in s.workers && Owes(s.workers[w], id)
    ensures R.Abandoned(Drop(s, w), id) && Drop(s, w).sends[id] == 0
  {
    OnlyOneOwes(s, w, id);
    hide Inv, AnswersPaid, Owes, InboundStored, ReplyTaken;
  }

  /**
   In every run without deletes, whoever else is at work: if a worker is lost at any
   point from its committed claim up to its reservation, then whatever follows without
   deletes, redeliveries included, the message is stored and nothing is ever sent for it.
   */
  lemma CrashBeforeReservationIsFinal(steps: seq<Step>, w: nat, id: Key, later: seq<Step>)
    requires DeleteFree(steps) && DeleteFree(later) && id.Plain?
    requires w in Run(Init(), steps).workers && Owes(Run(Init(), steps).workers[w], id)
    ensures var s := Run(Run(Init(), steps + [Crash(w)]), later);
      InboundStored(s.table, id) && !ReplyTaken(s.table, id) && s.sends[id] == 0
  {
    hide Run, Inv, AnswersPaid, Owes, InboundStored, ReplyTaken, Drop;
    Reachable(steps);
    R.NothingRemoved(steps);
    EveryAnswerPaid(steps);
    CrashAbandons(Run(Init(), steps), w, id);
    R.RunSnoc(Init(), steps, Crash(w));
    Reachable(steps + [Crash(w)]);
    R.AbandonedForever(Run(Init(), steps + [Crash(w)]), id, later);
  }

  // ---- and before the claim nothing is lost ------------------------------------------------------

  lemma {:induction false} SomebodyNew(taken: set<nat>) returns (bound: nat)
    ensures forall w :: w in taken ==> w < bound
    ensures bound !in taken
    decreases |taken|
  {
    bound := 0;
    if taken != {} {
      var w :| w in taken;
      assert forall x :: x in taken ==> x == w || x in taken - {w};
      var rest := SomebodyNew(taken - {w});
      bound := if w < rest then rest else w + 1;
    }
  }

  /** The holders of uncommitted inserts of that id give up, and somebody new takes the delivery from the start. */
  function Retry(s: State, w: nat, id: Key): seq<Step> {
    [Crash(if id in s.claimLocks then s.claimLocks[id] else w)]
    + [Crash(if id in s.reserveLocks then s.reserveLocks[id] else w)] + R.Answered(w, id, 0)
  }

  lemma LocksFreed(s: State, w: nat, id: Key)
    requires w !in s.workers
    ensures var v := if id in s.claimLocks then s.claimLocks[id] else w;
      var u := if id in s.reserveLocks then s.reserveLocks[id] else w;
      var s' := Drop(Drop(s, v), u);
      id !in s'.claimLocks && id !in s'.reserveLocks && w !in s'.workers && s'.table == s.table && s'.sends == s.sends
  {
  }

  lemma RetryDeletesNothing(s: State, w: nat, id: Key)
    ensures DeleteFree(Retry(s, w, id))
  {
  }

  lemma RetryAnswers(s: State, w: nat, id: Key)
    requires w !in s.workers && !WaTaken(s.table, id) && !ReplyTaken(s.table, id)
    ensures Run(s, Retry(s, w, id)).sends[id] == s.sends[id] + 1
  {
    hide Run, R.Answered, Drop, Apply, WaTaken, ReplyTaken;
    var v := if id in s.claimLocks then s.claimLocks[id] else w;
    var u := if id in s.reserveLocks then s.reserveLocks[id] else w;
    LocksFreed(s, w, id);
    CrashesRun(s, v, u);
    R.RunConcat(s, [Crash(v)] + [Crash(u)], R.Answered(w, id, 0));
    R.AnsweredRuns(Drop(Drop(s, v), u), w, id, 0);
  }

  lemma CrashesRun(s: State, v: nat, u: nat)
    ensures Run(s, [Crash(v)] + [Crash(u)]) == Drop(Drop(s, v), u)
  {
    hide Run, Drop;
    assert [] + [Crash(v)] == [Crash(v)];
    RunNone(s);
    R.RunSnoc(s, [], Crash(v));
    R.RunSnoc(s, [Crash(v)], Crash(u));
  }

  lemma RunNone(s: State)
    ensures Run(s, []) == s
  {
  }

  ghost predicate CanBeAnswered(s: State, id: Key) {
    exists later :: DeleteFree(later) && Run(s, later).sends[id] >= 1
  }

  /** In every run without deletes, a message whose claim nobody has committed can still be answered. */
  lemma UnclaimedCanBeAnswered(steps: seq<Step>, id: Key)
    requires DeleteFree(steps) && id.Plain? && !WaTaken(Run(Init(), steps).table, id)
    ensures CanBeAnswered(Run(Init(), steps), id)
  {
    var s := Run(Init(), steps);
    Reachable(steps);
    R.NothingRemoved(steps);
    EveryAnswerPaid(steps);
    assert s.claims[id] == One(InboundStored(s.table, id)) && !InboundStored(s.table, id);
    assert One(ReplyTaken(s.table, id)) + |Owing(s.workers, id)| <= s.claims[id];
    hide Run, Inv, WaTaken, ReplyTaken, InboundStored, Retry, AnswersPaid;
    var w := SomebodyNew(s.workers.Keys);
    RetryAnswers(s, w, id);
    RetryDeletesNothing(s, w, id);
  }

  /**
   A worker lost before its reservation takes the answer with it if and only if its
   claim had been committed: lost earlier, it leaves a delivery that somebody else can
   take and answer.
   */
  lemma LossIsFinalIff(steps: seq<Step>, w: nat, id: Key)
    requires DeleteFree(steps) && id.Plain? && w in Run(Init(), steps).workers
    requires var me := Run(Init(), steps).workers[w];
      me.phase == Answering && me.delivery == id && (me.pc.ClaimInserted? || Owes(me, id))
    ensures Owes(Run(Init(), steps).workers[w], id) <==> !CanBeAnswered(Run(Init(), steps + [Crash(w)]), id)
  {
    hide Run, Owes, WaTaken;
    if Owes(Run(Init(), steps).workers[w], id) {
      forall later | DeleteFree(later) ensures Run(Run(Init(), steps + [Crash(w)]), later).sends[id] == 0 {
        CrashBeforeReservationIsFinal(steps, w, id, later);
      }
    } else {
      hide CanBeAnswered;
      ClaimStillFree(steps, w, id);
      UnclaimedCanBeAnswered(steps + [Crash(w)], id);
    }
  }

  lemma ClaimStillFree(steps: seq<Step>, w: nat, id: Key)
    requires w in Run(Init(), steps).workers
    requires Run(Init(), steps).workers[w].pc.ClaimInserted? && Run(Init(), steps).workers[w].delivery == id
    ensures !WaTaken(Run(Init(), steps + [Crash(w)]).table, id)
  {
    hide Run;
    Reachable(steps);
    R.RunSnoc(Init(), steps, Crash(w));
  }
}
