/** What the reply protocol guarantees over whole runs, and exactly where the guarantees stop. */
module ReplyGuarantees {
  import opened Common
  import opened Messages
  import opened ReplyProtocol

  lemma OnlyDeleteRemoves(s: State, step: Step)
    requires !step.Delete?
    ensures Apply(s, step).removedClaims == s.removedClaims && Apply(s, step).removedReserves == s.removedReserves
  {
  }

  lemma {:induction false} NothingRemoved(steps: seq<Step>)
    requires DeleteFree(steps)
    ensures Run(Init(), steps).removedClaims == multiset{} && Run(Init(), steps).removedReserves == multiset{}
  {
    if steps != [] {
      NothingRemoved(steps[..|steps| - 1]);
      OnlyDeleteRemoves(Run(Init(), steps[..|steps| - 1]), steps[|steps| - 1]);
    }
  }

  /**
   In every run of any number of workers, the sender is called at most once per
   reservation key, plus once for each time a delete took that key's row; so
   without deletes at most once, for public answers and invitations alike.
   */
  lemma AtMostOneSend(steps: seq<Step>, key: Key)
    ensures var s := Run(Init(), steps);
      && s.sends[key] <= 1 + s.removedReserves[key]
      && s.answers[key] <= s.sends[key] && s.invites[key] <= s.sends[ReservationKey(key)]
      && (DeleteFree(steps) ==> s.sends[key] <= 1 && s.answers[key] <= 1 && s.invites[key] <= 1)
  {
    Reachable(steps);
    var s := Run(Init(), steps);
    assert s.sends[key] + |Holders(s.workers, key)| <= s.reserves[key];
    assert s.sends[ReservationKey(key)] + |Holders(s.workers, ReservationKey(key))| <= s.reserves[ReservationKey(key)];
    if DeleteFree(steps) {
      NothingRemoved(steps);
    }
  }

  /** Without deletes, whoever is about to call the sender has a committed outbound row under its key. */
  lemma SendFollowsCommit(steps: seq<Step>, w: nat)
    requires DeleteFree(steps)
    requires w in Run(Init(), steps).workers && Run(Init(), steps).workers[w].pc.Holding?
    ensures var s := Run(Init(), steps);
      var me := s.workers[w];
      && me.pc.row in s.table.rows
      && s.table.rows[me.pc.row].direction == Outbound && s.table.rows[me.pc.row].replyTo == Some(me.key)
      && s.sends[me.key] == 0
  {
    Reachable(steps);
    NothingRemoved(steps);
    var s := Run(Init(), steps);
    var me := s.workers[w];
    assert InHand(s.table, s.removedReserves, me);
    assert w in Holders(s.workers, me.key);
    assert |Holders(s.workers, me.key)| >= 1;
    assert s.reserves[me.key] <= 1;
  }

  /**
   Every delivery id leads to at most one completion call, plus one for each
   time a delete took its inbound row.  A cached generation is therefore read
   back only for an id whose claim was deleted: without deletes, never.
   */
  lemma AtMostOneCompletion(steps: seq<Step>, id: Key)
    ensures var s := Run(Init(), steps);
      && s.completions[id] <= 1 + s.removedClaims[id]
      && (s.hits[id] >= 1 ==> s.removedClaims[id] >= 1)
      && (DeleteFree(steps) ==> s.completions[id] <= 1 && s.hits[id] == 0)
  {
    Reachable(steps);
    var s := Run(Init(), steps);
    assert s.completions[id] + |Deciders(s.workers, id)| <= s.claims[id];
    if DeleteFree(steps) {
      NothingRemoved(steps);
    }
  }

  lemma OnlyDeliverDelivers(s: State, step: Step, id: Key)
    requires id in Apply(s, step).delivered && id !in s.delivered
    ensures step.Deliver? && step.id == id
  {
  }

  lemma {:induction false} DeliveredAreDeliveries(steps: seq<Step>, id: Key)
    requires PrefixFree(steps) && id in Run(Init(), steps).delivered
    ensures id.Plain?
  {
    hide Apply;
    if steps != [] {
      var before := steps[..|steps| - 1];
      var last := steps[|steps| - 1];
      if id in Run(Init(), before).delivered {
        DeliveredAreDeliveries(before, id);
      } else {
        OnlyDeliverDelivers(Run(Init(), before), last, id);
      }
    }
  }

  /**
   With provider ids that never start with the prefix, a comment's public answer
   and its invitation never compete: each is refused only by an earlier one of
   its own kind.
   */
  lemma AnswerAndInvitationIndependent(steps: seq<Step>, row: nat, comment: Key)
    requires PrefixFree(steps) && comment.Plain?
    requires row in Run(Init(), steps).table.rows
    ensures var m := Run(Init(), steps).table.rows[row];
      && (m.replyTo == Some(ReservationKey(comment)) ==> m.body.Invitation?)
      && (m.replyTo == Some(comment) ==> !m.body.Invitation?)
  {
    Reachable(steps);
    var s := Run(Init(), steps);
    assert KeyExplained(s.delivered, s.table.rows[row]);
    if ReservationKey(comment) in s.delivered {
      DeliveredAreDeliveries(steps, ReservationKey(comment));
    }
  }

  // ---- where the guarantees stop ----------------------------------------------

  lemma {:induction false} RunConcat(s: State, first: seq<Step>, then_: seq<Step>)
    ensures Run(s, first + then_) == Run(Run(s, first), then_)
    decreases |then_|
  {
    hide Apply;
    if then_ == [] {
      assert first + then_ == first;
    } else {
      var n := |then_| - 1;
      assert (first + then_)[..|first + then_| - 1] == first + then_[..n];
      RunConcat(s, first, then_[..n]);
    }
  }

  lemma RunThree(s: State, a: Step, b: Step, c: Step)
    ensures Run(s, [a, b, c]) == Apply(Apply(Apply(s, a), b), c)
  {
    hide Apply;
    assert [a, b, c][..2] == [a, b] && [a, b][..1] == [a] && [a][..0] == [];
    assert Run(s, [a]) == Apply(Run(s, []), a);
    assert Run(s, [a, b]) == Apply(Run(s, [a]), b);
  }

  /** A delivery taken by worker w and claimed. */
  function Claiming(w: nat, id: Key, c: nat): seq<Step> {
    [Deliver(w, id, c, true), InsertClaim(w), CommitClaim(w)]
  }

  lemma Delivered(s: State, w: nat, id: Key, c: nat)
    requires w !in s.workers
    ensures DoDeliver(s, w, id, c, true) ==
      s.(workers := s.workers[w := Worker(id, c, true, false, Answering, id, Start)], delivered := s.delivered + {id})
  {
  }

  lemma Claimed(s: State, w: nat, id: Key, c: nat)
    requires At(s, w, Start) && s.workers[w] == Worker(id, c, true, false, Answering, id, Start)
    requires id !in s.claimLocks && !WaTaken(s.table, id)
    ensures DoCommitClaim(DoInsertClaim(s, w), w) == s.(
      workers := s.workers[w := Worker(id, c, true, false, Answering, id, Routing)],
      table := Insert(s.table, InboundRow(c, id)), claims := s.claims + multiset{id})
  {
    hide WaTaken;
    var s1 := DoInsertClaim(s, w);
    assert s1.claimLocks - {id} == s.claimLocks;
    assert DoCommitClaim(s1, w).workers == s.workers[w := Worker(id, c, true, false, Answering, id, Routing)];
  }

  lemma ClaimingRuns(s: State, w: nat, id: Key, c: nat)
    requires w !in s.workers && id !in s.claimLocks && !WaTaken(s.table, id)
    ensures Run(s, Claiming(w, id, c)) == s.(
      workers := s.workers[w := Worker(id, c, true, false, Answering, id, Routing)],
      table := Insert(s.table, InboundRow(c, id)), delivered := s.delivered + {id}, claims := s.claims + multiset{id})
  {
    hide Run, DoDeliver, DoInsertClaim, DoCommitClaim, WaTaken, Insert;
    RunThree(s, Deliver(w, id, c, true), InsertClaim(w), CommitClaim(w));
    Delivered(s, w, id, c);
    Claimed(DoDeliver(s, w, id, c, true), w, id, c);
  }

  /** A routed answer reserved and handed to the sender. */
  function Sending(w: nat, c: nat): seq<Step> {
    [InsertReservation(w, c, Answer(false)), CommitReservation(w), Call(w, None, true)]
  }

  lemma SendingRuns(s: State, w: nat, id: Key, c: nat)
    requires At(s, w, Ready) && s.workers[w] == Worker(id, c, true, false, Answering, id, Ready)
    requires id !in s.reserveLocks && !ReplyTaken(s.table, id)
    ensures Run(s, Sending(w, c)) == s.(
      workers := s.workers[w := Worker(id, c, true, false, Answering, id, Returned(s.table.next, None, true))],
      table := Insert(s.table, ReservedRow(c, id, Answer(false))), reserves := s.reserves + multiset{id},
      sends := s.sends + multiset{id}, answers := s.answers + multiset{id})
  {
    hide Run, DoInsertReservation, DoCommitReservation, ReplyTaken, Insert;
    RunThree(s, InsertReservation(w, c, Answer(false)), CommitReservation(w), Call(w, None, true));
    var s2 := s.(workers := s.workers[w := s.workers[w].(pc := Holding(s.table.next))],
                 table := Insert(s.table, ReservedRow(c, id, Answer(false))), reserves := s.reserves + multiset{id});
    ReservedState(s, w, id, c, s2);
    assert DoCall(s2, w, None, true).workers == s.workers[w := s.workers[w].(pc := Returned(s.table.next, None, true))];
  }

  lemma ReservedState(s: State, w: nat, id: Key, c: nat, s2: State)
    requires At(s, w, Ready) && s.workers[w] == Worker(id, c, true, false, Answering, id, Ready)
    requires id !in s.reserveLocks && !ReplyTaken(s.table, id)
    requires s2 == s.(workers := s.workers[w := s.workers[w].(pc := Holding(s.table.next))],
                      table := Insert(s.table, ReservedRow(c, id, Answer(false))), reserves := s.reserves + multiset{id})
    ensures DoCommitReservation(DoInsertReservation(s, w, c, Answer(false)), w) == s2
  {
    hide ReplyTaken;
    var s1 := DoInsertReservation(s, w, c, Answer(false));
    assert s1.reserveLocks - {id} == s.reserveLocks;
    assert DoCommitReservation(s1, w).workers == s2.workers;
  }

  /** Claimed and answered with fixed copy that the sender accepts. */
  function Answered(w: nat, id: Key, c: nat): seq<Step> {
    Claiming(w, id, c) + [Route(w, SendFixed)] + Sending(w, c)
  }

  lemma AnsweredRuns(s: State, w: nat, id: Key, c: nat)
    requires w !in s.workers && id !in s.claimLocks && id !in s.reserveLocks
    requires !WaTaken(s.table, id) && !ReplyTaken(s.table, id)
    ensures var s' := Run(s, Answered(w, id, c));
      && s'.table == Insert(Insert(s.table, InboundRow(c, id)), ReservedRow(c, id, Answer(false)))
      && s'.workers.Keys == s.workers.Keys + {w}
      && s'.sends == s.sends + multiset{id} && s'.invites == s.invites
      && s'.claimLocks == s.claimLocks && s'.reserveLocks == s.reserveLocks
  {
    hide Run, Claiming, Sending;
    ClaimingRuns(s, w, id, c);
    var s1 := Run(s, Claiming(w, id, c));
    RunSnoc(s, Claiming(w, id, c), Route(w, SendFixed));
    var s2 := Apply(s1, Route(w, SendFixed));
    SendingRuns(s2, w, id, c);
    RunConcat(s, Claiming(w, id, c) + [Route(w, SendFixed)], Sending(w, c));
  }

  lemma RunSnoc(s: State, steps: seq<Step>, step: Step)
    ensures Run(s, steps + [step]) == Apply(Run(s, steps), step)
  {
    assert (steps + [step])[..|steps|] == steps;
  }

  /** The delete-free hypothesis is needed: deleting the conversation lets a redelivery be answered again, in a new conversation. */
  lemma DeleteAllowsSecondSend(id: Key)
    ensures Run(Init(), Answered(0, id, 0) + [Delete(0)] + Answered(1, id, 1)).sends[id] == 2
  {
    AnsweredRuns(Init(), 0, id, 0);
    var d := Apply(Run(Init(), Answered(0, id, 0)), Delete(0));
    RunSnoc(Init(), Answered(0, id, 0), Delete(0));
    assert d.table.rows == map[];
    AnsweredRuns(d, 1, id, 1);
    RunConcat(Init(), Answered(0, id, 0) + [Delete(0)], Answered(1, id, 1));
  }

  /** Claimed, generated and cached, and then the worker is lost. */
  function Cached(w: nat, id: Key): seq<Step> {
    Claiming(w, id, 0) + [Route(w, AskModel), Complete(w, true), Crash(w)]
  }

  lemma CachedThenLost(s: State, w: nat, id: Key)
    requires At(s, w, Routing) && s.workers[w] == Worker(id, 0, true, false, Answering, id, Routing)
    requires id != EMPTY && id !in s.cache && s.claimLocks == map[] && s.reserveLocks == map[]
    ensures var s' := Drop(DoComplete(DoRoute(s, w, AskModel), w, true), w);
      s' == s.(workers := s.workers - {w}, completions := s.completions + multiset{id}, cache := s.cache + {id})
  {
    var s2 := DoComplete(DoRoute(s, w, AskModel), w, true);
    assert s2.workers - {w} == s.workers - {w};
    assert Unlock(s.claimLocks, w) == map[] && Unlock(s.reserveLocks, w) == map[];
  }

  lemma CachedRuns(id: Key)
    requires id != EMPTY
    ensures var s := Run(Init(), Cached(0, id));
      && s.table == Insert(Init().table, InboundRow(0, id)) && s.workers == map[] && s.claimLocks == map[]
      && s.cache == {id} && s.hits == multiset{}
  {
    hide Run, Claiming, DoRoute, DoComplete, Drop, Insert;
    ClaimingRuns(Init(), 0, id, 0);
    RunConcat(Init(), Claiming(0, id, 0), [Route(0, AskModel), Complete(0, true), Crash(0)]);
    var s := Run(Init(), Claiming(0, id, 0));
    RunThree(s, Route(0, AskModel), Complete(0, true), Crash(0));
    CachedThenLost(s, 0, id);
  }

  /** A cached generation is read back once its claim has been deleted: the branch is dead only without deletes. */
  lemma DeleteAllowsCacheHit(id: Key)
    requires id != EMPTY
    ensures Run(Init(), Cached(0, id) + [Delete(0)] + Claiming(1, id, 1) + [Route(1, AskModel)]).hits[id] == 1
  {
    hide Run, Claiming, Cached;
    CachedRuns(id);
    RunSnoc(Init(), Cached(0, id), Delete(0));
    var d := Run(Init(), Cached(0, id) + [Delete(0)]);
    assert d.table.rows == map[];
    ClaimingRuns(d, 1, id, 1);
    RunConcat(Init(), Cached(0, id) + [Delete(0)], Claiming(1, id, 1));
    RunSnoc(Init(), Cached(0, id) + [Delete(0)] + Claiming(1, id, 1), Route(1, AskModel));
  }

  /** Worker w is about to reserve that comment's invitation, and nobody else is in the middle of it. */
  predicate Invites(s: State, w: nat, comment: Key) {
    && At(s, w, Ready) && s.workers[w].phase == Inviting
    && s.workers[w].key == ReservationKey(comment) && s.workers[w].key !in s.reserveLocks
  }

  /** A comment's worker, its answer over, goes on to the invitation. */
  function GoingOn(w: nat, c: nat, out: Option<Key>, ok: bool): seq<Step> {
    [Finish(w, true), InsertReservation(w, c, Invitation), CommitReservation(w)] + [Call(w, out, ok)]
  }

  /** Whatever else is going on, it sends exactly one unless one was reserved for the comment before. */
  lemma InvitationFollows(s: State, w: nat, c: nat, out: Option<Key>, ok: bool)
    requires At(s, w, Ended) && s.workers[w].comment && s.workers[w].phase == Answering && s.workers[w].delivery != EMPTY
    requires ReservationKey(s.workers[w].delivery) !in s.reserveLocks
    ensures var (id, s') := (s.workers[w].delivery, Run(s, GoingOn(w, c, out, ok)));
      if ReplyTaken(s.table, ReservationKey(id)) then s'.sends == s.sends && s'.invites == s.invites && s'.table == s.table
      else && s'.sends == s.sends + multiset{ReservationKey(id)} && s'.invites == s.invites + multiset{id} && s'.answers == s.answers
           && s'.table.rows == s.table.rows[s.table.next := Message(c, Outbound, Invitation, None, Some(ReservationKey(id)), Some(Pending))]
  {
    hide Run, ReplyTaken, DoFinish, DoInsertReservation, DoCommitReservation, DoCall;
    RunThree(s, Finish(w, true), InsertReservation(w, c, Invitation), CommitReservation(w));
    RunSnoc(s, [Finish(w, true), InsertReservation(w, c, Invitation), CommitReservation(w)], Call(w, out, ok));
    TurnsToInviting(s, w);
    var s1 := DoFinish(s, w, true);
    InvitationReserved(s1, w, c);
    CallCounts(DoCommitReservation(DoInsertReservation(s1, w, c, Invitation), w), w, out, ok);
  }

  lemma TurnsToInviting(s: State, w: nat)
    requires At(s, w, Ended) && s.workers[w].comment && s.workers[w].phase == Answering && s.workers[w].delivery != EMPTY
    ensures var s1 := DoFinish(s, w, true);
      && s1 == s.(workers := s1.workers) && At(s1, w, Ready) && s1.workers[w].phase == Inviting
      && s1.workers[w].delivery == s.workers[w].delivery && s1.workers[w].key == ReservationKey(s.workers[w].delivery)
  {
  }

  /** Reserved and committed, in one go. */
  lemma InvitationReserved(s: State, w: nat, c: nat)
    requires At(s, w, Ready) && s.workers[w].phase == Inviting && s.workers[w].key !in s.reserveLocks
    ensures var (key, s') := (s.workers[w].key, DoCommitReservation(DoInsertReservation(s, w, c, Invitation), w));
      && w in s'.workers && s'.workers[w] == s.workers[w].(pc := s'.workers[w].pc)
      && s'.sends == s.sends && s'.invites == s.invites && s'.answers == s.answers
      && (if ReplyTaken(s.table, key) then s'.table == s.table && s'.workers[w].pc == Ended
          else && s'.workers[w].pc == Holding(s.table.next)
               && s'.table.rows == s.table.rows[s.table.next := Message(c, Outbound, Invitation, None, Some(key), Some(Pending))])
  {
    hide ReplyTaken;
  }

  lemma CallCounts(s: State, w: nat, out: Option<Key>, ok: bool)
    requires w in s.workers
    ensures var (me, s') := (s.workers[w], DoCall(s, w, out, ok));
      && s'.table == s.table
      && (if !me.pc.Holding? then s' == s
          else s'.sends == s.sends + multiset{me.key}
               && s'.answers == (if me.phase == Answering then s.answers + multiset{me.delivery} else s.answers)
               && s'.invites == (if me.phase == Inviting then s.invites + multiset{me.delivery} else s.invites))
  {
  }

  /** And so is the prefix hypothesis: answering a message whose id starts with it uses up a comment's invitation. */
  lemma PrefixCollisionRefusesInvitation(comment: Key)
    ensures var s := Run(Init(), Answered(0, ReservationKey(comment), 0));
      && ReplyTaken(s.table, ReservationKey(comment)) && s.invites == multiset{}
      && forall s': State, w, c | s'.table == s.table && Invites(s', w, comment) ::
           At(DoInsertReservation(s', w, c, Invitation), w, Ended)
  {
    AnsweredRuns(Init(), 0, ReservationKey(comment), 0);
    var s := Run(Init(), Answered(0, ReservationKey(comment), 0));
    assert 1 in s.table.rows && s.table.rows[1].replyTo == Some(ReservationKey(comment));
  }

  /** Claimed and gone silent: stored, unanswered, and nobody left who could answer. */
  ghost predicate Abandoned(s: State, id: Key) {
    id.Plain? && Unanswered(s.table, id) && Quiet(s.workers, id)
  }

  ghost predicate Unanswered(t: Table, id: Key) {
    InboundStored(t, id) && !ReplyTaken(t, id)
  }

  ghost predicate Quiet(workers: map<nat, Worker>, id: Key) {
    forall w :: w in workers && workers[w].key == id ==> workers[w].pc.Start? || workers[w].pc.Ended?
  }

  lemma QuietMove(workers: map<nat, Worker>, w: nat, me: Worker, id: Key)
    requires Quiet(workers, id) && (me.key == id ==> me.pc.Start? || me.pc.Ended?)
    ensures Quiet(workers[w := me], id)
  {
  }

  lemma QuietDrop(workers: map<nat, Worker>, w: nat, id: Key)
    requires Quiet(workers, id)
    ensures Quiet(workers - {w}, id)
  {
  }

  /** A claim whose id is stored is refused, so a quiet worker at the start only ever ends. */
  lemma QuietAtClaim(s: State, id: Key, w: nat)
    requires AllShaped(s.delivered, s.workers) && Quiet(s.workers, id) && WaTaken(s.table, id) && id.Plain?
    ensures Quiet(DoInsertClaim(s, w).workers, id)
  {
  }

  lemma UnansweredAtCommit(s: State, id: Key, w: nat)
    requires Valid(s.table) && Unanswered(s.table, id) && Quiet(s.workers, id)
    ensures Unanswered(DoCommitClaim(s, w).table, id) && Quiet(DoCommitClaim(s, w).workers, id)
  {
    if At(s, w, ClaimInserted) {
      ClaimIsExclusive(s.table, s.workers[w].conversation, s.workers[w].delivery, 0);
      QuietMove(s.workers, w, s.workers[w].(pc := Routing), id);
    }
  }

  lemma UnansweredAtReserve(s: State, id: Key, w: nat)
    requires Valid(s.table) && Unanswered(s.table, id) && Quiet(s.workers, id)
    ensures Unanswered(DoCommitReservation(s, w).table, id) && Quiet(DoCommitReservation(s, w).workers, id)
  {
    if w in s.workers && s.workers[w].pc.ReserveInserted? {
      var me := s.workers[w];
      ReserveIsExclusive(s.table, me.pc.conversation, me.key, me.pc.body, 0, me.pc.body);
      QuietMove(s.workers, w, me.(pc := Holding(s.table.next)), id);
    }
  }

  lemma UnansweredAtConfirm(s: State, id: Key, w: nat)
    requires Valid(s.table) && AllInHand(s.table, s.removedReserves, s.workers)
    requires Unanswered(s.table, id) && Quiet(s.workers, id)
    ensures Unanswered(DoAcknowledge(s, w).table, id) && Quiet(DoAcknowledge(s, w).workers, id)
  {
    hide Valid, Confirm, ConfirmConflicts, WaTaken, ReplyTaken, InboundStored;
    if w in s.workers && s.workers[w].pc.Returned? {
      var me := s.workers[w];
      assert InHand(s.table, s.removedReserves, me);
      ConfirmKeepsKeys(s.table, me.pc.row, if me.pc.ok then me.pc.out else None, if me.pc.ok then Sent else Unconfirmed);
      QuietMove(s.workers, w, me.(pc := Ended), id);
      QuietDrop(s.workers, w, id);
    }
  }

  lemma QuietAtRoute(s: State, id: Key, w: nat, choice: Choice)
    requires Quiet(s.workers, id)
    ensures Quiet(DoRoute(s, w, choice).workers, id)
  {
  }

  lemma QuietAtReserve(s: State, id: Key, w: nat, conversation: nat, body: Body)
    requires Quiet(s.workers, id)
    ensures Quiet(DoInsertReservation(s, w, conversation, body).workers, id)
  {
  }

  /** A reservation key never equals a delivery id without the prefix. */
  lemma QuietAtFinish(s: State, id: Key, w: nat, invite: bool)
    requires Quiet(s.workers, id) && id.Plain?
    ensures Quiet(DoFinish(s, w, invite).workers, id)
  {
  }

  lemma QuietAtCall(s: State, id: Key, w: nat, out: Option<Key>, ok: bool)
    requires Quiet(s.workers, id)
    ensures Quiet(DoCall(s, w, out, ok).workers, id) && DoCall(s, w, out, ok).sends[id] == s.sends[id]
  {
  }

  lemma QuietElsewhere(s: State, id: Key, w: nat, stored: bool, delivery: Key, conversation: nat, comment: bool)
    requires Quiet(s.workers, id)
    ensures Quiet(DoComplete(s, w, stored).workers, id) && Quiet(DoDeliver(s, w, delivery, conversation, comment).workers, id)
    ensures Quiet(Drop(s, w).workers, id)
  {
  }

  ghost predicate TouchesTable(step: Step) {
    step.CommitClaim? || step.CommitReservation? || step.Acknowledge? || step.Unprompted? || step.Delete?
  }

  /** Only five kinds of step write the table, and only Call calls the sender. */
  lemma FrameOf(s: State, step: Step)
    requires !TouchesTable(step)
    ensures Apply(s, step).table == s.table && (step.Call? || Apply(s, step).sends == s.sends)
  {
  }

  lemma AbandonedWorkerStep(s: State, id: Key, step: Step)
    requires AllShaped(s.delivered, s.workers) && Abandoned(s, id) && !TouchesTable(step)
    ensures Abandoned(Apply(s, step), id) && Apply(s, step).sends[id] == s.sends[id]
  {
    hide AllShaped, Quiet, ReplyTaken, DoInsertClaim, DoRoute, DoInsertReservation, DoFinish;
    FrameOf(s, step);
    match step
    case Deliver(w, delivery, conversation, comment) => QuietElsewhere(s, id, w, false, delivery, conversation, comment);
    case InsertClaim(w) => assert WaTaken(s.table, id); QuietAtClaim(s, id, w);
    case Route(w, choice) => QuietAtRoute(s, id, w, choice);
    case Complete(w, stored) => QuietElsewhere(s, id, w, stored, id, 0, false);
    case InsertReservation(w, conversation, body) => QuietAtReserve(s, id, w, conversation, body);
    case Call(w, out, ok) => QuietAtCall(s, id, w, out, ok);
    case Finish(w, invite) => QuietAtFinish(s, id, w, invite);
    case Crash(w) => QuietDrop(s.workers, w, id);
    case Expire(_) =>
  }

  lemma AbandonedTableStep(s: State, id: Key, step: Step)
    requires Valid(s.table) && AllInHand(s.table, s.removedReserves, s.workers)
    requires Abandoned(s, id) && TouchesTable(step) && !step.Delete?
    ensures Abandoned(Apply(s, step), id) && Apply(s, step).sends[id] == s.sends[id]
  {
    hide Unanswered, Quiet, Valid, AllInHand;
    match step
    case CommitClaim(w) => UnansweredAtCommit(s, id, w);
    case CommitReservation(w) => UnansweredAtReserve(s, id, w);
    case Acknowledge(w) => UnansweredAtConfirm(s, id, w);
    case Unprompted(conversation, goodbye, wa) => UnansweredAtWriting(s.table, id, conversation, goodbye, wa);
  }

  lemma UnansweredAtWriting(t: Table, id: Key, conversation: nat, goodbye: bool, wa: Option<Key>)
    requires Valid(t) && Unanswered(t, id)
    ensures Unanswered(Messages.Unprompted(t, conversation, goodbye, wa), id)
  {
    hide Valid, WaTaken, ReplyTaken, InboundStored;
    UnpromptedKeepsKeys(t, conversation, goodbye, wa);
  }

  /**
   The trade the design makes, over every continuation: once a claimed message
   has lost its worker before the reservation, no redelivery ever answers it.
   */
  lemma {:induction false} AbandonedForever(s: State, id: Key, steps: seq<Step>)
    requires Inv(s) && Abandoned(s, id) && DeleteFree(steps)
    ensures Inv(Run(s, steps)) && Abandoned(Run(s, steps), id) && Run(s, steps).sends[id] == s.sends[id]
  {
    if steps != [] {
      var before := steps[..|steps| - 1];
      AbandonedForever(s, id, before);
      assert !steps[|steps| - 1].Delete?;
      StepKeeps(Run(s, before), steps[|steps| - 1]);
      if TouchesTable(steps[|steps| - 1]) {
        AbandonedTableStep(Run(s, before), id, steps[|steps| - 1]);
      } else {
        AbandonedWorkerStep(Run(s, before), id, steps[|steps| - 1]);
      }
    }
  }
}
