/**
 The two views of a handler agree: what ChatFlow does to the messages table, the
 sender, the model and the cache in one go is a run of one worker of the reply
 protocol, so what holds of every run holds of every sequence of handlers.
 */
module HandlerRuns {
  import opened Common
  import F = ChatFlow
  import G = ChatGuarantees
  import L = SessionLifecycle
  import C = Conversations
  import opened Messages
  import opened ReplyProtocol
  import R = ReplyGuarantees

  /** What both views can see. */
  datatype Seen = Seen(table: Table, cache: set<Key>, sends: multiset<Key>, completions: multiset<Key>)

  function View(s: State): Seen {
    Seen(s.table, s.cache, s.sends, s.completions)
  }

  /** Nobody is at work. */
  ghost predicate Idle(s: State) {
    s.workers == map[] && s.claimLocks == map[] && s.reserveLocks == map[]
  }

  /** Only worker 0 is, and it is between transactions. */
  ghost predicate Solo(s: State, me: Worker) {
    s.workers == map[0 := me] && s.claimLocks == map[] && s.reserveLocks == map[]
  }

  function Arrived(c: nat, id: Key, pc: Pc): Worker {
    Worker(id, c, false, false, Answering, id, pc)
  }

  // ---- the worker's script, part by part -----------------------------------------------

  lemma SoloDeliver(s: State, c: nat, id: Key)
    requires Idle(s)
    ensures var s' := DoDeliver(s, 0, id, c, false); Solo(s', Arrived(c, id, Start)) && View(s') == View(s)
  {
  }

  lemma SoloClaim(s: State, c: nat, id: Key)
    requires Solo(s, Arrived(c, id, Start)) && !WaTaken(s.table, id)
    ensures var s' := DoCommitClaim(DoInsertClaim(s, 0), 0);
      Solo(s', Arrived(c, id, Routing)) && View(s') == View(s).(table := Claim(s.table, c, id).0)
  {
    hide WaTaken;
    assert (map[id := 0]) - {id} == map[];
  }

  lemma SoloDuplicate(s: State, c: nat, id: Key)
    requires Solo(s, Arrived(c, id, Start)) && WaTaken(s.table, id)
    ensures var s' := DoInsertClaim(s, 0); Solo(s', Arrived(c, id, Ended)) && View(s') == View(s)
  {
  }

  lemma SoloFinish(s: State, me: Worker)
    requires Solo(s, me) && me.pc.Ended?
    ensures Idle(DoFinish(s, 0, false)) && View(DoFinish(s, 0, false)) == View(s)
  {
  }

  /** The transcript and the result of the send, as the worker's last steps leave them. */
  function Cleared(cache: set<Key>, me: Worker, r: F.SendResult): set<Key> {
    if r == F.Delivered && me.generated then cache - {me.delivery} else cache
  }

  lemma SoloReserve(s: State, me: Worker, body: Body)
    requires Solo(s, me) && me.pc.Ready? && me.phase == Answering && me.key == me.delivery && !body.Invitation?
    requires !ReplyTaken(s.table, me.key)
    ensures var s' := DoCommitReservation(DoInsertReservation(s, 0, me.conversation, body), 0);
      && Solo(s', me.(pc := Holding(s.table.next)))
      && View(s') == View(s).(table := Reserve(s.table, me.conversation, me.key, body).0)
  {
    hide ReplyTaken;
    assert (map[me.key := 0]) - {me.key} == map[];
  }

  lemma SoloSend(s: State, me: Worker, row: nat, o: F.Outside)
    requires Solo(s, me) && me.pc == Holding(row) && me.phase == Answering && me.key == me.delivery
    ensures var s' := DoFinish(DoAcknowledge(DoCall(s, 0, o.out, o.accepted), 0), 0, false);
      var out := if o.accepted then o.out else None;
      var clash := ConfirmConflicts(s.table, row, out);
      && Idle(s')
      && View(s') == Seen(
           if clash then s.table else Confirm(s.table, row, out, if o.accepted then Sent else Unconfirmed),
           if o.accepted && !clash && me.generated then s.cache - {me.delivery} else s.cache,
           s.sends + multiset{me.key}, s.completions)
  {
    hide ConfirmConflicts, Confirm;
  }

  lemma SoloRefused(s: State, me: Worker, body: Body)
    requires Solo(s, me) && me.pc.Ready? && me.phase == Answering && !body.Invitation? && ReplyTaken(s.table, me.key)
    ensures var s' := DoInsertReservation(s, 0, me.conversation, body); Solo(s', me.(pc := Ended)) && View(s') == View(s)
  {
    hide ReplyTaken;
  }

  function Sending(c: nat, body: Body, o: F.Outside): seq<Step> {
    [InsertReservation(0, c, body), CommitReservation(0), Call(0, o.out, o.accepted), Acknowledge(0), Finish(0, false)]
  }

  lemma RunFive(s: State, a: Step, b: Step, c: Step, d: Step, e: Step)
    ensures Run(s, [a, b, c, d, e]) == Apply(Apply(Apply(Apply(Apply(s, a), b), c), d), e)
  {
    hide Apply;
    assert [a, b, c, d, e] == [a, b, c] + [d] + [e];
    R.RunThree(s, a, b, c);
    R.RunSnoc(s, [a, b, c], d);
    R.RunSnoc(s, [a, b, c] + [d], e);
  }

  lemma SendingRefused(s: State, me: Worker, body: Body, o: F.Outside)
    requires Solo(s, me) && me.pc.Ready? && me.phase == Answering && !body.Invitation? && ReplyTaken(s.table, me.key)
    ensures var s' := Run(s, Sending(me.conversation, body, o)); Idle(s') && View(s') == View(s)
  {
    hide Run, DoInsertReservation, DoCommitReservation, DoCall, DoAcknowledge, DoFinish, ReplyTaken, Solo, Idle;
    RunFive(s, InsertReservation(0, me.conversation, body), CommitReservation(0), Call(0, o.out, o.accepted), Acknowledge(0), Finish(0, false));
    SoloRefused(s, me, body);
    var s1 := DoInsertReservation(s, 0, me.conversation, body);
    SoloSkips(s1, me.(pc := Ended), o);
    SoloFinish(s1, me.(pc := Ended));
  }

  lemma SendingAccepted(s: State, me: Worker, body: Body, o: F.Outside)
    requires Solo(s, me) && me.pc.Ready? && me.phase == Answering && me.key == me.delivery && !body.Invitation?
    requires !ReplyTaken(s.table, me.key)
    ensures var s' := Run(s, Sending(me.conversation, body, o));
      var (t, r) := F.Reply(s.table, me.conversation, me.delivery, body, o);
      Idle(s') && View(s') == Seen(t, Cleared(s.cache, me, r), s.sends + multiset{me.delivery}, s.completions)
  {
    hide Run, DoInsertReservation, DoCommitReservation, DoCall, DoAcknowledge, DoFinish, ReplyTaken, ConfirmConflicts,
         Confirm, Solo, Idle;
    RunFive(s, InsertReservation(0, me.conversation, body), CommitReservation(0), Call(0, o.out, o.accepted), Acknowledge(0), Finish(0, false));
    SoloReserve(s, me, body);
    var held := DoCommitReservation(DoInsertReservation(s, 0, me.conversation, body), 0);
    SoloSend(held, me.(pc := Holding(s.table.next)), s.table.next, o);
    NoConflictWithoutId(held.table, s.table.next);
  }

  /** The worker's last steps leave exactly what Reply says. */
  lemma SendingIsReply(s: State, me: Worker, body: Body, o: F.Outside)
    requires Solo(s, me) && me.pc.Ready? && me.phase == Answering && me.key == me.delivery && !body.Invitation?
    ensures var s' := Run(s, Sending(me.conversation, body, o));
      var (t, r) := F.Reply(s.table, me.conversation, me.delivery, body, o);
      && Idle(s')
      && View(s') == Seen(t, Cleared(s.cache, me, r), if r == F.Refused then s.sends else s.sends + multiset{me.delivery},
                          s.completions)
  {
    hide Run, Sending, Solo, Idle, Confirm, ConfirmConflicts;
    if ReplyTaken(s.table, me.key) {
      SendingRefused(s, me, body, o);
    } else {
      SendingAccepted(s, me, body, o);
    }
  }

  lemma SoloSkips(s: State, me: Worker, o: F.Outside)
    requires Solo(s, me) && me.pc.Ended?
    ensures DoAcknowledge(DoCall(DoCommitReservation(s, 0), 0, o.out, o.accepted), 0) == s
  {
  }

  lemma NoConflictWithoutId(t: Table, row: nat)
    ensures !ConfirmConflicts(t, row, None)
  {
  }

  // ---- a whole handler ----------------------------------------------------------------------

  /** From the committed claim on. */
  function Deciding(c: nat, id: Key, plan: F.Plan, cache: set<Key>, o: F.Outside): seq<Step> {
    if F.BodyFor(plan).None? then [Route(0, LeaveForHuman), Finish(0, false)]
    else if !plan.Generate? then [Route(0, SendFixed)] + Sending(c, F.BodyFor(plan).value, o)
    else if id != EMPTY && id in cache then [Route(0, AskModel)] + Sending(c, F.BodyFor(plan).value, o)
    else [Route(0, AskModel), Complete(0, o.generated && o.cached)] + Sending(c, F.BodyFor(plan).value, o)
  }

  function Handling(c: nat, id: Key, taken: bool, plan: F.Plan, cache: set<Key>, o: F.Outside): seq<Step> {
    if taken then [Deliver(0, id, c, false), InsertClaim(0), CommitClaim(0)] + Deciding(c, id, plan, cache, o)
    else [Deliver(0, id, c, false), InsertClaim(0), Finish(0, false)]
  }

  /** What a plan leaves, in the terms both views share. */
  function Left(t: Table, cache: set<Key>, sends: multiset<Key>, completions: multiset<Key>, c: nat, id: Key, plan: F.Plan, o: F.Outside): Seen {
    if F.BodyFor(plan).None? then Seen(t, cache, sends, completions)
    else
      var called := plan.Generate? && (id == EMPTY || id !in cache);
      var cache' := if called && o.generated && o.cached && id != EMPTY then cache + {id} else cache;
      var (t', r) := F.Reply(t, c, id, F.BodyFor(plan).value, o);
      Seen(t', if r == F.Delivered && plan.Generate? then cache' - {id} else cache',
           if r == F.Refused then sends else sends + multiset{id},
           if called then completions + multiset{id} else completions)
  }

  lemma RunOne(s: State, a: Step)
    ensures Run(s, [a]) == Apply(s, a)
  {
    R.RunSnoc(s, [], a);
    assert [] + [a] == [a];
  }

  lemma RunTwo(s: State, a: Step, b: Step)
    ensures Run(s, [a, b]) == Apply(Apply(s, a), b)
  {
    hide Apply;
    RunOne(s, a);
    R.RunSnoc(s, [a], b);
    assert [a] + [b] == [a, b];
  }

  lemma RouteLeaves(s: State, c: nat, id: Key)
    requires Solo(s, Arrived(c, id, Routing))
    ensures var s' := DoFinish(DoRoute(s, 0, LeaveForHuman), 0, false); Idle(s') && View(s') == View(s)
  {
  }

  lemma RouteFixed(s: State, c: nat, id: Key)
    requires Solo(s, Arrived(c, id, Routing))
    ensures var s' := DoRoute(s, 0, SendFixed); Solo(s', Arrived(c, id, Ready)) && View(s') == View(s)
  {
  }

  lemma RouteHit(s: State, c: nat, id: Key)
    requires Solo(s, Arrived(c, id, Routing)) && id != EMPTY && id in s.cache
    ensures var s' := DoRoute(s, 0, AskModel); Solo(s', Arrived(c, id, Ready).(generated := true)) && View(s') == View(s)
  {
  }

  lemma RouteMiss(s: State, c: nat, id: Key, stored: bool)
    requires Solo(s, Arrived(c, id, Routing)) && (id == EMPTY || id !in s.cache)
    ensures var s' := DoComplete(DoRoute(s, 0, AskModel), 0, stored);
      && Solo(s', Arrived(c, id, Ready).(generated := true))
      && View(s') == View(s).(cache := if stored && id != EMPTY then s.cache + {id} else s.cache,
                              completions := s.completions + multiset{id})
  {
  }

  lemma FixedRuns(s: State, c: nat, id: Key, plan: F.Plan, o: F.Outside)
    requires Solo(s, Arrived(c, id, Routing)) && F.BodyFor(plan).Some? && !plan.Generate?
    ensures var s' := Run(s, Deciding(c, id, plan, s.cache, o));
      Idle(s') && View(s') == Left(s.table, s.cache, s.sends, s.completions, c, id, plan, o)
  {
    hide Run, Solo, Idle, Sending, DoRoute, DoComplete, F.Reply;
    var body := F.BodyFor(plan).value;
    RouteFixed(s, c, id);
    RunOne(s, Route(0, SendFixed));
    R.RunConcat(s, [Route(0, SendFixed)], Sending(c, body, o));
    SendingIsReply(DoRoute(s, 0, SendFixed), Arrived(c, id, Ready), body, o);
  }

  lemma HitRuns(s: State, c: nat, id: Key, plan: F.Plan, o: F.Outside)
    requires Solo(s, Arrived(c, id, Routing)) && F.BodyFor(plan).Some? && plan.Generate? && id != EMPTY && id in s.cache
    ensures var s' := Run(s, Deciding(c, id, plan, s.cache, o));
      Idle(s') && View(s') == Left(s.table, s.cache, s.sends, s.completions, c, id, plan, o)
  {
    hide Run, Solo, Idle, Sending, DoRoute, DoComplete, F.Reply;
    var body := F.BodyFor(plan).value;
    RouteHit(s, c, id);
    RunOne(s, Route(0, AskModel));
    R.RunConcat(s, [Route(0, AskModel)], Sending(c, body, o));
    SendingIsReply(DoRoute(s, 0, AskModel), Arrived(c, id, Ready).(generated := true), body, o);
  }

  lemma MissLeft(s: State, c: nat, id: Key, plan: F.Plan, o: F.Outside)
    requires F.BodyFor(plan).Some? && plan.Generate? && (id == EMPTY || id !in s.cache)
    ensures var (t, r) := F.Reply(s.table, c, id, F.BodyFor(plan).value, o);
      var cache := if o.generated && o.cached && id != EMPTY then s.cache + {id} else s.cache;
      Left(s.table, s.cache, s.sends, s.completions, c, id, plan, o) ==
        Seen(t, Cleared(cache, Arrived(c, id, Ready).(generated := true), r),
             if r == F.Refused then s.sends else s.sends + multiset{id}, s.completions + multiset{id})
  {
    hide F.Reply;
  }

  lemma AskedAndCompleted(s: State, c: nat, id: Key, stored: bool)
    requires Solo(s, Arrived(c, id, Routing)) && (id == EMPTY || id !in s.cache)
    ensures var s' := Run(s, [Route(0, AskModel), Complete(0, stored)]);
      && Solo(s', Arrived(c, id, Ready).(generated := true))
      && View(s') == View(s).(cache := if stored && id != EMPTY then s.cache + {id} else s.cache,
                              completions := s.completions + multiset{id})
  {
    hide Run, Solo, DoRoute, DoComplete;
    RunTwo(s, Route(0, AskModel), Complete(0, stored));
    RouteMiss(s, c, id, stored);
  }

  lemma MissRuns(s: State, c: nat, id: Key, plan: F.Plan, o: F.Outside)
    requires Solo(s, Arrived(c, id, Routing)) && F.BodyFor(plan).Some? && plan.Generate? && (id == EMPTY || id !in s.cache)
    ensures var s' := Run(s, Deciding(c, id, plan, s.cache, o));
      Idle(s') && View(s') == Left(s.table, s.cache, s.sends, s.completions, c, id, plan, o)
  {
    hide Run, Solo, Idle, Sending, Apply, F.Reply, Left, Cleared;
    var body, stored := F.BodyFor(plan).value, o.generated && o.cached;
    MissLeft(s, c, id, plan, o);
    AskedAndCompleted(s, c, id, stored);
    R.RunConcat(s, [Route(0, AskModel), Complete(0, stored)], Sending(c, body, o));
    SendingIsReply(Run(s, [Route(0, AskModel), Complete(0, stored)]), Arrived(c, id, Ready).(generated := true), body, o);
  }

  lemma DecidingRuns(s: State, c: nat, id: Key, plan: F.Plan, o: F.Outside)
    requires Solo(s, Arrived(c, id, Routing))
    ensures var s' := Run(s, Deciding(c, id, plan, s.cache, o));
      Idle(s') && View(s') == Left(s.table, s.cache, s.sends, s.completions, c, id, plan, o)
  {
    hide Run, Solo, Idle, Sending, DoRoute, DoFinish, F.Reply;
    if F.BodyFor(plan).None? {
      RunTwo(s, Route(0, LeaveForHuman), Finish(0, false));
      RouteLeaves(s, c, id);
    } else if !plan.Generate? {
      FixedRuns(s, c, id, plan, o);
    } else if id != EMPTY && id in s.cache {
      HitRuns(s, c, id, plan, o);
    } else {
      MissRuns(s, c, id, plan, o);
    }
  }

  lemma HandlingRuns(s: State, c: nat, id: Key, plan: F.Plan, o: F.Outside)
    requires Idle(s)
    ensures var taken := !WaTaken(s.table, id);
      var s' := Run(s, Handling(c, id, taken, plan, s.cache, o));
      Idle(s') && View(s') == if taken then Left(Claim(s.table, c, id).0, s.cache, s.sends, s.completions, c, id, plan, o) else View(s)
  {
    hide Run, Solo, Idle, Deciding, Left, DoDeliver, DoInsertClaim, DoCommitClaim, DoFinish, WaTaken;
    SoloDeliver(s, c, id);
    var s1 := DoDeliver(s, 0, id, c, false);
    if WaTaken(s.table, id) {
      R.RunThree(s, Deliver(0, id, c, false), InsertClaim(0), Finish(0, false));
      SoloDuplicate(s1, c, id);
      SoloFinish(DoInsertClaim(s1, 0), Arrived(c, id, Ended));
    } else {
      R.RunThree(s, Deliver(0, id, c, false), InsertClaim(0), CommitClaim(0));
      SoloClaim(s1, c, id);
      var s2 := DoCommitClaim(DoInsertClaim(s1, 0), 0);
      R.RunConcat(s, [Deliver(0, id, c, false), InsertClaim(0), CommitClaim(0)], Deciding(c, id, plan, s.cache, o));
      DecidingRuns(s2, c, id, plan, o);
    }
  }

  // ---- sequences of handlers ---------------------------------------------------------------

  function SentIds(sent: seq<F.Sent>): multiset<Key> {
    if sent == [] then multiset{} else SentIds(sent[..|sent| - 1]) + multiset{sent[|sent| - 1].id}
  }

  function CompletedIds(completed: seq<F.Completed>): multiset<Key> {
    if completed == [] then multiset{} else CompletedIds(completed[..|completed| - 1]) + multiset{completed[|completed| - 1].id}
  }

  function Outline(w: F.World): Seen {
    Seen(w.messages, w.cache, SentIds(w.sent), CompletedIds(w.completed))
  }

  /** The protocol, at rest, has seen what the world has. */
  ghost predicate Mirrors(s: State, w: F.World) {
    Idle(s) && View(s) == Outline(w)
  }

  lemma OneMore(sent: seq<F.Sent>, x: F.Sent, completed: seq<F.Completed>, y: F.Completed)
    ensures SentIds(sent + [x]) == SentIds(sent) + multiset{x.id}
    ensures CompletedIds(completed + [y]) == CompletedIds(completed) + multiset{y.id}
  {
    assert (sent + [x])[..|sent|] == sent && (completed + [y])[..|completed|] == completed;
  }

  lemma PerformCache(w: F.World, st: F.Settings, c: nat, e: F.Inbound, plan: F.Plan, o: F.Outside, now: C.Time)
    ensures F.Perform(w, st, c, e, plan, o, now).cache
         == Left(w.messages, w.cache, multiset{}, multiset{}, c, e.id, plan, o).cache
  {
    hide L.Apply, F.Reply;
  }

  lemma PerformLeaves(w: F.World, st: F.Settings, c: nat, e: F.Inbound, plan: F.Plan, o: F.Outside, now: C.Time)
    ensures Outline(F.Perform(w, st, c, e, plan, o, now))
         == Left(w.messages, w.cache, SentIds(w.sent), CompletedIds(w.completed), c, e.id, plan, o)
  {
    F.PerformOutside(w, st, c, e, plan, o, now);
    PerformCache(w, st, c, e, plan, o, now);
    hide F.Perform, F.Reply, SentIds, CompletedIds;
    if F.BodyFor(plan).Some? {
      OneMore(w.sent, F.SentTo(e.user, e.id, F.BodyFor(plan).value), w.completed, F.CompletedFor(e.user, e.id));
    }
  }

  /** The steps one worker takes for this message. */
  ghost function StepsFor(w: F.World, st: F.Settings, e: F.Inbound, resumed: Option<nat>, o: F.Outside, now: C.Time): seq<Step>
    requires F.Inv(w)
  {
    F.TakeTakes(w, st, e, resumed, now);
    var (taken, row) := F.Take(w, st, e, resumed, now);
    if row.None? then Handling(0, e.id, false, F.Leave, w.cache, o)
    else
      var mode := taken.sessions.table.rows[row.value].mode;
      var plan := F.PlanFor(e, mode, F.ShouldWelcome(st, taken.sessions.table, row.value));
      Handling(row.value, e.id, true, plan, w.cache, o)
  }

  lemma HandlerIsARun(s: State, w: F.World, st: F.Settings, e: F.Inbound, resumed: Option<nat>, o: F.Outside, now: C.Time)
    requires F.Inv(w) && Mirrors(s, w)
    ensures Mirrors(Run(s, StepsFor(w, st, e, resumed, o, now)), F.Handle(w, st, e, resumed, o, now))
  {
    hide Run, Idle, Handling, Left, F.Take, F.Perform, F.PlanFor, F.ShouldWelcome, WaTaken, SentIds, CompletedIds,
         L.Inv, Valid;
    F.TakeTakes(w, st, e, resumed, now);
    var (taken, row) := F.Take(w, st, e, resumed, now);
    if row.None? {
      HandlingRuns(s, 0, e.id, F.Leave, o);
    } else {
      var c := row.value;
      var plan := F.PlanFor(e, taken.sessions.table.rows[c].mode, F.ShouldWelcome(st, taken.sessions.table, c));
      HandlingRuns(s, c, e.id, plan, o);
      PerformLeaves(taken, st, c, e, plan, o, now);
    }
  }

  function StepsElsewhere(step: L.Step): seq<Step> {
    if step.Remove? then [Delete(step.id)] else []
  }

  lemma ElsewhereIsARun(s: State, w: F.World, step: L.Step)
    requires Mirrors(s, w)
    ensures Mirrors(Run(s, StepsElsewhere(step)), G.Happen(w, step))
  {
    hide L.Apply;
    if step.Remove? {
      RunOne(s, Delete(step.id));
    }
  }

  function StepsWriting(w: F.World, c: nat, goodbye: bool, wa: Option<Key>): seq<Step> {
    if c in w.sessions.table.rows then [Unprompted(c, goodbye, wa)] else []
  }

  lemma WritingIsARun(s: State, w: F.World, c: nat, goodbye: bool, wa: Option<Key>)
    requires Mirrors(s, w)
    ensures Mirrors(Run(s, StepsWriting(w, c, goodbye, wa)), G.Write(w, c, goodbye, wa))
  {
    hide Messages.Unprompted;
    if c in w.sessions.table.rows {
      RunOne(s, Unprompted(c, goodbye, wa));
    }
  }

  ghost function StepsOf(w: F.World, st: F.Settings, a: G.Action): seq<Step>
    requires F.Inv(w)
  {
    match a
    case Receive(e, resumed, o, now) => StepsFor(w, st, e, resumed, o, now)
    case Elsewhere(step) => StepsElsewhere(step)
    case Writes(c, goodbye, wa) => StepsWriting(w, c, goodbye, wa)
  }

  lemma ActionIsARun(s: State, w: F.World, st: F.Settings, a: G.Action)
    requires F.Inv(w) && Mirrors(s, w)
    ensures Mirrors(Run(s, StepsOf(w, st, a)), G.Act(w, st, a))
  {
    hide Run, Mirrors, F.Inv, G.Happen, G.Write, F.Handle, StepsFor, StepsElsewhere, StepsWriting;
    match a
    case Receive(e, resumed, o, now) => HandlerIsARun(s, w, st, e, resumed, o, now);
    case Elsewhere(step) => ElsewhereIsARun(s, w, step);
    case Writes(c, goodbye, wa) => WritingIsARun(s, w, c, goodbye, wa);
  }

  ghost function Script(st: F.Settings, actions: seq<G.Action>): seq<Step> {
    NothingYet();
    if actions == [] then []
    else
      var before := actions[..|actions| - 1];
      Script(st, before) + StepsOf(G.Run(G.Empty(), st, before), st, actions[|actions| - 1])
  }

  lemma NothingYet()
    ensures F.Inv(G.Empty()) && Mirrors(Init(), G.Empty())
  {
  }

  /** Any sequence of handlers and lifecycle steps is, on messages, sends, completions and cache, a run of the protocol. */
  lemma {:induction false} SequencesAreRuns(st: F.Settings, actions: seq<G.Action>)
    ensures F.Inv(G.Empty()) && Mirrors(Run(Init(), Script(st, actions)), G.Run(G.Empty(), st, actions))
  {
    NothingYet();
    if actions != [] {
      hide Run, Mirrors, F.Inv, G.Act, StepsOf;
      var before, last := actions[..|actions| - 1], actions[|actions| - 1];
      SequencesAreRuns(st, before);
      var s, w := Run(Init(), Script(st, before)), G.Run(G.Empty(), st, before);
      ActionIsARun(s, w, st, last);
      R.RunConcat(Init(), Script(st, before), StepsOf(w, st, last));
    }
  }

  ghost predicate NothingDeleted(actions: seq<G.Action>) {
    forall k :: 0 <= k < |actions| ==> !(actions[k].Elsewhere? && actions[k].step.Remove?)
  }

  lemma HandlingDeletesNothing(c: nat, id: Key, taken: bool, plan: F.Plan, cache: set<Key>, o: F.Outside)
    ensures DeleteFree(Handling(c, id, taken, plan, cache, o))
  {
  }

  lemma ActionDeletesNothing(w: F.World, st: F.Settings, a: G.Action)
    requires F.Inv(w) && !(a.Elsewhere? && a.step.Remove?)
    ensures DeleteFree(StepsOf(w, st, a))
  {
    hide L.Inv, Valid, F.PlanFor, F.ShouldWelcome, Handling;
    if a.Receive? {
      F.TakeTakes(w, st, a.e, a.resumed, a.now);
      var (taken, row) := F.Take(w, st, a.e, a.resumed, a.now);
      hide F.Take;
      if row.None? {
        HandlingDeletesNothing(0, a.e.id, false, F.Leave, w.cache, a.o);
      } else {
        var mode := taken.sessions.table.rows[row.value].mode;
        var plan := F.PlanFor(a.e, mode, F.ShouldWelcome(st, taken.sessions.table, row.value));
        HandlingDeletesNothing(row.value, a.e.id, true, plan, w.cache, a.o);
      }
    }
  }

  lemma {:induction false} ScriptDeletesNothing(st: F.Settings, actions: seq<G.Action>)
    requires NothingDeleted(actions)
    ensures DeleteFree(Script(st, actions))
  {
    NothingYet();
    if actions != [] {
      hide Mirrors, F.Inv, StepsOf, G.Act;
      var before := actions[..|actions| - 1];
      ScriptDeletesNothing(st, before);
      ActionDeletesNothing(G.Run(G.Empty(), st, before), st, actions[|actions| - 1]);
    }
  }

  /** So over any sequence without deletes the handlers answer each message at most once, and pay for it at most once. */
  lemma HandlersAnswerOnce(st: F.Settings, actions: seq<G.Action>, id: Key)
    requires NothingDeleted(actions)
    ensures F.Inv(G.Empty())
    ensures var w := G.Run(G.Empty(), st, actions); SentIds(w.sent)[id] <= 1 && CompletedIds(w.completed)[id] <= 1
  {
    hide Run, SentIds, CompletedIds, F.Inv, G.Run, Script;
    SequencesAreRuns(st, actions);
    ScriptDeletesNothing(st, actions);
    R.AtMostOneSend(Script(st, actions), id);
    R.AtMostOneCompletion(Script(st, actions), id);
  }
}
