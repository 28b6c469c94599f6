/**
 What one handler decides, in the terms of the message it was given: when a person is
 called, when the model is, what is said and to whom the welcome is owed
 (app/services/chat_service.py, app/services/session_service.py).
 */
module HandlerDecisions {
  import opened Common
  import opened ChatFlow
  import M = Messages
  import C = Conversations
  import L = SessionLifecycle

  /** A welcome is owed to a session that has none, unless duplicates are welcome, and to a first visit, unless every one is greeted. */
  lemma WelcomeOwedIff(st: Settings, t: C.Table, c: nat)
    requires c in t.rows
    ensures ShouldWelcome(st, t, c) <==>
      && st.sessionEnabled && st.welcomeOnNew
      && (st.preventDuplicateWelcome ==> t.rows[c].welcomeSentAt.None?)
      && (st.repeatWelcome || FirstVisit(t, c))
  {
    var mine := RowsOf(t, t.rows[c].userId);
    assert c in mine;
    if FirstVisit(t, c) {
      assert mine == {c};
    } else {
      var other :| other in t.rows && t.rows[other].userId == t.rows[c].userId && other != c;
      assert {c, other} <= mine;
      TwoAtLeast(mine, c, other);
    }
  }

  /** The customer has no other conversation, open or closed. */
  predicate FirstVisit(t: C.Table, c: nat)
    requires c in t.rows
  {
    forall id :: id in t.rows && t.rows[id].userId == t.rows[c].userId ==> id == c
  }

  lemma TwoAtLeast(s: set<nat>, a: nat, b: nat)
    requires a in s && b in s && a != b
    ensures |s| >= 2
  {
    assert s == {a, b} + (s - {a, b});
  }

  // ---- the conditions, in the fields of the message ---------------------------------------------

  /** The customer asks for a person, in words or by haggling; an unsupported message has no words. */
  predicate CallsForPerson(e: Inbound) {
    !e.kind.UnsupportedMessage? && (e.negotiating || e.wantsHuman)
  }

  /** A menu entry that leads to a person. */
  predicate PicksPerson(e: Inbound) {
    e.kind.InteractiveMessage? && (e.kind.selection == SalesChoice || e.kind.selection == EmployeeChoice)
  }

  /** What the model would be asked: everything but fixed replies. */
  predicate ForModel(e: Inbound, owed: bool) {
    match e.kind
    case TextMessage(courtesy, unintelligible, greeting, scope) =>
      scope != OutOfScope && !(owed && !courtesy && (unintelligible || greeting))
    case InteractiveMessage(selection) => selection == OtherChoice
    case MediaMessage => true
    case UnsupportedMessage => false
  }

  /** The quota is asked for everything but an unsupported message. */
  predicate WithinLimits(e: Inbound) {
    e.kind.UnsupportedMessage? || e.quota == Allowed
  }

  // ---- what follows -------------------------------------------------------------------------------

  lemma Decided(e: Inbound, mode: C.Mode, owed: bool)
    ensures var plan := PlanFor(e, mode, owed);
      && (plan == Leave <==> mode == C.Human)
      && (plan.Handoff? <==> mode == C.Bot && (CallsForPerson(e) || (e.quota == Allowed && PicksPerson(e))))
      && (plan.Handoff? && CallsForPerson(e) ==> plan.tag == (if e.negotiating || e.salesLead then Some(C.SalesLead) else None))
      && (plan.Handoff? && !CallsForPerson(e) ==> plan.tag == (if e.kind.selection == SalesChoice then Some(C.SalesLead) else None))
      && (plan.Decline? <==> mode == C.Bot && !CallsForPerson(e) && !WithinLimits(e))
      && (plan.Decline? ==> (plan.notify <==> e.quota == RefusedWithNotice))
      && (plan.Generate? <==> mode == C.Bot && !CallsForPerson(e) && WithinLimits(e) && ForModel(e, owed))
      && (Carries(plan) <==> (plan.Fixed? || plan.Generate?) && owed && !(e.kind.TextMessage? && e.kind.courtesy))
  {
  }

  /** A taken message, the row it is in, and what its handler leaves. */
  lemma Handled(w: World, st: Settings, e: Inbound, resumed: Option<nat>, o: Outside, now: C.Time)
    requires Inv(w) && Take(w, st, e, resumed, now).1.Some?
    ensures var (taken, row) := Take(w, st, e, resumed, now);
      var w' := Handle(w, st, e, resumed, o, now);
      && row.value in taken.sessions.table.rows && row.value in w'.sessions.table.rows
      && taken.sent == w.sent && taken.completed == w.completed && taken.cache == w.cache
      && (forall key :: M.ReplyTaken(taken.messages, key) <==> M.ReplyTaken(w.messages, key))
      && var (a, b) := (taken.sessions.table.rows[row.value], w'.sessions.table.rows[row.value]);
      var plan := PlanFor(e, a.mode, ShouldWelcome(st, taken.sessions.table, row.value));
      && b.mode == (if plan.Handoff? then C.Human else a.mode)
      && b.tag == (if plan.Handoff? && plan.tag.Some? then plan.tag else a.tag)
      && (plan.Handoff? ==> b.handoffAt == Some(now) && b.operator.None?)
      && (st.sessionEnabled ==> b.lastActivityAt == now)
      && w'.sent == (if BodyFor(plan).None? || M.ReplyTaken(w.messages, e.id) then w.sent
                     else w.sent + [SentTo(e.user, e.id, BodyFor(plan).value)])
      && w'.completed == (if plan.Generate? && (e.id == M.EMPTY || e.id !in w.cache)
                          then w.completed + [CompletedFor(e.user, e.id)] else w.completed)
  {
    hide L.Inv, M.Valid, M.WaTaken, M.ReplyTaken, InKnownRows, Take, Perform, Reply, PlanFor, ShouldWelcome;
    TakeTakes(w, st, e, resumed, now);
    var (taken, row) := Take(w, st, e, resumed, now);
    var c := row.value;
    var plan := PlanFor(e, taken.sessions.table.rows[c].mode, ShouldWelcome(st, taken.sessions.table, c));
    TakenReplies(w.messages, c, e.id);
    PerformOutside(taken, st, c, e, plan, o, now);
    PerformSession(taken, st, c, e, plan, o, now);
    if BodyFor(plan).Some? {
      ReplyRecords(taken.messages, c, e.id, BodyFor(plan).value, o);
    }
  }

  lemma TakenReplies(t: M.Table, c: nat, id: M.Key)
    requires M.Valid(t)
    ensures forall key :: M.ReplyTaken(M.Insert(t, M.InboundRow(c, id)), key) <==> M.ReplyTaken(t, key)
  {
    var t' := M.Insert(t, M.InboundRow(c, id));
    assert forall r :: r in t.rows ==> r in t'.rows && t'.rows[r] == t.rows[r];
  }

  /**
   Whoever asks for a person, or haggles, gets one and never the model: the row is a human's,
   a lead is tagged as one, and at most the acknowledgement goes out.
   */
  lemma PersonIsCalled(w: World, st: Settings, e: Inbound, resumed: Option<nat>, o: Outside, now: C.Time)
    requires Inv(w) && Take(w, st, e, resumed, now).1.Some? && !e.kind.UnsupportedMessage? && (e.negotiating || e.wantsHuman)
    ensures var (taken, row) := Take(w, st, e, resumed, now);
      var w' := Handle(w, st, e, resumed, o, now);
      && w'.completed == w.completed
      && row.value in taken.sessions.table.rows && row.value in w'.sessions.table.rows
      && var (a, b) := (taken.sessions.table.rows[row.value], w'.sessions.table.rows[row.value]);
      && b.mode == C.Human
      && (a.mode == C.Bot ==>
            && b.tag == (if e.negotiating || e.salesLead then Some(C.SalesLead) else a.tag)
            && b.handoffAt == Some(now) && b.operator.None?
            && w'.sent == (if M.ReplyTaken(w.messages, e.id) then w.sent else w.sent + [SentTo(e.user, e.id, M.Acknowledgement)]))
  {
    hide Take, Handle, PlanFor, ShouldWelcome, M.ReplyTaken, Inv;
    Handled(w, st, e, resumed, o, now);
    var (taken, row) := Take(w, st, e, resumed, now);
    Decided(e, taken.sessions.table.rows[row.value].mode, ShouldWelcome(st, taken.sessions.table, row.value));
  }

  /** The model is called, and once, exactly for these messages. */
  lemma ModelIsCalledIff(w: World, st: Settings, e: Inbound, resumed: Option<nat>, o: Outside, now: C.Time)
    requires Inv(w) && Take(w, st, e, resumed, now).1.Some?
    ensures var (taken, row) := Take(w, st, e, resumed, now);
      var w' := Handle(w, st, e, resumed, o, now);
      row.value in taken.sessions.table.rows &&
      var c := taken.sessions.table.rows[row.value];
      var owed := st.sessionEnabled && st.welcomeOnNew && (st.preventDuplicateWelcome ==> c.welcomeSentAt.None?)
                  && (st.repeatWelcome || FirstVisit(taken.sessions.table, row.value));
      w'.completed ==
        if c.mode == C.Bot && !e.kind.UnsupportedMessage? && !e.negotiating && !e.wantsHuman && e.quota == Allowed
           && ForModel(e, owed) && (e.id == M.EMPTY || e.id !in w.cache)
        then w.completed + [CompletedFor(e.user, e.id)] else w.completed
  {
    hide Take, Handle, PlanFor, ShouldWelcome, M.ReplyTaken, Inv, FirstVisit;
    Handled(w, st, e, resumed, o, now);
    var (taken, row) := Take(w, st, e, resumed, now);
    var owed := ShouldWelcome(st, taken.sessions.table, row.value);
    WelcomeOwedIff(st, taken.sessions.table, row.value);
    Decided(e, taken.sessions.table.rows[row.value].mode, owed);
  }

  /** A conversation ends up with a person exactly if it was with one, or the message called for one in words or by menu. */
  lemma HandedOverIff(w: World, st: Settings, e: Inbound, resumed: Option<nat>, o: Outside, now: C.Time)
    requires Inv(w) && Take(w, st, e, resumed, now).1.Some?
    ensures var (taken, row) := Take(w, st, e, resumed, now);
      var w' := Handle(w, st, e, resumed, o, now);
      row.value in taken.sessions.table.rows && row.value in w'.sessions.table.rows &&
      (w'.sessions.table.rows[row.value].mode == C.Human <==>
         || taken.sessions.table.rows[row.value].mode == C.Human
         || (!e.kind.UnsupportedMessage? && (e.negotiating || e.wantsHuman))
         || (e.kind.InteractiveMessage? && e.quota == Allowed
             && (e.kind.selection == SalesChoice || e.kind.selection == EmployeeChoice)))
  {
    hide Take, Handle, PlanFor, ShouldWelcome, M.ReplyTaken, Inv;
    Handled(w, st, e, resumed, o, now);
    var (taken, row) := Take(w, st, e, resumed, now);
    Decided(e, taken.sessions.table.rows[row.value].mode, ShouldWelcome(st, taken.sessions.table, row.value));
  }

  lemma LastTells(sent: seq<Sent>)
    ensures forall a, b :: sent + [a] == sent + [b] ==> a == b
    ensures forall a :: sent + [a] != sent
  {
    forall a, b | sent + [a] == sent + [b] ensures a == b {
      assert (sent + [a])[|sent|] == (sent + [b])[|sent|];
    }
    forall a ensures sent + [a] != sent {
      assert |sent + [a]| == |sent| + 1;
    }
  }

  /** What goes out, if anything does: who is refused silently, who is told, and who is greeted. */
  lemma SaidExactly(w: World, st: Settings, e: Inbound, resumed: Option<nat>, o: Outside, now: C.Time)
    requires Inv(w) && Take(w, st, e, resumed, now).1.Some?
    ensures var (taken, row) := Take(w, st, e, resumed, now);
      var w' := Handle(w, st, e, resumed, o, now);
      && row.value in taken.sessions.table.rows
      && var c := taken.sessions.table.rows[row.value];
      var free := c.mode == C.Bot && !M.ReplyTaken(w.messages, e.id);
      var asked := !e.kind.UnsupportedMessage? && (e.negotiating || e.wantsHuman);
      var within := e.kind.UnsupportedMessage? || e.quota == Allowed;
      var owed := st.sessionEnabled && st.welcomeOnNew && (st.preventDuplicateWelcome ==> c.welcomeSentAt.None?)
                  && (st.repeatWelcome || FirstVisit(taken.sessions.table, row.value));
      var welcome := owed && !(e.kind.TextMessage? && e.kind.courtesy);
      && (w'.sent == w.sent <==> !free || (!asked && !within && e.quota != RefusedWithNotice))
      && (w'.sent == w.sent + [SentTo(e.user, e.id, M.Acknowledgement)] <==> free && (asked || (within && PicksPerson(e))))
      && (w'.sent == w.sent + [SentTo(e.user, e.id, M.Notice)] <==> free && !asked && !within && e.quota == RefusedWithNotice)
      && (w'.sent == w.sent + [SentTo(e.user, e.id, M.Answer(welcome))] <==> free && !asked && within && !PicksPerson(e))
      && w'.sent != w.sent + [SentTo(e.user, e.id, M.Answer(!welcome))]
  {
    hide Take, Handle, PlanFor, ShouldWelcome, M.ReplyTaken, Inv, FirstVisit, ForModel;
    Handled(w, st, e, resumed, o, now);
    LastTells(w.sent);
    var (taken, row) := Take(w, st, e, resumed, now);
    WelcomeOwedIff(st, taken.sessions.table, row.value);
    Decided(e, taken.sessions.table.rows[row.value].mode, ShouldWelcome(st, taken.sessions.table, row.value));
  }

  /** With sessions on, a message moves the timer of the session it lands in to now. */
  lemma HandledIsActivity(w: World, st: Settings, e: Inbound, resumed: Option<nat>, o: Outside, now: C.Time)
    requires Inv(w) && Take(w, st, e, resumed, now).1.Some? && st.sessionEnabled
    ensures var c := Take(w, st, e, resumed, now).1.value;
      var w' := Handle(w, st, e, resumed, o, now);
      C.ActiveFor(Take(w, st, e, resumed, now).0.sessions.table, e.user, c)
      && c in w'.sessions.table.rows && w'.sessions.table.rows[c].lastActivityAt == now
  {
    hide Take, Handle, PlanFor, ShouldWelcome, M.ReplyTaken;
    Handled(w, st, e, resumed, o, now);
    TakeTakes(w, st, e, resumed, now);
  }

  /**
   The generation cache after a handler: other ids as before; this one is kept exactly if it was
   there or was just generated and written, unless the answer was delivered.
   */
  lemma CachedExactly(w: World, st: Settings, e: Inbound, resumed: Option<nat>, o: Outside, now: C.Time)
    requires Inv(w) && Take(w, st, e, resumed, now).1.Some?
    ensures var (taken, row) := Take(w, st, e, resumed, now);
      var w' := Handle(w, st, e, resumed, o, now);
      row.value in taken.sessions.table.rows &&
      var answers := taken.sessions.table.rows[row.value].mode == C.Bot && !CallsForPerson(e) && WithinLimits(e)
                     && ForModel(e, ShouldWelcome(st, taken.sessions.table, row.value));
      var delivered := !M.ReplyTaken(w.messages, e.id) && o.accepted && !Clash(taken.messages, o.out);
      && (forall id :: id != e.id ==> (id in w'.cache <==> id in w.cache))
      && (e.id in w'.cache <==>
            && (e.id in w.cache || (answers && e.id != M.EMPTY && o.generated && o.cached))
            && !(answers && delivered))
  {
    hide L.Inv, M.Valid, M.WaTaken, M.ReplyTaken, InKnownRows, Take, Perform, Reply, PlanFor, ShouldWelcome, Clash, ForModel, L.Apply;
    TakeTakes(w, st, e, resumed, now);
    var (taken, row) := Take(w, st, e, resumed, now);
    var c := row.value;
    TakenReplies(w.messages, c, e.id);
    var owed := ShouldWelcome(st, taken.sessions.table, c);
    Decided(e, taken.sessions.table.rows[c].mode, owed);
    var plan := PlanFor(e, taken.sessions.table.rows[c].mode, owed);
    PerformCached(taken, st, c, e, plan, o, now);
    if BodyFor(plan).Some? {
      ReplyRecords(taken.messages, c, e.id, BodyFor(plan).value, o);
    }
  }

  lemma PerformCached(w: World, st: Settings, c: nat, e: Inbound, plan: Plan, o: Outside, now: C.Time)
    ensures var cache := Perform(w, st, c, e, plan, o, now).cache;
      var delivered := Outcome(w.messages, c, e.id, plan, o).1 == Delivered;
      && (forall id :: id != e.id ==> (id in cache <==> id in w.cache))
      && (e.id in cache <==> (e.id in w.cache || (plan.Generate? && e.id != M.EMPTY && o.generated && o.cached))
                             && !(plan.Generate? && delivered))
  {
    hide L.Apply, Reply;
  }
}
