/**
 Silence while a human owns the conversation, and one welcome per conversation,
 over every sequence of handled messages and of operator and sweeper steps.
 */
module ChatGuarantees {
  import opened Common
  import opened ChatFlow
  import M = Messages
  import C = Conversations
  import L = SessionLifecycle

  /**
   Somebody writes in; a customer's, operator's or sweeper's statement takes effect; or a message that
   answers nothing, an operator's reply or a goodbye, is recorded.
   */
  datatype Action =
    | Receive(e: Inbound, resumed: Option<nat>, o: Outside, now: C.Time)
    | Elsewhere(step: L.Step)
    | Writes(conversation: nat, goodbye: bool, wa: Option<M.Key>)

  /** A deleted conversation takes its messages with it. */
  function Happen(w: World, step: L.Step): World {
    w.(sessions := L.Apply(w.sessions, step),
       messages := if step.Remove? then M.DeleteConversation(w.messages, step.id) else w.messages)
  }

  function Write(w: World, conversation: nat, goodbye: bool, wa: Option<M.Key>): World {
    if conversation !in w.sessions.table.rows then w
    else w.(messages := M.Unprompted(w.messages, conversation, goodbye, wa))
  }

  ghost function Act(w: World, st: Settings, a: Action): World
    requires Inv(w)
  {
    match a
    case Receive(e, resumed, o, now) => Handle(w, st, e, resumed, o, now)
    case Elsewhere(step) => Happen(w, step)
    case Writes(conversation, goodbye, wa) => Write(w, conversation, goodbye, wa)
  }

  ghost function Run(w: World, st: Settings, actions: seq<Action>): (w': World)
    requires Inv(w)
    ensures Inv(w')
  {
    if actions == [] then w
    else
      var before := Run(w, st, actions[..|actions| - 1]);
      ActKeeps(before, st, actions[|actions| - 1]);
      Act(before, st, actions[|actions| - 1])
  }

  // ---- what one action may change -----------------------------------------------

  /** Nothing stored was altered or lost. */
  ghost predicate Kept(t: M.Table, t': M.Table) {
    forall r :: r in t.rows ==> r in t'.rows && t'.rows[r] == t.rows[r]
  }

  ghost predicate OnlySentTo(sent: seq<Sent>, sent': seq<Sent>, user: nat) {
    sent <= sent' && forall i :: |sent| <= i < |sent'| ==> sent'[i].user == user
  }

  ghost predicate OnlyCompletedFor(completed: seq<Completed>, completed': seq<Completed>, user: nat) {
    completed <= completed' && forall i :: |completed| <= i < |completed'| ==> completed'[i].user == user
  }

  ghost predicate OthersKept(s: L.State, s': L.State, user: nat) {
    && s'.owed == s.owed && s.table.next <= s'.table.next
    && forall id :: id in s.table.rows && s.table.rows[id].userId != user ==>
         id in s'.table.rows && s'.table.rows[id] == s.table.rows[id]
  }

  lemma PerformTranscript(w: World, st: Settings, c: nat, e: Inbound, plan: Plan, o: Outside, now: C.Time)
    requires M.Valid(w.messages) && InKnownRows(w) && c < w.sessions.table.next
    ensures var w' := Perform(w, st, c, e, plan, o, now);
      && M.Valid(w'.messages) && Kept(w.messages, w'.messages)
      && OnlySentTo(w.sent, w'.sent, e.user) && OnlyCompletedFor(w.completed, w'.completed, e.user)
      && (forall r :: r in w'.messages.rows ==> w'.messages.rows[r].conversationId < w.sessions.table.next)
  {
    hide M.Valid, Perform, Reply;
    PerformOutside(w, st, c, e, plan, o, now);
    if BodyFor(plan).Some? {
      ReplyRecords(w.messages, c, e.id, BodyFor(plan).value, o);
    }
  }

  lemma InsertKeeps(t: M.Table, m: M.Message, bound: nat)
    requires M.Valid(t)
    ensures Kept(t, t) && Kept(t, M.Insert(t, m))
    ensures m.conversationId < bound && (forall r :: r in t.rows ==> t.rows[r].conversationId < bound) ==>
      forall r :: r in M.Insert(t, m).rows ==> M.Insert(t, m).rows[r].conversationId < bound
  {
  }

  lemma TakeTranscript(w: World, st: Settings, e: Inbound, resumed: Option<nat>, now: C.Time)
    requires Inv(w)
    ensures var (w', row) := Take(w, st, e, resumed, now);
      && Inv(w') && Kept(w.messages, w'.messages) && w'.sent == w.sent && w'.completed == w.completed
      && OthersKept(w.sessions, w'.sessions, e.user)
      && (row.Some? ==> row.value < w'.sessions.table.next && C.ActiveFor(w'.sessions.table, e.user, row.value))
  {
    hide L.Inv, M.Valid, M.WaTaken, M.Insert, Take, Kept;
    TakeTakes(w, st, e, resumed, now);
    var (w', row) := Take(w, st, e, resumed, now);
    if row.Some? {
      InsertKeeps(w.messages, M.InboundRow(row.value, e.id), w'.sessions.table.next);
    } else {
      InsertKeeps(w.messages, M.InboundRow(0, e.id), 0);
    }
  }

  /** A handler acts for its own customer only, and only ever adds to the transcript. */
  lemma HandleStaysWithCustomer(w: World, st: Settings, e: Inbound, resumed: Option<nat>, o: Outside, now: C.Time)
    requires Inv(w)
    ensures var w' := Handle(w, st, e, resumed, o, now);
      && Inv(w') && Kept(w.messages, w'.messages) && OthersKept(w.sessions, w'.sessions, e.user)
      && OnlySentTo(w.sent, w'.sent, e.user) && OnlyCompletedFor(w.completed, w'.completed, e.user)
  {
    hide L.Inv, M.Valid, Take, Perform, PlanFor, ShouldWelcome, Outcome;
    TakeTranscript(w, st, e, resumed, now);
    var (taken, row) := Take(w, st, e, resumed, now);
    TakeTakes(w, st, e, resumed, now);
    if row.Some? {
      var plan := PlanFor(e, taken.sessions.table.rows[row.value].mode, ShouldWelcome(st, taken.sessions.table, row.value));
      PerformTranscript(taken, st, row.value, e, plan, o, now);
      PerformSession(taken, st, row.value, e, plan, o, now);
    }
  }

  lemma HappenKeeps(w: World, step: L.Step)
    requires Inv(w)
    ensures Inv(Happen(w, step))
  {
    hide L.Inv;
    L.StepKeeps(w.sessions, step);
  }

  lemma ActKeeps(w: World, st: Settings, a: Action)
    requires Inv(w)
    ensures Inv(Act(w, st, a))
  {
    hide Inv, Handle, Happen, Write;
    match a
    case Receive(e, resumed, o, now) => HandleStaysWithCustomer(w, st, e, resumed, o, now);
    case Elsewhere(step) => HappenKeeps(w, step);
    case Writes(conversation, goodbye, wa) => WritingKeeps(w, conversation, goodbye, wa);
  }

  lemma WritingKeeps(w: World, conversation: nat, goodbye: bool, wa: Option<M.Key>)
    requires Inv(w)
    ensures var w' := Write(w, conversation, goodbye, wa); Inv(w') && Kept(w.messages, w'.messages)
  {
    assert conversation in w.sessions.table.rows ==> conversation < w.sessions.table.next;
    hide L.Inv, M.Valid, M.Unprompted, M.WaTaken, M.ReplyTaken, M.InboundStored;
    M.UnpromptedKeepsKeys(w.messages, conversation, goodbye, wa);
  }

  // ---- silence -------------------------------------------------------------------

  predicate StoredIn(t: M.Table, id: M.Key, c: nat) {
    exists r :: r in t.rows && t.rows[r] == M.InboundRow(c, id)
  }

  /** The conversation is neither deleted nor given back to the bot. */
  predicate LeavesToHuman(a: Action, c: nat) {
    a.Elsewhere? ==> a.step != L.Remove(c) && !(a.step.SwitchMode? && a.step.id == c && a.step.mode == C.Bot)
  }

  ghost predicate NothingFor(w: World, w': World, user: nat) {
    && w.sent <= w'.sent && (forall i :: |w.sent| <= i < |w'.sent| ==> w'.sent[i].user != user)
    && w.completed <= w'.completed && (forall i :: |w.completed| <= i < |w'.completed| ==> w'.completed[i].user != user)
  }

  /** A held row is the one its customer's next message goes to, and that message is only stored. */
  lemma HeldMessageIsLeft(w: World, st: Settings, e: Inbound, resumed: Option<nat>, o: Outside, now: C.Time, c: nat)
    requires Inv(w) && L.HeldByHuman(w.sessions, c, e.user)
    ensures var w' := Handle(w, st, e, resumed, o, now);
      && L.HeldByHuman(w'.sessions, c, e.user)
      && w'.sent == w.sent && w'.completed == w.completed
      && (M.WaTaken(w.messages, e.id) || StoredIn(w'.messages, e.id, c))
  {
    hide M.Valid, M.WaTaken;
    var (s, id) := OpenRow(w.sessions, e.user, resumed, e.channel, now);
    assert C.HasActive(w.sessions.table, e.user);
    assert s == w.sessions && id == c;
    var t := M.Claim(w.messages, c, e.id).0;
    if !M.WaTaken(w.messages, e.id) {
      assert t.rows[w.messages.next] == M.InboundRow(c, e.id);
      TouchIsAStep(w.(messages := t), st, c, false, now);
    }
  }

  lemma SilentStep(w: World, st: Settings, a: Action, c: nat, user: nat)
    requires Inv(w) && L.HeldByHuman(w.sessions, c, user) && LeavesToHuman(a, c)
    ensures Inv(Act(w, st, a))
    ensures var w' := Act(w, st, a);
      && L.HeldByHuman(w'.sessions, c, user) && NothingFor(w, w', user)
      && (forall id :: StoredIn(w.messages, id, c) ==> StoredIn(w'.messages, id, c))
      && (a.Receive? && a.e.user == user && !M.WaTaken(w.messages, a.e.id) ==> StoredIn(w'.messages, a.e.id, c))
  {
    hide L.Inv, M.Valid, M.WaTaken, Handle, L.Apply;
    ActKeeps(w, st, a);
    match a
    case Writes(conversation, goodbye, wa) => WritingKeeps(w, conversation, goodbye, wa);
    case Elsewhere(step) =>
      L.HeldByHumanStep(w.sessions, step, c, user);
      assert forall r :: r in w.messages.rows && w.messages.rows[r].conversationId == c ==> r in Happen(w, step).messages.rows;
    case Receive(e, resumed, o, now) =>
      HandleStaysWithCustomer(w, st, e, resumed, o, now);
      if e.user == user {
        HeldMessageIsLeft(w, st, e, resumed, o, now, c);
      }
  }

  /**
   From the moment a row no sweeper is closing is human until it is given back, whatever
   arrives in whatever order: no handler generates or sends for that customer,
   the row stays open in human hands, and every fresh message is stored in it.
   */
  lemma {:induction false} HumanMeansSilence(w: World, st: Settings, actions: seq<Action>, c: nat, user: nat)
    requires Inv(w) && L.HeldByHuman(w.sessions, c, user)
    requires forall k :: 0 <= k < |actions| ==> LeavesToHuman(actions[k], c)
    ensures var w' := Run(w, st, actions);
      && L.HeldByHuman(w'.sessions, c, user) && NothingFor(w, w', user)
      && (forall id :: StoredIn(w.messages, id, c) ==> StoredIn(w'.messages, id, c))
    ensures forall k | 0 <= k < |actions| && actions[k].Receive? && actions[k].e.user == user ::
      M.WaTaken(Run(w, st, actions[..k]).messages, actions[k].e.id) || StoredIn(Run(w, st, actions).messages, actions[k].e.id, c)
  {
    hide Inv, Act, L.HeldByHuman, M.WaTaken, StoredIn;
    if actions != [] {
      var n := |actions| - 1;
      var before := actions[..n];
      HumanMeansSilence(w, st, before, c, user);
      SilentStep(Run(w, st, before), st, actions[n], c, user);
      forall k | 0 <= k < n && actions[k].Receive? && actions[k].e.user == user
        ensures M.WaTaken(Run(w, st, actions[..k]).messages, actions[k].e.id) || StoredIn(Run(w, st, actions).messages, actions[k].e.id, c)
      {
        assert before[k] == actions[k] && before[..k] == actions[..k];
      }
    }
  }

  /** The handler that hands over sends one acknowledgement at most, and nothing from the model. */
  lemma HandoffBeginsSilence(w: World, st: Settings, e: Inbound, resumed: Option<nat>, o: Outside, now: C.Time)
    requires Inv(w) && Take(w, st, e, resumed, now).1.Some?
    ensures var (taken, row) := Take(w, st, e, resumed, now);
      var w' := Handle(w, st, e, resumed, o, now);
      row.value in taken.sessions.table.rows &&
      var c := taken.sessions.table.rows[row.value];
      row.value !in w.sessions.owed && c.mode == C.Bot
      && ((!e.kind.UnsupportedMessage? && (e.negotiating || e.wantsHuman))
          || (e.kind.InteractiveMessage? && e.quota == Allowed
              && (e.kind.selection == SalesChoice || e.kind.selection == EmployeeChoice))) ==>
        && Inv(w') && L.HeldByHuman(w'.sessions, row.value, e.user)
        && (w'.sent == w.sent || w'.sent == w.sent + [SentTo(e.user, e.id, M.Acknowledgement)])
        && w'.completed == w.completed && StoredIn(w'.messages, e.id, row.value)
  {
    hide M.Valid, M.WaTaken, L.Inv, Take, Perform, Reply, ShouldWelcome;
    TakeTakes(w, st, e, resumed, now);
    HandleStaysWithCustomer(w, st, e, resumed, o, now);
    var (taken, row) := Take(w, st, e, resumed, now);
    var plan := PlanFor(e, taken.sessions.table.rows[row.value].mode, ShouldWelcome(st, taken.sessions.table, row.value));
    if plan.Handoff? {
      PerformOutside(taken, st, row.value, e, plan, o, now);
      PerformSession(taken, st, row.value, e, plan, o, now);
      ReplyRecords(taken.messages, row.value, e.id, M.Acknowledgement, o);
      assert taken.messages.rows[w.messages.next] == M.InboundRow(row.value, e.id);
    }
  }

  // ---- the welcome ------------------------------------------------------------------

  predicate Welcomed(t: M.Table, c: nat) {
    exists r :: r in t.rows && t.rows[r].conversationId == c && IsWelcome(t.rows[r])
  }

  /** The flag is up exactly on the rows whose customer was confirmed to have been welcomed in them. */
  ghost predicate Recorded(s: L.State, t: M.Table) {
    forall c :: c in s.table.rows ==> (s.table.rows[c].welcomeSentAt.Some? <==> Welcomed(t, c))
  }

  ghost predicate OncePerRow(t: M.Table) {
    forall r, q | r in t.rows && q in t.rows && t.rows[r].conversationId == t.rows[q].conversationId ::
      IsWelcome(t.rows[r]) && IsWelcome(t.rows[q]) ==> r == q
  }

  /** Nobody but the handlers marks a welcome. */
  ghost predicate NoGreets(actions: seq<Action>) {
    forall k :: 0 <= k < |actions| ==> !(actions[k].Elsewhere? && actions[k].step.Greet?)
  }

  /** Either no session is ever welcomed, or a welcomed one is recognised. */
  predicate GreetsOnce(st: Settings) {
    st.sessionEnabled && st.welcomeOnNew ==> st.preventDuplicateWelcome
  }

  /** A welcome goes out exactly with an answer of the bot's in a session that owes it and did not open on a courtesy. */
  lemma CarriesExactly(e: Inbound, mode: C.Mode, owed: bool)
    ensures var plan := PlanFor(e, mode, owed);
      Carries(plan) <==> owed && (plan.Fixed? || plan.Generate?) && !(e.kind.TextMessage? && e.kind.courtesy)
  {
  }

  /** Storing the customer's message, in a row that may be new, changes neither side. */
  lemma TakeKeepsRecord(w: World, s': L.State, c: nat, id: M.Key)
    requires M.Valid(w.messages) && InKnownRows(w) && SessionTaken(w.sessions, s', c)
    requires Recorded(w.sessions, w.messages)
    ensures Recorded(s', M.Insert(w.messages, M.InboundRow(c, id)))
    ensures OncePerRow(w.messages) ==> OncePerRow(M.Insert(w.messages, M.InboundRow(c, id)))
  {
    hide M.Valid, Welcomed, OncePerRow;
    InboundWelcomesNobody(w.messages, c, id);
    if c !in w.sessions.table.rows {
      assert !Welcomed(w.messages, c) by { NoWelcomeYet(w, c); }
    }
  }

  lemma NoWelcomeYet(w: World, c: nat)
    requires InKnownRows(w) && c >= w.sessions.table.next
    ensures !Welcomed(w.messages, c)
  {
  }

  lemma InboundWelcomesNobody(t: M.Table, c: nat, id: M.Key)
    requires M.Valid(t)
    ensures var t' := M.Insert(t, M.InboundRow(c, id));
      (forall x :: Welcomed(t', x) <==> Welcomed(t, x)) && (OncePerRow(t) ==> OncePerRow(t'))
  {
    var t' := M.Insert(t, M.InboundRow(c, id));
    assert forall r :: r in t.rows ==> r in t'.rows && t'.rows[r] == t.rows[r];
  }

  lemma ReplyWelcomes(t: M.Table, t': M.Table, c: nat, id: M.Key, welcomed: bool)
    requires AtMostOneReply(t, t', c, id, welcomed)
    ensures forall x :: Welcomed(t', x) <==> Welcomed(t, x) || (welcomed && x == c)
    ensures OncePerRow(t) && (welcomed ==> !Welcomed(t, c)) ==> OncePerRow(t')
  {
    hide M.Valid;
    assert welcomed ==> IsWelcome(t'.rows[t.next]);
    forall x | Welcomed(t', x) ensures Welcomed(t, x) || (welcomed && x == c) {
      var r :| r in t'.rows && t'.rows[r].conversationId == x && IsWelcome(t'.rows[r]);
    }
  }

  lemma ReplyKeepsRecord(s: L.State, t: M.Table, s': L.State, t': M.Table, c: nat, id: M.Key, welcomed: bool)
    requires Recorded(s, t) && OnlyRow(s, s', c) && AtMostOneReply(t, t', c, id, welcomed) && c in s.table.rows
    requires s'.table.rows[c].welcomeSentAt.Some? <==> s.table.rows[c].welcomeSentAt.Some? || welcomed
    ensures Recorded(s', t')
    ensures OncePerRow(t) && (welcomed ==> s.table.rows[c].welcomeSentAt.None?) ==> OncePerRow(t')
  {
    hide AtMostOneReply, OncePerRow, Welcomed;
    ReplyWelcomes(t, t', c, id, welcomed);
  }

  lemma HandleKeepsRecord(w: World, st: Settings, e: Inbound, resumed: Option<nat>, o: Outside, now: C.Time)
    requires Inv(w) && Recorded(w.sessions, w.messages)
    ensures var w' := Handle(w, st, e, resumed, o, now);
      && Recorded(w'.sessions, w'.messages)
      && (GreetsOnce(st) && OncePerRow(w.messages) ==> OncePerRow(w'.messages))
  {
    hide L.Inv, M.Valid, M.WaTaken, InKnownRows, Take, Perform, Reply, PlanFor, Recorded, OncePerRow;
    TakeTakes(w, st, e, resumed, now);
    var (taken, row) := Take(w, st, e, resumed, now);
    if row.Some? {
      var c := row.value;
      var owed := ShouldWelcome(st, taken.sessions.table, c);
      var plan := PlanFor(e, taken.sessions.table.rows[c].mode, owed);
      TakeKeepsRecord(w, taken.sessions, c, e.id);
      PerformOutside(taken, st, c, e, plan, o, now);
      PerformSession(taken, st, c, e, plan, o, now);
      if BodyFor(plan).Some? {
        ReplyRecords(taken.messages, c, e.id, BodyFor(plan).value, o);
      }
      if Carries(plan) {
        CarriesExactly(e, taken.sessions.table.rows[c].mode, owed);
      }
      var w' := Perform(taken, st, c, e, plan, o, now);
      ReplyKeepsRecord(taken.sessions, taken.messages, w'.sessions, w'.messages, c, e.id,
                       Carries(plan) && Outcome(taken.messages, c, e.id, plan, o).1 == Delivered);
    }
  }

  lemma ElsewhereKeepsRecord(w: World, step: L.Step)
    requires Inv(w) && Recorded(w.sessions, w.messages) && !step.Greet?
    ensures var w' := Happen(w, step);
      Recorded(w'.sessions, w'.messages) && (OncePerRow(w.messages) ==> OncePerRow(w'.messages))
  {
    var w' := Happen(w, step);
    if step.Remove? {
      assert forall c :: c != step.id ==> (Welcomed(w'.messages, c) <==> Welcomed(w.messages, c)) by {
        forall c | c != step.id && Welcomed(w.messages, c) ensures Welcomed(w'.messages, c) {
          var r :| r in w.messages.rows && w.messages.rows[r].conversationId == c && IsWelcome(w.messages.rows[r]);
          assert r in w'.messages.rows;
        }
      }
    } else {
      forall c | c in w'.sessions.table.rows
        ensures w'.sessions.table.rows[c].welcomeSentAt.Some? <==> Welcomed(w.messages, c)
      {
        if c in w.sessions.table.rows {
          L.RowStep(w.sessions, step, c);
        }
      }
    }
  }

  lemma WritingKeepsRecord(w: World, conversation: nat, goodbye: bool, wa: Option<M.Key>)
    requires Inv(w) && Recorded(w.sessions, w.messages)
    ensures var w' := Write(w, conversation, goodbye, wa);
      Recorded(w'.sessions, w'.messages) && (OncePerRow(w.messages) ==> OncePerRow(w'.messages))
  {
    hide L.Inv, M.Valid, M.Unprompted, M.WaTaken, M.ReplyTaken, M.InboundStored;
    M.UnpromptedKeepsKeys(w.messages, conversation, goodbye, wa);
    var t' := Write(w, conversation, goodbye, wa).messages;
    forall x | Welcomed(t', x) ensures Welcomed(w.messages, x) {
      var r :| r in t'.rows && t'.rows[r].conversationId == x && IsWelcome(t'.rows[r]);
    }
  }

  /**
   A conversation's flag tells, in every sequential run, whether its customer was
   welcomed in it: a failed send or a courtesy opening leaves the welcome owed.
   Under the settings of GreetsOnce, no conversation has two confirmed welcomes.
   */
  lemma {:induction false} WelcomeRecordedExactly(w: World, st: Settings, actions: seq<Action>)
    requires Inv(w) && Recorded(w.sessions, w.messages) && NoGreets(actions)
    ensures var w' := Run(w, st, actions);
      && Recorded(w'.sessions, w'.messages)
      && (GreetsOnce(st) && OncePerRow(w.messages) ==> OncePerRow(w'.messages))
  {
    hide Inv, Handle, Happen, Write, Recorded, OncePerRow;
    if actions != [] {
      var n := |actions| - 1;
      WelcomeRecordedExactly(w, st, actions[..n]);
      match actions[n]
      case Receive(e, resumed, o, now) => HandleKeepsRecord(Run(w, st, actions[..n]), st, e, resumed, o, now);
      case Elsewhere(step) => ElsewhereKeepsRecord(Run(w, st, actions[..n]), step);
      case Writes(conversation, goodbye, wa) => WritingKeepsRecord(Run(w, st, actions[..n]), conversation, goodbye, wa);
    }
  }

  // ---- and exactly when it is sent at most once -----------------------------------------

  function Empty(): World {
    World(L.Init(), M.Table(map[], 0), [], [], {})
  }

  function Greeting(id: M.Key): Action {
    Receive(Inbound(0, C.WhatsApp, id, TextMessage(false, false, true, Company), false, false, false, Allowed),
            None, Outside(false, false, true, None), 0)
  }

  /** At most one conversation: customer 0's, open and answered by the bot. */
  ghost predicate Lone(w: World) {
    && Inv(w) && w.sessions.table.rows.Keys <= {0}
    && (if 0 in w.sessions.table.rows
        then C.ActiveFor(w.sessions.table, 0, 0) && w.sessions.table.rows[0].mode == C.Bot
        else w.sessions.table.next == 0)
  }

  predicate Unseen(t: M.Table, id: M.Key) {
    !M.WaTaken(t, id) && !M.ReplyTaken(t, id)
  }

  lemma LoneIsWelcomed(t: C.Table, st: Settings)
    requires !GreetsOnce(st) && t.rows.Keys == {0}
    ensures ShouldWelcome(st, t, 0)
  {
    assert RowsOf(t, t.rows[0].userId) == {0};
  }

  lemma LoneOpened(w: World)
    requires Lone(w)
    ensures var (s, c) := OpenRow(w.sessions, 0, None, C.WhatsApp, 0);
      L.Inv(s) && c == 0 && s.table.rows.Keys == {0} && s.table.rows[0].mode == C.Bot
  {
  }

  /** Taking a message leaves the one conversation open and with the bot. */
  lemma LoneTaken(w: World, st: Settings, e: Inbound)
    requires Lone(w) && Unseen(w.messages, e.id) && e.user == 0 && e.channel == C.WhatsApp
    ensures var (taken, row) := Take(w, st, e, None, 0);
      row == Some(0) && taken.sessions.table.rows.Keys == {0} && taken.sessions.table.rows[0].mode == C.Bot
  {
    hide L.Inv, L.Apply, M.Valid, M.WaTaken, M.ReplyTaken;
    var (s, c) := OpenRow(w.sessions, 0, None, C.WhatsApp, 0);
    LoneOpened(w);
    TouchIsAStep(w.(sessions := s, messages := M.Claim(w.messages, c, e.id).0), st, c, false, 0);
  }

  function GreetingStored(t: M.Table, id: M.Key): M.Table {
    Reply(M.Insert(t, M.InboundRow(0, id)), 0, id, M.Answer(true), Outside(false, false, true, None)).0
  }

  lemma StoredGreeting(t: M.Table, id: M.Key, other: M.Key)
    requires M.Valid(t) && Unseen(t, id) && other != id && Unseen(t, other)
    ensures var t' := GreetingStored(t, id);
      && Unseen(t', other) && t'.next == t.next + 2 && t.next + 1 !in t.rows
      && t.next + 1 in t'.rows && t'.rows[t.next + 1].conversationId == 0 && IsWelcome(t'.rows[t.next + 1])
  {
  }

  lemma LoneGreeted(w: World, st: Settings, id: M.Key)
    requires Lone(w) && Unseen(w.messages, id) && !GreetsOnce(st)
    ensures var w' := Act(w, st, Greeting(id));
      && Lone(w') && Kept(w.messages, w'.messages) && w'.messages == GreetingStored(w.messages, id)
  {
    hide L.Inv, M.Valid, M.WaTaken, M.ReplyTaken, OpenRow, Take, ShouldWelcome, Perform, Reply;
    var e := Greeting(id).e;
    var o := Outside(false, false, true, None);
    HandleStaysWithCustomer(w, st, e, None, o, 0);
    TakeTakes(w, st, e, None, 0);
    LoneTaken(w, st, e);
    var taken := Take(w, st, e, None, 0).0;
    LoneIsWelcomed(taken.sessions.table, st);
    PerformOutside(taken, st, 0, e, Fixed(true), o, 0);
    PerformSession(taken, st, 0, e, Fixed(true), o, 0);
  }

  lemma LoneEmpty()
    ensures Lone(Empty()) && forall id :: Unseen(Empty().messages, id)
  {
  }

  lemma LoneImpliesInv(w: World)
    requires Lone(w)
    ensures Inv(w) && M.Valid(w.messages)
  {
  }

  lemma RunTwo(w: World, st: Settings, a: Action, b: Action)
    requires Inv(w)
    ensures Inv(Act(w, st, a)) && Run(w, st, [a, b]) == Act(Act(w, st, a), st, b)
  {
    hide Inv, Act;
    assert [a, b][..1] == [a] && [a][..0] == [];
    assert Run(w, st, []) == w;
    assert Run(w, st, [a]) == Act(w, st, a);
  }

  lemma WelcomedTwice(st: Settings)
    requires !GreetsOnce(st)
    ensures Inv(Empty()) && !OncePerRow(Run(Empty(), st, [Greeting(M.Plain(1)), Greeting(M.Plain(2))]).messages)
  {
    hide Inv, Act, Unseen, Lone, Run, GreetingStored, M.Valid;
    LoneEmpty();
    LoneImpliesInv(Empty());
    LoneGreeted(Empty(), st, M.Plain(1));
    StoredGreeting(Empty().messages, M.Plain(1), M.Plain(2));
    var w1 := Act(Empty(), st, Greeting(M.Plain(1)));
    LoneImpliesInv(w1);
    LoneGreeted(w1, st, M.Plain(2));
    StoredGreeting(Empty().messages, M.Plain(1), M.Plain(3));
    StoredGreeting(w1.messages, M.Plain(2), M.Plain(3));
    RunTwo(Empty(), st, Greeting(M.Plain(1)), Greeting(M.Plain(2)));
  }

  /** In sequential runs a conversation is welcomed at most once if and only if the settings say so. */
  lemma WelcomeOnceIff(st: Settings)
    ensures Inv(Empty())
    ensures GreetsOnce(st) <==> forall actions | NoGreets(actions) :: OncePerRow(Run(Empty(), st, actions).messages)
  {
    hide Inv, Run, GreetsOnce, OncePerRow;
    LoneEmpty();
    LoneImpliesInv(Empty());
    forall actions | NoGreets(actions) && GreetsOnce(st) ensures OncePerRow(Run(Empty(), st, actions).messages) {
      EmptyRecorded();
      WelcomeRecordedExactly(Empty(), st, actions);
    }
    if !GreetsOnce(st) {
      WelcomedTwice(st);
      assert NoGreets([Greeting(M.Plain(1)), Greeting(M.Plain(2))]);
    }
  }

  lemma EmptyRecorded()
    ensures Recorded(Empty().sessions, Empty().messages) && OncePerRow(Empty().messages)
  {
  }
}
