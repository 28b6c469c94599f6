/**
 What one inbound message does from beginning to end (app/services/chat_service.py)
 when nothing crashes and handlers do not overlap: resolve the conversation, claim
 the delivery, decide, answer.  The classifiers, the quota verdict and the
 provider's answer are inputs.
 */
module ChatFlow {
  import opened Common
  import M = Messages
  import C = Conversations
  import L = SessionLifecycle

  datatype Scope = OutOfScope | Company | Domain
  datatype Selection = SalesChoice | EmployeeChoice | ServiceChoice | OtherChoice
  datatype Verdict = Allowed | RefusedSilently | RefusedWithNotice

  datatype Kind =
    | TextMessage(courtesy: bool, unintelligible: bool, greeting: bool, scope: Scope)
    | InteractiveMessage(selection: Selection)
    | MediaMessage
    | UnsupportedMessage

  datatype Inbound = Inbound(
    user: nat, channel: C.Channel, id: M.Key, kind: Kind,
    negotiating: bool, wantsHuman: bool, salesLead: bool, quota: Verdict)

  /** What the outside world answers while the message is handled. */
  datatype Outside = Outside(generated: bool, cached: bool, accepted: bool, out: Option<M.Key>)

  datatype Settings = Settings(
    sessionEnabled: bool, welcomeOnNew: bool, preventDuplicateWelcome: bool, repeatWelcome: bool, resetOnOutgoing: bool)

  datatype Sent = SentTo(user: nat, id: M.Key, body: M.Body)
  datatype Completed = CompletedFor(user: nat, id: M.Key)

  datatype World = World(
    sessions: L.State, messages: M.Table, sent: seq<Sent>, completed: seq<Completed>, cache: set<M.Key>)

  datatype Plan =
    | Leave
    | Handoff(tag: Option<C.Tag>)
    | Decline(notify: bool)
    | Fixed(welcome: bool)
    | Generate(welcome: bool)

  // ---- deciding -------------------------------------------------------------------

  function CountForUser(t: C.Table, user: nat): nat {
    |RowsOf(t, user)|
  }

  function RowsOf(t: C.Table, user: nat): set<nat> {
    set id | id in t.rows && t.rows[id].userId == user
  }

  /** SessionService.should_welcome */
  function ShouldWelcome(st: Settings, t: C.Table, id: nat): bool
    requires id in t.rows
  {
    && st.sessionEnabled && st.welcomeOnNew
    && !(st.preventDuplicateWelcome && t.rows[id].welcomeSentAt.Some?)
    && (st.repeatWelcome || CountForUser(t, t.rows[id].userId) <= 1)
  }

  /** _handled_by_human; an unsupported message carries no text to classify. */
  function HumanPlan(e: Inbound, mode: C.Mode): Option<Plan> {
    if mode == C.Human then Some(Leave)
    else if e.kind.UnsupportedMessage? then None
    else if e.negotiating then Some(Handoff(Some(C.SalesLead)))
    else if e.wantsHuman then Some(Handoff(if e.salesLead then Some(C.SalesLead) else None))
    else None
  }

  /** The four handlers, each from after its claim. */
  function PlanFor(e: Inbound, mode: C.Mode, owed: bool): Plan {
    var human := HumanPlan(e, mode);
    if human.Some? then human.value
    else if !e.kind.UnsupportedMessage? && e.quota != Allowed then Decline(e.quota == RefusedWithNotice)
    else match e.kind
      case TextMessage(courtesy, unintelligible, greeting, scope) =>
        var first := owed && !courtesy;
        if first && (unintelligible || greeting) then Fixed(true)
        else if scope == OutOfScope then Fixed(first)
        else Generate(first)
      case InteractiveMessage(selection) =>
        (match selection
         case SalesChoice => Handoff(Some(C.SalesLead))
         case EmployeeChoice => Handoff(None)
         case ServiceChoice => Fixed(owed)
         case OtherChoice => Generate(owed))
      case MediaMessage => Generate(owed)
      case UnsupportedMessage => Fixed(owed)
  }

  // ---- acting -----------------------------------------------------------------------

  function Do(w: World, step: L.Step): World {
    w.(sessions := L.Apply(w.sessions, step))
  }

  /** SessionService.touch */
  function Touch(w: World, st: Settings, conversation: nat, outgoing: bool, now: C.Time): World {
    if st.sessionEnabled && (!outgoing || st.resetOnOutgoing) then Do(w, L.TouchRow(conversation, now)) else w
  }

  /** Refused: somebody reserved the reply before.  Raised: the provider's id clashed with a stored one. */
  datatype SendResult = Refused | Failed | Raised | Delivered

  /** _send_once on the messages table: reserve, send, confirm. */
  function Reply(t: M.Table, c: nat, id: M.Key, body: M.Body, o: Outside): (r: (M.Table, SendResult))
    ensures r.1 == Refused ==> r.0 == t
  {
    var (reserved, row) := M.Reserve(t, c, id, body);
    if row.None? then (t, Refused)
    else if !o.accepted then (M.Confirm(reserved, row.value, None, M.Unconfirmed), Failed)
    else if M.ConfirmConflicts(reserved, row.value, o.out) then (reserved, Raised)
    else (M.Confirm(reserved, row.value, o.out, M.Sent), Delivered)
  }

  /** _send_once: a committed reservation is activity and is followed by one call of the sender. */
  function SendOnce(w: World, st: Settings, c: nat, user: nat, id: M.Key, body: M.Body, o: Outside, now: C.Time)
    : (World, SendResult)
  {
    var (t, r) := Reply(w.messages, c, id, body, o);
    if r == Refused then (w, r)
    else (Touch(w, st, c, true, now).(messages := t, sent := w.sent + [SentTo(user, id, body)]), r)
  }

  /** The tail of _send_fixed: a welcome is recorded only once it was delivered. */
  function RecordWelcome(sent: (World, SendResult), welcome: bool, conversation: nat, now: C.Time): World {
    if sent.1 == Delivered && welcome then Do(sent.0, L.Greet(conversation, now)) else sent.0
  }

  /** The completion part of _generate_and_send: read the cache, else call the model. */
  function Complete(w: World, user: nat, id: M.Key, o: Outside): World {
    if id != M.EMPTY && id in w.cache then w
    else w.(completed := w.completed + [CompletedFor(user, id)],
            cache := if o.generated && o.cached && id != M.EMPTY then w.cache + {id} else w.cache)
  }

  function Perform(w: World, st: Settings, c: nat, e: Inbound, plan: Plan, o: Outside, now: C.Time): World {
    match plan
    case Leave => w
    case Handoff(tag) =>
      SendOnce(Do(w, L.SwitchMode(c, C.Human, None, tag, now)), st, c, e.user, e.id, M.Acknowledgement, o, now).0
    case Decline(notify) => if notify then SendOnce(w, st, c, e.user, e.id, M.Notice, o, now).0 else w
    case Fixed(welcome) =>
      RecordWelcome(SendOnce(w, st, c, e.user, e.id, M.Answer(welcome), o, now), welcome, c, now)
    case Generate(welcome) =>
      var sent := SendOnce(Complete(w, e.user, e.id, o), st, c, e.user, e.id, M.Answer(welcome), o, now);
      var done := RecordWelcome(sent, welcome, c, now);
      if sent.1 == Delivered then done.(cache := done.cache - {e.id}) else done
  }

  /** The customer's active row, or the closed one being resumed, or a new one. */
  ghost function OpenRow(s: L.State, user: nat, resumed: Option<nat>, channel: C.Channel, now: C.Time): (L.State, nat) {
    if C.HasActive(s.table, user) then
      var id :| id in s.table.rows && C.ActiveFor(s.table, user, id);
      (s, id)
    else if resumed.Some? && resumed.value in s.table.rows && s.table.rows[resumed.value].userId == user then
      (L.Apply(s, L.Reopen(resumed.value, now)), resumed.value)
    else (L.Apply(s, L.Open(user, channel, now)), s.table.next)
  }

  lemma OpenRowOpens(s: L.State, user: nat, resumed: Option<nat>, channel: C.Channel, now: C.Time)
    requires L.Inv(s)
    ensures var (s', c) := OpenRow(s, user, resumed, channel, now);
      && L.Inv(s') && C.ActiveFor(s'.table, user, c) && s'.owed == s.owed && s.table.next <= s'.table.next && c < s'.table.next
      && (forall id :: id in s.table.rows && id != c ==> id in s'.table.rows && s'.table.rows[id] == s.table.rows[id])
      && (c in s.table.rows ==> s'.table.rows[c].welcomeSentAt == s.table.rows[c].welcomeSentAt && s.table.rows[c].userId == user
                                && s'.table.rows[c].mode == s.table.rows[c].mode && s'.table.rows[c].tag == s.table.rows[c].tag)
      && (c !in s.table.rows ==> c == s.table.next && s'.table.rows[c].welcomeSentAt.None?
                                 && s'.table.rows[c].mode == C.Bot && s'.table.rows[c].tag.None?)
      && s'.table.rows.Keys == s.table.rows.Keys + {c}
      && (C.HasActive(s.table, user) ==> s' == s)
  {
    if !C.HasActive(s.table, user) {
      if resumed.Some? && resumed.value in s.table.rows && s.table.rows[resumed.value].userId == user {
        L.StepKeeps(s, L.Reopen(resumed.value, now));
        assert !C.ActiveFor(s.table, user, resumed.value);
      } else {
        L.StepKeeps(s, L.Open(user, channel, now));
      }
    }
  }

  /** Resolve the conversation and claim the delivery; None is a duplicate, rolled back, context included. */
  ghost function Take(w: World, st: Settings, e: Inbound, resumed: Option<nat>, now: C.Time): (World, Option<nat>) {
    var (s, c) := OpenRow(w.sessions, e.user, resumed, e.channel, now);
    var (t, got) := M.Claim(w.messages, c, e.id);
    if got.None? then (w, None) else (Touch(w.(sessions := s, messages := t), st, c, false, now), Some(c))
  }

  /** One delivery, start to finish. */
  ghost function Handle(w: World, st: Settings, e: Inbound, resumed: Option<nat>, o: Outside, now: C.Time): World
    requires L.Inv(w.sessions) && M.Valid(w.messages)
  {
    TakeTakes(w, st, e, resumed, now);
    var (taken, row) := Take(w, st, e, resumed, now);
    if row.None? then w
    else
      var c := taken.sessions.table.rows[row.value];
      Perform(taken, st, row.value, e, PlanFor(e, c.mode, ShouldWelcome(st, taken.sessions.table, row.value)), o, now)
  }

  // ---- what every handler keeps ---------------------------------------------------------

  ghost predicate Inv(w: World) {
    L.Inv(w.sessions) && M.Valid(w.messages) && InKnownRows(w)
  }

  ghost predicate InKnownRows(w: World) {
    forall r :: r in w.messages.rows ==> w.messages.rows[r].conversationId < w.sessions.table.next
  }

  /** A confirmed message that carries the welcome. */
  predicate IsWelcome(m: M.Message) {
    m.body == M.Answer(true) && m.status == Some(M.Sent)
  }

  /** Only row c changed, and neither its owner nor where it stands in its lifecycle. */
  ghost predicate OnlyRow(s: L.State, s': L.State, c: nat) {
    && s'.owed == s.owed && s'.table.next == s.table.next && s'.table.rows.Keys == s.table.rows.Keys
    && (forall id :: id in s.table.rows && id != c ==> s'.table.rows[id] == s.table.rows[id])
    && (c in s.table.rows ==>
          var (a, b) := (s.table.rows[c], s'.table.rows[c]);
          a.userId == b.userId && a.status == b.status && a.closingSentAt == b.closingSentAt)
  }

  /** The transcript gained at most one reply to `id`; `welcomed` says it is a confirmed welcome. */
  ghost predicate AtMostOneReply(t: M.Table, t': M.Table, c: nat, id: M.Key, welcomed: bool) {
    && M.Valid(t')
    && (forall r :: r in t.rows ==> r in t'.rows && t'.rows[r] == t.rows[r])
    && (if t' == t then !welcomed
        else t'.rows.Keys == t.rows.Keys + {t.next} && t.next !in t.rows && IsReply(t'.rows[t.next], c, id)
             && (welcomed <==> IsWelcome(t'.rows[t.next])))
  }

  predicate IsReply(m: M.Message, c: nat, id: M.Key) {
    m.conversationId == c && m.direction == M.Outbound && m.replyTo == Some(id)
  }

  lemma TouchIsAStep(w: World, st: Settings, c: nat, outgoing: bool, now: C.Time)
    requires L.Inv(w.sessions)
    ensures var w' := Touch(w, st, c, outgoing, now);
      && w' == w.(sessions := w'.sessions) && L.Inv(w'.sessions) && OnlyRow(w.sessions, w'.sessions, c)
      && (c in w.sessions.table.rows ==>
            && w'.sessions.table.rows[c] == w.sessions.table.rows[c].(lastActivityAt := w'.sessions.table.rows[c].lastActivityAt)
            && w'.sessions.table.rows[c].lastActivityAt
               == (if st.sessionEnabled && (!outgoing || st.resetOnOutgoing) then now else w.sessions.table.rows[c].lastActivityAt))
  {
  }

  /** The provider handed back an id that some stored message already has. */
  predicate Clash(t: M.Table, out: Option<M.Key>) {
    out.Some? && M.WaTaken(t, out.value)
  }

  lemma ClashIsConflict(t: M.Table, c: nat, id: M.Key, body: M.Body, out: Option<M.Key>)
    requires M.Valid(t) && !M.ReplyTaken(t, id)
    ensures M.ConfirmConflicts(M.Reserve(t, c, id, body).0, t.next, out) <==> Clash(t, out)
  {
    var t' := M.Reserve(t, c, id, body).0;
    assert forall q :: q in t.rows <==> q in t'.rows && q != t.next;
  }

  /** One reply row, whose status tells how the send went; delivered exactly when nothing stood in the way. */
  lemma ReplyRecords(t: M.Table, c: nat, id: M.Key, body: M.Body, o: Outside)
    requires M.Valid(t)
    ensures var (t', r) := Reply(t, c, id, body, o);
      && AtMostOneReply(t, t', c, id, r == Delivered && body == M.Answer(true))
      && (r == Refused <==> M.ReplyTaken(t, id))
      && (r == Delivered <==> !M.ReplyTaken(t, id) && o.accepted && !Clash(t, o.out))
      && (r == Failed <==> !M.ReplyTaken(t, id) && !o.accepted)
      && (r != Refused ==> t.next in t'.rows && t'.rows[t.next] == SentRow(c, id, body, r, o.out))
  {
    hide M.Valid, M.ReplyTaken, M.WaTaken, M.InboundStored, M.ConfirmConflicts, Clash;
    M.ReserveIsExclusive(t, c, id, body, 0, body);
    if !M.ReplyTaken(t, id) {
      ClashIsConflict(t, c, id, body, o.out);
      ReplyStored(t, c, id, body, o);
      hide AtMostOneReply;
      ReplyRecorded(t, c, id, body, Reply(t, c, id, body, o).0);
    }
  }

  /** What a send leaves behind: the provider's id on a delivered reply, none on one that failed or was never confirmed. */
  function SentRow(c: nat, id: M.Key, body: M.Body, r: SendResult, out: Option<M.Key>): M.Message {
    M.Message(c, M.Outbound, body, if r == Delivered then out else None, Some(id),
              Some(if r == Delivered then M.Sent else if r == Failed then M.Unconfirmed else M.Pending))
  }

  /** A delivered reply's id is known from then on: it cannot be claimed as a delivery, nor confirmed for another row. */
  lemma DeliveredIsKnown(t: M.Table, c: nat, id: M.Key, body: M.Body, o: Outside, k: M.Key, later: nat, other: nat)
    requires M.Valid(t) && o.out == Some(k) && Reply(t, c, id, body, o).1 == Delivered
    ensures var t' := Reply(t, c, id, body, o).0;
      && M.WaTaken(t', k) && M.Claim(t', later, k) == (t', None)
      && (other in t'.rows && other != t.next ==> M.ConfirmConflicts(t', other, Some(k)))
  {
    hide M.Valid, Reply;
    ReplyRecords(t, c, id, body, o);
    M.ConfirmedIsTaken(Reply(t, c, id, body, o).0, t.next, k, later, other);
  }

  lemma NextIsNew(t: M.Table)
    requires M.Valid(t)
    ensures t.next !in t.rows
  {
  }

  /** The row a send leaves, whichever way it went. */
  lemma ReplyStored(t: M.Table, c: nat, id: M.Key, body: M.Body, o: Outside)
    requires M.Valid(t) && !M.ReplyTaken(t, id)
    ensures var (t', r) := Reply(t, c, id, body, o);
      && M.Valid(t') && t'.rows.Keys == t.rows.Keys + {t.next} && (forall k :: k in t.rows ==> t'.rows[k] == t.rows[k])
      && IsReply(t'.rows[t.next], c, id) && t'.rows[t.next].body == body
      && (t'.rows[t.next].status == Some(M.Sent) <==> r == Delivered)
      && t'.rows[t.next] == SentRow(c, id, body, r, o.out)
  {
    hide M.Valid, M.ReplyTaken, M.WaTaken, M.InboundStored;
    NextIsNew(t);
    M.ReserveIsExclusive(t, c, id, body, 0, body);
    var reserved := M.Insert(t, M.ReservedRow(c, id, body));
    var (out, status) := if o.accepted then (o.out, M.Sent) else (None, M.Unconfirmed);
    M.ConfirmKeepsKeys(reserved, t.next, out, status);
    assert reserved.rows[t.next] == M.Message(c, M.Outbound, body, None, Some(id), Some(M.Pending));
  }

  lemma ReplyRecorded(t: M.Table, c: nat, id: M.Key, body: M.Body, t': M.Table)
    requires M.Valid(t) && M.Valid(t') && t'.rows.Keys == t.rows.Keys + {t.next}
    requires forall r :: r in t.rows ==> t'.rows[r] == t.rows[r]
    requires IsReply(t'.rows[t.next], c, id) && t'.rows[t.next].body == body
    ensures AtMostOneReply(t, t', c, id, IsWelcome(t'.rows[t.next]))
  {
  }

  /** What taking a delivery does: the message is stored in the customer's one active row. */
  lemma TakeTakes(w: World, st: Settings, e: Inbound, resumed: Option<nat>, now: C.Time)
    requires L.Inv(w.sessions) && M.Valid(w.messages)
    ensures var (w', row) := Take(w, st, e, resumed, now);
      && L.Inv(w'.sessions) && M.Valid(w'.messages) && w' == w.(sessions := w'.sessions, messages := w'.messages)
      && (row.None? <==> M.WaTaken(w.messages, e.id)) && (row.None? ==> w' == w)
      && (row.Some? ==>
            && C.ActiveFor(w'.sessions.table, e.user, row.value)
            && w'.messages == M.Insert(w.messages, M.InboundRow(row.value, e.id))
            && SessionTaken(w.sessions, w'.sessions, row.value)
            && (st.sessionEnabled ==> w'.sessions.table.rows[row.value].lastActivityAt == now))
  {
    hide L.Inv, L.Apply, M.Valid, M.WaTaken, M.InboundStored, M.ReplyTaken, OpenRow;
    var (s, c) := OpenRow(w.sessions, e.user, resumed, e.channel, now);
    OpenRowOpens(w.sessions, e.user, resumed, e.channel, now);
    M.ClaimIsExclusive(w.messages, c, e.id, 0);
    TouchIsAStep(w.(sessions := s, messages := M.Claim(w.messages, c, e.id).0), st, c, false, now);
  }

  /** Row c may be new or revived; every other row is as it was. */
  ghost predicate SessionTaken(s: L.State, s': L.State, c: nat) {
    && s'.owed == s.owed && s.table.next <= s'.table.next && c < s'.table.next && s'.table.rows.Keys == s.table.rows.Keys + {c}
    && (forall id :: id in s.table.rows && id != c ==> s'.table.rows[id] == s.table.rows[id])
    && (c in s.table.rows ==>
          s'.table.rows[c].welcomeSentAt == s.table.rows[c].welcomeSentAt && s'.table.rows[c].userId == s.table.rows[c].userId
          && s'.table.rows[c].mode == s.table.rows[c].mode && s'.table.rows[c].tag == s.table.rows[c].tag)
    && (c !in s.table.rows ==>
          c == s.table.next && s'.table.rows[c].welcomeSentAt.None? && s'.table.rows[c].mode == C.Bot && s'.table.rows[c].tag.None?)
  }

  // ---- one handler, read off its plan ------------------------------------------------------

  function BodyFor(plan: Plan): Option<M.Body> {
    match plan
    case Leave => None
    case Handoff(_) => Some(M.Acknowledgement)
    case Decline(notify) => if notify then Some(M.Notice) else None
    case Fixed(welcome) => Some(M.Answer(welcome))
    case Generate(welcome) => Some(M.Answer(welcome))
  }

  predicate Carries(plan: Plan) {
    (plan.Fixed? || plan.Generate?) && plan.welcome
  }

  function Outcome(t: M.Table, c: nat, id: M.Key, plan: Plan, o: Outside): (M.Table, SendResult) {
    if BodyFor(plan).None? then (t, Refused) else Reply(t, c, id, BodyFor(plan).value, o)
  }

  /** Whatever the plan, the transcript, the sender and the model see exactly this. */
  lemma PerformOutside(w: World, st: Settings, c: nat, e: Inbound, plan: Plan, o: Outside, now: C.Time)
    ensures var w' := Perform(w, st, c, e, plan, o, now);
      var (t, r) := Outcome(w.messages, c, e.id, plan, o);
      && w'.messages == t
      && w'.sent == (if r == Refused then w.sent else w.sent + [SentTo(e.user, e.id, BodyFor(plan).value)])
      && w'.completed == (if plan.Generate? && (e.id == M.EMPTY || e.id !in w.cache)
                          then w.completed + [CompletedFor(e.user, e.id)] else w.completed)
  {
  }

  /** And its session row is left human by a handoff, greeted by a delivered welcome, otherwise as it was. */
  lemma PerformSession(w: World, st: Settings, c: nat, e: Inbound, plan: Plan, o: Outside, now: C.Time)
    requires L.Inv(w.sessions) && c in w.sessions.table.rows
    ensures var w' := Perform(w, st, c, e, plan, o, now);
      && L.Inv(w'.sessions) && OnlyRow(w.sessions, w'.sessions, c)
      && var (a, b) := (w.sessions.table.rows[c], w'.sessions.table.rows[c]);
      && b.mode == (if plan.Handoff? then C.Human else a.mode)
      && b.tag == (if plan.Handoff? && plan.tag.Some? then plan.tag else a.tag)
      && (plan.Handoff? ==> b.operator.None? && b.handoffAt == Some(now))
      && (a.lastActivityAt == now ==> b.lastActivityAt == now)
      && (b.welcomeSentAt.Some? <==>
            a.welcomeSentAt.Some? || (Carries(plan) && Outcome(w.messages, c, e.id, plan, o).1 == Delivered))
  {
    hide L.Inv, L.Apply, Reply, RecordWelcome;
    match plan
    case Leave =>
    case Handoff(tag) =>
      HandoffIsAStep(w.sessions, c, tag, now);
      TouchIsAStep(Do(w, L.SwitchMode(c, C.Human, None, tag, now)), st, c, true, now);
    case Decline(_) => TouchIsAStep(w, st, c, true, now);
    case Fixed(welcome) => AnswerSession(w, st, c, e, welcome, o, now);
    case Generate(welcome) => AnswerSession(Complete(w, e.user, e.id, o), st, c, e, welcome, o, now);
  }

  lemma AnswerSession(w: World, st: Settings, c: nat, e: Inbound, welcome: bool, o: Outside, now: C.Time)
    requires L.Inv(w.sessions) && c in w.sessions.table.rows
    ensures var s' := RecordWelcome(SendOnce(w, st, c, e.user, e.id, M.Answer(welcome), o, now), welcome, c, now).sessions;
      && L.Inv(s') && OnlyRow(w.sessions, s', c)
      && s'.table.rows[c].mode == w.sessions.table.rows[c].mode && s'.table.rows[c].tag == w.sessions.table.rows[c].tag
      && (w.sessions.table.rows[c].lastActivityAt == now ==> s'.table.rows[c].lastActivityAt == now)
      && (s'.table.rows[c].welcomeSentAt.Some? <==>
            w.sessions.table.rows[c].welcomeSentAt.Some?
            || (welcome && Reply(w.messages, c, e.id, M.Answer(welcome), o).1 == Delivered))
  {
    hide L.Inv, L.Apply, Reply;
    TouchIsAStep(w, st, c, true, now);
    GreetIsAStep(Touch(w, st, c, true, now).sessions, c, now);
  }

  lemma HandoffIsAStep(s: L.State, c: nat, tag: Option<C.Tag>, now: C.Time)
    requires L.Inv(s) && c in s.table.rows
    ensures var s' := L.Apply(s, L.SwitchMode(c, C.Human, None, tag, now));
      && L.Inv(s') && OnlyRow(s, s', c)
      && s'.table.rows[c].mode == C.Human && s'.table.rows[c].welcomeSentAt == s.table.rows[c].welcomeSentAt
      && s'.table.rows[c].tag == (if tag.Some? then tag else s.table.rows[c].tag)
      && s'.table.rows[c].operator.None? && s'.table.rows[c].handoffAt == Some(now) && s'.table.rows[c].lastActivityAt == now
  {
  }

  lemma GreetIsAStep(s: L.State, c: nat, now: C.Time)
    requires L.Inv(s) && c in s.table.rows
    ensures var s' := L.Apply(s, L.Greet(c, now));
      && L.Inv(s') && OnlyRow(s, s', c)
      && s'.table.rows[c].mode == s.table.rows[c].mode && s'.table.rows[c].welcomeSentAt.Some?
      && s'.table.rows[c].tag == s.table.rows[c].tag && s'.table.rows[c].lastActivityAt == s.table.rows[c].lastActivityAt
  {
  }
}
