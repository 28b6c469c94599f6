/**
 ChatService (app/services/chat_service.py) with its tables, its sender and its
 generation cache updated in place, one handler at a time.  Each method is
 proved to do what ChatFlow says, so the guarantees over sequences of actions
 hold of these handlers.
 */
module ChatService {
  import opened Common
  import opened ChatFlow
  import M = Messages
  import C = Conversations
  import L = SessionLifecycle
  import S = ConversationStore

  class ChatService {
    const st: Settings
    const sessions: S.ConversationTable
    const messages: M.MessageTable
    var sent: seq<Sent>              // calls of the sender
    var completed: seq<Completed>    // calls of the model
    var cache: set<M.Key>            // generations that survive a retry

    ghost function Contents(): World
      reads this, sessions, messages
    {
      World(sessions.Contents(), messages.Contents(), sent, completed, cache)
    }

    ghost predicate Valid()
      reads this, sessions, messages
    {
      L.Inv(sessions.Contents()) && M.Valid(messages.Contents())
    }

    constructor (st: Settings)
      ensures Valid() && fresh(sessions) && fresh(messages)
      ensures this.st == st && Contents() == World(L.Init(), M.Table(map[], 0), [], [], {})
    {
      this.st, sent, completed, cache := st, [], [], {};
      sessions := new S.ConversationTable();
      messages := new M.MessageTable();
    }

    method TouchTimer(c: nat, outgoing: bool, now: C.Time)
      requires Valid()
      modifies sessions
      ensures Valid() && Contents() == Touch(old(Contents()), st, c, outgoing, now)
    {
      if !st.sessionEnabled {
        return;
      }
      if outgoing && !st.resetOnOutgoing {
        return;
      }
      sessions.Touch(c, now);
    }

    method SendOnce(c: nat, user: nat, id: M.Key, body: M.Body, o: Outside, now: C.Time) returns (r: SendResult)
      requires Valid()
      modifies this, sessions, messages
      ensures Valid() && (Contents(), r) == ChatFlow.SendOnce(old(Contents()), st, c, user, id, body, o, now)
      ensures completed == old(completed) && cache == old(cache)
    {
      hide L.Inv, M.Valid, L.Apply, M.ReplyTaken, M.WaTaken, M.ConfirmConflicts, M.InboundStored, M.Confirm, Reply;
      ReplyCases(messages.Contents(), c, id, body, o);
      var reserved := messages.ReserveReply(c, id, body);
      if reserved.None? {
        return Refused;
      }
      TouchTimer(c, true, now);
      sent := sent + [SentTo(user, id, body)];
      if !o.accepted {
        var _ := messages.ConfirmReply(reserved.value, None, M.Unconfirmed);
        return Failed;
      }
      var ok := messages.ConfirmReply(reserved.value, o.out, M.Sent);
      if !ok {
        return Raised;
      }
      TouchTwice(old(Contents()).sessions, c, now);
      TouchTimer(c, true, now);
      return Delivered;
    }

    method RecordWelcome(c: nat, now: C.Time)
      requires Valid()
      modifies sessions
      ensures Valid() && Contents() == Do(old(Contents()), L.Greet(c, now))
    {
      sessions.MarkWelcomeSent(c, now);
    }

    method SendFixed(c: nat, e: Inbound, body: M.Body, welcome: bool, o: Outside, now: C.Time)
      requires Valid()
      modifies this, sessions, messages
      ensures Valid() && Contents() ==
        ChatFlow.RecordWelcome(ChatFlow.SendOnce(old(Contents()), st, c, e.user, e.id, body, o, now), welcome, c, now)
      ensures body == M.Answer(welcome) ==> Contents() == Perform(old(Contents()), st, c, e, Fixed(welcome), o, now)
    {
      hide L.Inv, M.Valid, L.Apply, ChatFlow.SendOnce;
      var r := SendOnce(c, e.user, e.id, body, o, now);
      if r == Delivered && welcome {
        RecordWelcome(c, now);
      }
    }

    method BeginHandoff(c: nat, e: Inbound, tag: Option<C.Tag>, o: Outside, now: C.Time)
      requires Valid()
      modifies this, sessions, messages
      ensures Valid() && Contents() == Perform(old(Contents()), st, c, e, Handoff(tag), o, now)
      ensures completed == old(completed) && cache == old(cache)
    {
      hide L.Inv, M.Valid, L.Apply, ChatFlow.SendOnce;
      sessions.SetMode(c, C.Human, None, tag, now);
      var _ := SendOnce(c, e.user, e.id, M.Acknowledgement, o, now);
    }

    /** True when the message must not reach the model. */
    method HandledByHuman(c: nat, e: Inbound, o: Outside, now: C.Time) returns (handled: bool)
      requires Valid() && c in sessions.rows
      modifies this, sessions, messages
      ensures handled <==> old(sessions.rows[c].mode) == C.Human || (!e.kind.UnsupportedMessage? && (e.negotiating || e.wantsHuman))
      ensures completed == old(completed) && cache == old(cache)
      ensures Valid() && var plan := HumanPlan(e, old(sessions.rows[c].mode));
        && handled == plan.Some?
        && Contents() == (if handled then Perform(old(Contents()), st, c, e, plan.value, o, now) else old(Contents()))
    {
      hide L.Inv, M.Valid, L.Apply, Perform;
      if sessions.rows[c].mode == C.Human {
        PerformLeave(Contents(), st, c, e, o, now);
        return true;
      }
      if e.kind.UnsupportedMessage? {
        return false;
      }
      if e.negotiating {
        BeginHandoff(c, e, Some(C.SalesLead), o, now);
        return true;
      }
      if e.wantsHuman {
        BeginHandoff(c, e, if e.salesLead then Some(C.SalesLead) else None, o, now);
        return true;
      }
      return false;
    }

    method WithinQuota(c: nat, e: Inbound, o: Outside, now: C.Time) returns (allowed: bool)
      requires Valid()
      modifies this, sessions, messages
      ensures Valid() && allowed == (e.quota == Allowed)
      ensures Contents() ==
        if allowed then old(Contents()) else Perform(old(Contents()), st, c, e, Decline(e.quota == RefusedWithNotice), o, now)
    {
      hide L.Inv, M.Valid, L.Apply, ChatFlow.SendOnce;
      if e.quota == RefusedWithNotice {
        SendFixed(c, e, M.Notice, false, o, now);
      }
      return e.quota == Allowed;
    }

    method GenerateAndSend(c: nat, e: Inbound, welcome: bool, o: Outside, now: C.Time)
      requires Valid()
      modifies this, sessions, messages
      ensures Valid() && Contents() == Perform(old(Contents()), st, c, e, Generate(welcome), o, now)
    {
      hide L.Inv, M.Valid, L.Apply, ChatFlow.SendOnce;
      if e.id == M.EMPTY || e.id !in cache {
        completed := completed + [CompletedFor(e.user, e.id)];
        if o.generated && o.cached && e.id != M.EMPTY {
          cache := cache + {e.id};
        }
      }
      var r := SendOnce(c, e.user, e.id, M.Answer(welcome), o, now);
      if r == Delivered {
        if welcome {
          RecordWelcome(c, now);
        }
        cache := cache - {e.id};
      }
    }

    /** _context, claim_inbound, touch and commit; a duplicate rolls the whole transaction back. */
    method TakeDelivery(e: Inbound, reopenWithin: Option<C.Time>, now: C.Time)
      returns (row: Option<nat>, resumed: Option<nat>)
      requires Valid()
      modifies sessions, messages
      ensures Valid() && (Contents(), row) == Take(old(Contents()), st, e, resumed, now)
      ensures Resumes(old(Contents()).sessions.table, e.user, reopenWithin, now, resumed)
    {
      hide L.Inv, M.Valid, L.Apply, S.Youngest;
      ghost var before := sessions.Contents();
      var rows, next := sessions.rows, sessions.next;
      var c := sessions.OpenUndisturbed(e.user, reopenWithin, e.channel, now);
      resumed := if Holder(rows, e.user) || c !in rows then None else Some(c);
      OpenedIsOpenRow(before, sessions.Contents(), e, reopenWithin, now, c, resumed);
      var got := messages.ClaimInbound(c, e.id);
      if got.None? {
        sessions.rows, sessions.next := rows, next;
        return None, resumed;
      }
      TouchTimer(c, false, now);
      row := Some(c);
    }

    method HandleTextMessage(e: Inbound, reopenWithin: Option<C.Time>, o: Outside, now: C.Time) returns (resumed: Option<nat>)
      requires Valid() && e.kind.TextMessage?
      modifies this, sessions, messages
      ensures Valid() && Contents() == Handle(old(Contents()), st, e, resumed, o, now)
      ensures Resumes(old(Contents()).sessions.table, e.user, reopenWithin, now, resumed)
    {
      hide L.Inv, M.Valid, Take, Perform, ShouldWelcome, Resumes;
      ghost var before := Contents();
      var row;
      row, resumed := TakeDelivery(e, reopenWithin, now);
      TakeTakes(before, st, e, resumed, now);
      if row.None? {
        return;
      }
      var c := row.value;
      var handled := HandledByHuman(c, e, o, now);
      if handled {
        return;
      }
      var within := WithinQuota(c, e, o, now);
      if !within {
        return;
      }
      var first := ShouldWelcome(st, C.Table(sessions.rows, sessions.next), c);
      if first && e.kind.courtesy {
        first := false;
      }
      if first && e.kind.unintelligible {
        SendFixed(c, e, M.Answer(true), true, o, now);
        return;
      }
      if first && e.kind.greeting {
        SendFixed(c, e, M.Answer(true), true, o, now);
        return;
      }
      if e.kind.scope == OutOfScope {
        SendFixed(c, e, M.Answer(first), first, o, now);
        return;
      }
      GenerateAndSend(c, e, first, o, now);
    }

    method HandleInteractiveMessage(e: Inbound, reopenWithin: Option<C.Time>, o: Outside, now: C.Time)
      returns (resumed: Option<nat>)
      requires Valid() && e.kind.InteractiveMessage?
      modifies this, sessions, messages
      ensures Valid() && Contents() == Handle(old(Contents()), st, e, resumed, o, now)
      ensures Resumes(old(Contents()).sessions.table, e.user, reopenWithin, now, resumed)
    {
      hide L.Inv, M.Valid, Take, Perform, ShouldWelcome, Resumes;
      ghost var before := Contents();
      var row;
      row, resumed := TakeDelivery(e, reopenWithin, now);
      TakeTakes(before, st, e, resumed, now);
      if row.None? {
        return;
      }
      var c := row.value;
      var handled := HandledByHuman(c, e, o, now);
      if handled {
        return;
      }
      var within := WithinQuota(c, e, o, now);
      if !within {
        return;
      }
      var first := ShouldWelcome(st, C.Table(sessions.rows, sessions.next), c);
      match e.kind.selection
      case SalesChoice => BeginHandoff(c, e, Some(C.SalesLead), o, now);
      case EmployeeChoice => BeginHandoff(c, e, None, o, now);
      case ServiceChoice => SendFixed(c, e, M.Answer(first), first, o, now);
      case OtherChoice => GenerateAndSend(c, e, first, o, now);
    }

    method HandleMediaMessage(e: Inbound, reopenWithin: Option<C.Time>, o: Outside, now: C.Time) returns (resumed: Option<nat>)
      requires Valid() && e.kind.MediaMessage?
      modifies this, sessions, messages
      ensures Valid() && Contents() == Handle(old(Contents()), st, e, resumed, o, now)
      ensures Resumes(old(Contents()).sessions.table, e.user, reopenWithin, now, resumed)
    {
      hide L.Inv, M.Valid, Take, Perform, ShouldWelcome, Resumes;
      ghost var before := Contents();
      var row;
      row, resumed := TakeDelivery(e, reopenWithin, now);
      TakeTakes(before, st, e, resumed, now);
      if row.None? {
        return;
      }
      var c := row.value;
      var handled := HandledByHuman(c, e, o, now);
      if handled {
        return;
      }
      var within := WithinQuota(c, e, o, now);
      if !within {
        return;
      }
      var first := ShouldWelcome(st, C.Table(sessions.rows, sessions.next), c);
      GenerateAndSend(c, e, first, o, now);
    }

    /** No quota check: nothing here reaches the model. */
    method HandleUnsupportedMessage(e: Inbound, reopenWithin: Option<C.Time>, o: Outside, now: C.Time)
      returns (resumed: Option<nat>)
      requires Valid() && e.kind.UnsupportedMessage?
      modifies this, sessions, messages
      ensures Valid() && Contents() == Handle(old(Contents()), st, e, resumed, o, now)
      ensures Resumes(old(Contents()).sessions.table, e.user, reopenWithin, now, resumed)
    {
      hide L.Inv, M.Valid, Take, Perform, ShouldWelcome, Resumes;
      ghost var before := Contents();
      var row;
      row, resumed := TakeDelivery(e, reopenWithin, now);
      TakeTakes(before, st, e, resumed, now);
      if row.None? {
        return;
      }
      var c := row.value;
      var handled := HandledByHuman(c, e, o, now);
      if handled {
        return;
      }
      var first := ShouldWelcome(st, C.Table(sessions.rows, sessions.next), c);
      SendFixed(c, e, M.Answer(first), first, o, now);
    }
  }

  predicate Holder(rows: map<nat, C.Conversation>, user: nat) {
    exists id :: id in rows && rows[id].userId == user && rows[id].status == C.Active
  }

  /** A closed session is resumed exactly when one closed inside the window, and then the youngest. */
  ghost predicate Resumes(t: C.Table, user: nat, reopenWithin: Option<C.Time>, now: C.Time, resumed: Option<nat>) {
    && (resumed.Some? <==> S.Resumable(t, user, reopenWithin, now))
    && (resumed.Some? ==> S.Youngest(t, user, now - reopenWithin.value, resumed.value))
  }

  lemma OpenedIsOpenRow(s: L.State, s': L.State, e: Inbound, reopenWithin: Option<C.Time>, now: C.Time, c: nat, resumed: Option<nat>)
    requires L.Inv(s) && S.Opening(s, s', e.user, reopenWithin, e.channel, now, c)
    requires resumed == if Holder(s.table.rows, e.user) || c !in s.table.rows then None else Some(c)
    ensures (s', c) == OpenRow(s, e.user, resumed, e.channel, now)
    ensures Resumes(s.table, e.user, reopenWithin, now, resumed)
  {
    hide L.Apply;
    assert Holder(s.table.rows, e.user) <==> C.HasActive(s.table, e.user) by {
      if Holder(s.table.rows, e.user) {
        var id :| id in s.table.rows && s.table.rows[id].userId == e.user && s.table.rows[id].status == C.Active;
        assert C.ActiveFor(s.table, e.user, id);
      }
    }
  }

  lemma ReplyCases(t: M.Table, c: nat, id: M.Key, body: M.Body, o: Outside)
    ensures var (reserved, row) := M.Reserve(t, c, id, body);
      Reply(t, c, id, body, o) ==
        if row.None? then (t, Refused)
        else if !o.accepted then (M.Confirm(reserved, row.value, None, M.Unconfirmed), Failed)
        else (M.Confirm(reserved, row.value, o.out, M.Sent), if M.ConfirmConflicts(reserved, row.value, o.out) then Raised else Delivered)
  {
  }

  lemma TouchTwice(s: L.State, c: nat, now: C.Time)
    ensures L.Apply(L.Apply(s, L.TouchRow(c, now)), L.TouchRow(c, now)) == L.Apply(s, L.TouchRow(c, now))
  {
  }

  lemma PerformLeave(w: World, st: Settings, c: nat, e: Inbound, o: Outside, now: C.Time)
    ensures Perform(w, st, c, e, Leave, o, now) == w
  {
  }
}
