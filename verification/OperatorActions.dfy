/**
 What an operator may do to a conversation (app/services/reply_service.py,
 app/services/admin_service.py): every entry point revives a closed session
 first, or refuses because the customer has moved on.
 */
module OperatorActions {
  import opened Common
  import opened Conversations
  import M = Messages
  import L = SessionLifecycle
  import S = ConversationStore

  const CUSTOMER_SERVICE_WINDOW: Time := 24 * 3600

  datatype Verdict =
    | Done
    | NotFound | Superseded                             // the conversation
    | Unaddressable | ChannelUnavailable | OutsideWindow  // the customer
    | NotAccepted | Clashed                             // the platform, and its message id

  /** Whether an operator's action can reach this row: gone, superseded, or live after a revive. */
  function Access(t: Table, id: nat): Verdict {
    if id !in t.rows then NotFound
    else if t.rows[id].status == Closed && HasActive(t, t.rows[id].userId) then Superseded
    else Done
  }

  /** The state the action then works on: committed before anything else can fail. */
  function Live(s: L.State, id: nat, now: Time): L.State {
    if Access(s.table, id) == Done && s.table.rows[id].status == Closed then L.Apply(s, L.Reopen(id, now)) else s
  }

  /** An accessible row ends up as its customer's one active row, wherever it stood before. */
  lemma LiveIsActive(s: L.State, id: nat, now: Time)
    requires L.Inv(s) && Access(s.table, id) == Done
    ensures L.Inv(Live(s, id, now)) && Live(s, id, now).owed == s.owed
    ensures ActiveFor(Live(s, id, now).table, s.table.rows[id].userId, id)
    ensures Live(s, id, now).table.rows[id].welcomeSentAt == s.table.rows[id].welcomeSentAt
    ensures s.table.rows[id].status == Closed ==> Live(s, id, now).table.rows[id].closingSentAt.None? && id !in s.owed
    ensures Live(s, id, now).table.rows[id].mode == s.table.rows[id].mode && Live(s, id, now).table.rows[id].tag == s.table.rows[id].tag
    ensures s.table.rows[id].status == Active ==> Live(s, id, now) == s
  {
    L.StepKeeps(s, L.Reopen(id, now));
  }

  /** What is known about the customer: an id to write to, an adapter, and when they last wrote. */
  datatype Reach = Reach(addressable: bool, adapter: bool, lastInbound: Option<Time>)

  function Reachable(q: Reach, now: Time): Verdict {
    if !q.addressable then Unaddressable
    else if !q.adapter then ChannelUnavailable
    else if q.lastInbound.None? || now - q.lastInbound.value > CUSTOMER_SERVICE_WINDOW then OutsideWindow
    else Done
  }

  class OperatorDesk {
    const sessions: S.ConversationTable
    const messages: M.MessageTable
    const resetsTimer: bool
    var sent: seq<nat>   // conversations a manual reply was handed to the platform for

    ghost predicate Valid()
      reads this, sessions, messages
    {
      L.Inv(sessions.Contents()) && M.Valid(messages.Contents())
    }

    constructor (sessions: S.ConversationTable, messages: M.MessageTable, resetsTimer: bool)
      requires L.Inv(sessions.Contents()) && M.Valid(messages.Contents())
      ensures Valid() && sent == [] && this.sessions == sessions && this.messages == messages
    {
      this.sessions, this.messages, this.resetsTimer, sent := sessions, messages, resetsTimer, [];
    }

    /** revive_for_operator, on a conversation that was found. */
    method ReviveForOperator(id: nat, now: Time) returns (v: Verdict)
      requires Valid() && id in sessions.rows
      modifies sessions
      ensures Valid() && v == Access(old(sessions.Contents()).table, id)
      ensures sessions.Contents() == Live(old(sessions.Contents()), id, now) && id in sessions.rows
    {
      hide L.Inv, L.Apply;
      if sessions.rows[id].status != Closed {
        return Done;
      }
      var revived := sessions.ReviveRow(id, now);
      v := if revived.None? then Superseded else Done;
    }

    /** _switch_mode: take_over is mode Human, resume_ai mode Bot with no owner. */
    method SwitchMode(id: nat, mode: Mode, operator: Option<string>, now: Time) returns (v: Verdict)
      requires Valid()
      modifies sessions
      ensures Valid() && v == Access(old(sessions.Contents()).table, id)
      ensures sessions.Contents() ==
        if v == Done then L.Apply(Live(old(sessions.Contents()), id, now), L.SwitchMode(id, mode, operator, None, now))
        else old(sessions.Contents())
      ensures v == NotFound <==> id !in old(sessions.rows)
      ensures v == Superseded <==>
        && id in old(sessions.rows) && old(sessions.rows)[id].status == Closed
        && HasActive(old(sessions.Contents()).table, old(sessions.rows)[id].userId)
      ensures v == Done ==> id in sessions.rows && sessions.rows[id].mode == mode
    {
      hide L.Inv, L.Apply;
      if id !in sessions.rows {
        return NotFound;
      }
      v := ReviveForOperator(id, now);
      if v == Done {
        sessions.SetMode(id, mode, operator, None, now);
      }
    }

    /** The bot stops answering: from here HumanMeansSilence applies, unless a sweeper is already closing the row. */
    method TakeOver(id: nat, operator: Option<string>, now: Time) returns (v: Verdict)
      requires Valid()
      modifies sessions
      ensures Valid() && v == Access(old(sessions.Contents()).table, id)
      ensures v != Done ==> sessions.Contents() == old(sessions.Contents())
      ensures v == Done && id !in old(sessions.owed) ==>
        L.HeldByHuman(sessions.Contents(), id, old(sessions.rows[id].userId)) && sessions.rows[id].operator == operator
    {
      ghost var before := sessions.Contents();
      if Access(Table(sessions.rows, sessions.next), id) == Done {
        LiveIsActive(before, id, now);
      }
      v := SwitchMode(id, Human, operator, now);
    }

    method ResumeAi(id: nat, now: Time) returns (v: Verdict)
      requires Valid()
      modifies sessions
      ensures Valid() && v == Access(old(sessions.Contents()).table, id)
      ensures v != Done ==> sessions.Contents() == old(sessions.Contents())
      ensures v == Done ==> ActiveFor(sessions.Contents().table, old(sessions.rows[id].userId), id)
      ensures v == Done ==> var c := sessions.rows[id];
        c.mode == Bot && c.operator == None && c.handoffAt == None && c.tag == old(sessions.rows[id].tag) && c.lastActivityAt == now
    {
      ghost var before := sessions.Contents();
      if Access(Table(sessions.rows, sessions.next), id) == Done {
        LiveIsActive(before, id, now);
      }
      v := SwitchMode(id, Bot, None, now);
    }

    /**
     A reply is recorded exactly when the platform accepted it under a new id; it
     is handed over exactly when nothing before refused.  A refusal on reach
     leaves the revived session open.
     */
    method SendManualReply(id: nat, q: Reach, accepted: bool, out: Option<M.Key>, now: Time) returns (v: Verdict)
      requires Valid()
      modifies this`sent, sessions, messages
      ensures Valid()
      ensures var access := Access(old(sessions.Contents()).table, id);
        var clash := out.Some? && M.WaTaken(old(messages.Contents()), out.value);
        v == if access != Done then access
             else if Reachable(q, now) != Done then Reachable(q, now)
             else if !accepted then NotAccepted
             else if clash then Clashed
             else Done
      ensures sent == if v in {Done, NotAccepted, Clashed} then old(sent) + [id] else old(sent)
      ensures v == NotFound <==> id !in old(sessions.rows)
      ensures v == Superseded <==>
        && id in old(sessions.rows) && old(sessions.rows)[id].status == Closed
        && HasActive(old(sessions.Contents()).table, old(sessions.rows)[id].userId)
      ensures v == Unaddressable ==> !q.addressable
      ensures v == ChannelUnavailable ==> q.addressable && !q.adapter
      ensures v == OutsideWindow ==> q.addressable && q.adapter && (q.lastInbound.None? || now > q.lastInbound.value + 86400)
      ensures v == NotAccepted ==> !accepted
      ensures v == Clashed ==> accepted && out.Some? && exists r :: r in old(messages.rows) && old(messages.rows)[r].waMessageId == out
      ensures v in {Done, NotAccepted, Clashed} <==>
        && id in old(sessions.rows)
        && (old(sessions.rows)[id].status == Active || !HasActive(old(sessions.Contents()).table, old(sessions.rows)[id].userId))
        && q.addressable && q.adapter && q.lastInbound.Some? && now <= q.lastInbound.value + 86400
      ensures v == Done ==> accepted
      ensures messages.Contents() ==
        if v == Done then M.Unprompted(old(messages.Contents()), id, false, out) else old(messages.Contents())
      ensures sessions.Contents() ==
        if v == Done && resetsTimer then L.Apply(Live(old(sessions.Contents()), id, now), L.TouchRow(id, now))
        else Live(old(sessions.Contents()), id, now)
    {
      hide L.Inv, L.Apply, M.Valid, M.WaTaken;
      if id !in sessions.rows {
        return NotFound;
      }
      v := ReviveForOperator(id, now);
      if v != Done {
        return;
      }
      if !q.addressable {
        return Unaddressable;
      }
      if !q.adapter {
        return ChannelUnavailable;
      }
      if q.lastInbound.None? {
        return OutsideWindow;
      }
      if now - q.lastInbound.value > CUSTOMER_SERVICE_WINDOW {
        return OutsideWindow;
      }
      sent := sent + [id];
      if !accepted {
        return NotAccepted;
      }
      var created := messages.CreateManual(id, out);
      if created.None? {
        return Clashed;
      }
      if resetsTimer {
        sessions.Touch(id, now);
      }
      return Done;
    }
  }
}
