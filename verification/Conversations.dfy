/**
 The conversations table (app/repositories/conversation.py,
 app/models/conversation.py), one function per SQL statement.  The partial
 unique index allows one active row per user.
 */
module Conversations {
  import opened Common

  type Time = int

  datatype Status = Active | Closed
  datatype Mode = Bot | Human
  datatype Tag = SalesLead
  datatype Channel = WhatsApp | Messenger | InstagramDm | FacebookComments | InstagramComments

  datatype Conversation = Conversation(
    userId: nat,
    channel: Channel,
    status: Status,
    mode: Mode,
    tag: Option<Tag>,
    operator: Option<string>,
    handoffAt: Option<Time>,
    lastActivityAt: Time,
    welcomeSentAt: Option<Time>,
    closingSentAt: Option<Time>,
    closedAt: Option<Time>)

  datatype Table = Table(rows: map<nat, Conversation>, next: nat)

  /** SWEEPABLE_CHANNELS */
  predicate Sweepable(c: Channel) {
    c == WhatsApp || c == Messenger
  }

  predicate ActiveFor(t: Table, user: nat, id: nat) {
    id in t.rows && t.rows[id].status == Active && t.rows[id].userId == user
  }

  predicate HasActive(t: Table, user: nat) {
    exists id :: id in t.rows && ActiveFor(t, user, id)
  }

  /** uq_active_conversation_per_user, and ids come from a sequence. */
  ghost predicate OneActive(t: Table) {
    && (forall i :: i in t.rows ==> i < t.next)
    && (forall i, j | i in t.rows && j in t.rows && t.rows[i].userId == t.rows[j].userId ::
          t.rows[i].status == Active && t.rows[j].status == Active ==> i == j)
  }

  function NewRow(user: nat, channel: Channel, now: Time): Conversation {
    Conversation(user, channel, Active, Bot, None, None, None, now, None, None, None)
  }

  /** INSERT ... ON CONFLICT (user_id) WHERE status = 'active' DO NOTHING RETURNING id */
  function Insert(t: Table, user: nat, channel: Channel, now: Time): (Table, Option<nat>) {
    if HasActive(t, user) then (t, None)
    else (Table(t.rows[t.next := NewRow(user, channel, now)], t.next + 1), Some(t.next))
  }

  /** _REVIVE; welcome_sent_at is not listed. */
  function Revived(c: Conversation, now: Time): Conversation {
    c.(status := Active, closedAt := None, closingSentAt := None, lastActivityAt := now)
  }

  /** _revive on one id: no closed row matched, or the index refused it and the savepoint was rolled back. */
  function Revive(t: Table, id: nat, now: Time): (Table, Option<nat>) {
    if id !in t.rows || t.rows[id].status == Active || HasActive(t, t.rows[id].userId) then (t, None)
    else (t.(rows := t.rows[id := Revived(t.rows[id], now)]), Some(id))
  }

  /** set_mode: the tag is only ever set; owner and handoff time follow the mode. */
  function Switched(c: Conversation, mode: Mode, operator: Option<string>, tag: Option<Tag>, now: Time): Conversation {
    c.(mode := mode,
       tag := if tag.Some? then tag else c.tag,
       operator := if mode == Human then operator else None,
       handoffAt := if mode == Human then Some(now) else None,
       lastActivityAt := now)
  }

  function SetMode(t: Table, id: nat, mode: Mode, operator: Option<string>, tag: Option<Tag>, now: Time): Table {
    if id !in t.rows then t else t.(rows := t.rows[id := Switched(t.rows[id], mode, operator, tag, now)])
  }

  function Touch(t: Table, id: nat, now: Time): Table {
    if id !in t.rows then t else t.(rows := t.rows[id := t.rows[id].(lastActivityAt := now)])
  }

  /** UPDATE ... SET welcome_sent_at WHERE id AND welcome_sent_at IS NULL */
  function MarkWelcomeSent(t: Table, id: nat, now: Time): Table {
    if id !in t.rows || t.rows[id].welcomeSentAt.Some? then t
    else t.(rows := t.rows[id := t.rows[id].(welcomeSentAt := Some(now))])
  }

  /** What claim_idle_sessions may take. */
  predicate Candidate(c: Conversation, idleBefore: Time) {
    && c.status == Active && c.mode == Bot && Sweepable(c.channel)
    && c.closingSentAt.None? && c.lastActivityAt < idleBefore
  }

  function Candidates(t: Table, idleBefore: Time): set<nat> {
    set id | id in t.rows && Candidate(t.rows[id], idleBefore)
  }

  function ClaimRows(t: Table, ids: set<nat>, now: Time): Table {
    t.(rows := map id | id in t.rows ::
         if id in ids then t.rows[id].(closingSentAt := Some(now)) else t.rows[id])
  }

  /** close: conditioned on nothing but the id. */
  function Close(t: Table, id: nat, now: Time): Table {
    if id !in t.rows then t
    else t.(rows := t.rows[id := t.rows[id].(status := Closed, closedAt := Some(now))])
  }

  function Delete(t: Table, id: nat): Table {
    t.(rows := t.rows - {id})
  }

  // ---- the five-state view ------------------------------------------------------

  datatype SessionState = ACTIVE_BOT | ACTIVE_HUMAN | WAITING_IDLE | CLOSING | CLOSED

  function DeriveSessionState(c: Conversation, idleAfter: Time, now: Time): SessionState {
    if c.status != Active then CLOSED
    else if c.closingSentAt.Some? then CLOSING
    else if c.mode == Human then ACTIVE_HUMAN
    else if now - c.lastActivityAt >= idleAfter then WAITING_IDLE
    else ACTIVE_BOT
  }

  /**
   The sweeper acts on exactly the sessions shown as WAITING_IDLE, except those
   on a channel it cannot send on and those idle for exactly the timeout.
   */
  lemma ClaimableExactlyWhenWaiting(c: Conversation, idleAfter: Time, now: Time)
    ensures Candidate(c, now - idleAfter) <==>
            DeriveSessionState(c, idleAfter, now) == WAITING_IDLE && (c.channel == WhatsApp || c.channel == Messenger)
            && now - c.lastActivityAt != idleAfter
  {
  }
}
