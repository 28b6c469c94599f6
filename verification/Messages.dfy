/**
 The messages table (app/repositories/message.py, app/models/message.py): a row
 store with two unique nullable columns, `wa_message_id` and
 `reply_to_wa_message_id`.  The functions give each statement's effect on a
 table value; the class is the repository that applies them in place.
 */
module Messages {
  import opened Common

  /**
   A provider's message id or a reservation key.  A string either starts with the
   invitation prefix or it does not: `Invite(k)` is the prefix followed by k, and
   `Plain(n)` is the n-th string without the prefix, `Plain(0)` the empty one.
   KeysAreStrings shows that nothing is lost by this reading.
   */
  datatype Key = Plain(name: nat) | Invite(of: Key)

  const RESERVATION_PREFIX := "dm_invite:"
  const EMPTY := Plain(0)

  /** reservation_key */
  function ReservationKey(commentId: Key): Key {
    Invite(commentId)
  }

  function Text(k: Key, names: nat -> string): string {
    match k
    case Plain(n) => names(n)
    case Invite(of) => RESERVATION_PREFIX + Text(of, names)
  }

  /** Two keys are equal exactly when their strings are, for any naming of the prefix-free strings. */
  lemma {:induction false} KeysAreStrings(a: Key, b: Key, names: nat -> string)
    requires forall n :: !(RESERVATION_PREFIX <= names(n))
    requires forall n, m :: names(n) == names(m) ==> n == m
    ensures Text(a, names) == Text(b, names) <==> a == b
  {
    if a.Invite? && b.Invite? {
      KeysAreStrings(a.of, b.of, names);
      assert Text(a, names)[|RESERVATION_PREFIX|..] == Text(a.of, names);
      assert Text(b, names)[|RESERVATION_PREFIX|..] == Text(b.of, names);
    } else if a.Invite? {
      assert RESERVATION_PREFIX <= Text(a, names);
    } else if b.Invite? {
      assert RESERVATION_PREFIX <= Text(b, names);
    }
  }

  datatype Direction = Inbound | Outbound
  datatype Status = Pending | Sent | Unconfirmed

  /** What a body is for.  The wording is never inspected, only whether it carries the welcome. */
  datatype Body = FromCustomer | Answer(welcome: bool) | Acknowledgement | Notice | Invitation | FromOperator | Goodbye

  datatype Message = Message(
    conversationId: nat,
    direction: Direction,
    body: Body,
    waMessageId: Option<Key>,
    replyTo: Option<Key>,
    status: Option<Status>)

  /** Row ids come from a sequence and are never reused, even after a delete. */
  datatype Table = Table(rows: map<nat, Message>, next: nat)

  predicate WaTaken(t: Table, id: Key) {
    exists r :: r in t.rows && t.rows[r].waMessageId == Some(id)
  }

  predicate ReplyTaken(t: Table, key: Key) {
    exists r :: r in t.rows && t.rows[r].replyTo == Some(key)
  }

  /** A row that records an inbound delivery, as opposed to an outbound row's provider id. */
  predicate InboundStored(t: Table, id: Key) {
    exists r :: r in t.rows && t.rows[r].direction == Inbound && t.rows[r].waMessageId == Some(id)
  }

  /** Both unique columns hold, every id is below the sequence, and no inbound row is a reservation. */
  ghost predicate Valid(t: Table) {
    && (forall r :: r in t.rows ==> r < t.next)
    && (forall r, q | r in t.rows && q in t.rows && t.rows[r].waMessageId == t.rows[q].waMessageId ::
          r == q || t.rows[r].waMessageId.None?)
    && (forall r, q | r in t.rows && q in t.rows && t.rows[r].replyTo == t.rows[q].replyTo ::
          r == q || t.rows[r].replyTo.None?)
    && (forall r :: r in t.rows && t.rows[r].replyTo.Some? ==> t.rows[r].direction == Outbound)
  }

  function InboundRow(conversation: nat, id: Key): Message {
    Message(conversation, Inbound, FromCustomer, Some(id), None, None)
  }

  function ReservedRow(conversation: nat, key: Key, body: Body): Message {
    Message(conversation, Outbound, body, None, Some(key), Some(Pending))
  }

  /** A message that answers no delivery: an operator's reply or the sweeper's goodbye. */
  function UnpromptedRow(conversation: nat, goodbye: bool, wa: Option<Key>): Message {
    Message(conversation, Outbound, if goodbye then Goodbye else FromOperator, wa, None, Some(Sent))
  }

  function Insert(t: Table, m: Message): Table {
    Table(t.rows[t.next := m], t.next + 1)
  }

  /** INSERT ... ON CONFLICT (wa_message_id) DO NOTHING RETURNING id */
  function Claim(t: Table, conversation: nat, id: Key): (Table, Option<nat>) {
    if WaTaken(t, id) then (t, None) else (Insert(t, InboundRow(conversation, id)), Some(t.next))
  }

  /** INSERT ... ON CONFLICT (reply_to_wa_message_id) DO NOTHING RETURNING id */
  function Reserve(t: Table, conversation: nat, key: Key, body: Body): (Table, Option<nat>) {
    if ReplyTaken(t, key) then (t, None)
    else (Insert(t, ReservedRow(conversation, key, body)), Some(t.next))
  }

  /** INSERT of a message already sent; a provider id that is already stored makes it fail. */
  function Unprompted(t: Table, conversation: nat, goodbye: bool, wa: Option<Key>): Table {
    if wa.Some? && WaTaken(t, wa.value) then t else Insert(t, UnpromptedRow(conversation, goodbye, wa))
  }

  /** Some other row already carries the provider id that UPDATE would write: an integrity error. */
  predicate ConfirmConflicts(t: Table, row: nat, out: Option<Key>) {
    row in t.rows && out.Some? && exists q :: q in t.rows && q != row && t.rows[q].waMessageId == out
  }

  /** UPDATE messages SET wa_message_id, status WHERE id = row */
  function Confirm(t: Table, row: nat, out: Option<Key>, status: Status): Table {
    if row !in t.rows || ConfirmConflicts(t, row, out) then t
    else t.(rows := t.rows[row := t.rows[row].(waMessageId := out, status := Some(status))])
  }

  /** ON DELETE CASCADE from a conversation. */
  function DeleteConversation(t: Table, conversation: nat): Table {
    t.(rows := map r | r in t.rows && t.rows[r].conversationId != conversation :: t.rows[r])
  }

  /** Exactly one caller is handed the delivery, and the row it gets is the only inbound one. */
  lemma ClaimIsExclusive(t: Table, conversation: nat, id: Key, later: nat)
    requires Valid(t)
    ensures var (t', got) := Claim(t, conversation, id);
      && Valid(t')
      && WaTaken(t', id)
      && (got.Some? <==> !WaTaken(t, id))
      && (got.Some? ==> got.value !in t.rows && t' == Insert(t, InboundRow(conversation, id)) && InboundStored(t', id))
      && Claim(t', later, id) == (t', None)
      && (forall other :: other != id ==> (WaTaken(t', other) <==> WaTaken(t, other)))
      && (forall other :: InboundStored(t', other) <==> InboundStored(t, other) || (got.Some? && other == id))
      && (forall key :: ReplyTaken(t', key) <==> ReplyTaken(t, key))
  {
    if !WaTaken(t, id) {
      var t' := Insert(t, InboundRow(conversation, id));
      assert t.next in t'.rows && t'.rows[t.next].waMessageId == Some(id);
      assert forall r :: r in t.rows ==> r in t'.rows && t'.rows[r] == t.rows[r];
    }
  }

  lemma ReserveIsExclusive(t: Table, conversation: nat, key: Key, body: Body, later: nat, other: Body)
    requires Valid(t)
    ensures var (t', got) := Reserve(t, conversation, key, body);
      && Valid(t')
      && ReplyTaken(t', key)
      && (got.Some? <==> !ReplyTaken(t, key))
      && (got.Some? ==> got.value !in t.rows && t' == Insert(t, ReservedRow(conversation, key, body)))
      && Reserve(t', later, key, other) == (t', None)
      && (forall k :: k != key ==> (ReplyTaken(t', k) <==> ReplyTaken(t, k)))
      && (forall id :: WaTaken(t', id) <==> WaTaken(t, id))
      && (forall id :: InboundStored(t', id) <==> InboundStored(t, id))
  {
    if !ReplyTaken(t, key) {
      var t' := Insert(t, ReservedRow(conversation, key, body));
      assert t.next in t'.rows && t'.rows[t.next].replyTo == Some(key);
      assert forall r :: r in t.rows ==> r in t'.rows && t'.rows[r] == t.rows[r];
    }
  }

  /** Confirming never frees a reservation, never touches an inbound record, and keeps both indexes. */
  lemma ConfirmKeepsKeys(t: Table, row: nat, out: Option<Key>, status: Status)
    requires Valid(t)
    requires row in t.rows ==> t.rows[row].direction == Outbound
    ensures var t' := Confirm(t, row, out, status);
      && Valid(t')
      && t'.next == t.next && t'.rows.Keys == t.rows.Keys
      && (forall r :: r in t.rows ==> t'.rows[r].replyTo == t.rows[r].replyTo && t'.rows[r].body == t.rows[r].body
                                      && t'.rows[r].direction == t.rows[r].direction
                                      && t'.rows[r].conversationId == t.rows[r].conversationId)
      && (forall r :: r in t.rows && r != row ==> t'.rows[r] == t.rows[r])
      && (forall key :: ReplyTaken(t', key) <==> ReplyTaken(t, key))
      && (forall id :: InboundStored(t', id) <==> InboundStored(t, id))
      && (forall id :: WaTaken(t', id) ==> WaTaken(t, id) || out == Some(id))
  {
    ConfirmValid(t, row, out, status);
    ConfirmTakes(t, row, out, status);
    hide WaTaken, ReplyTaken, InboundStored, ConfirmConflicts, Valid;
  }

  lemma ConfirmValid(t: Table, row: nat, out: Option<Key>, status: Status)
    requires Valid(t)
    ensures Valid(Confirm(t, row, out, status))
  {
  }

  lemma ConfirmTakes(t: Table, row: nat, out: Option<Key>, status: Status)
    requires row in t.rows ==> t.rows[row].direction == Outbound
    ensures var t' := Confirm(t, row, out, status);
      && (forall key :: ReplyTaken(t', key) <==> ReplyTaken(t, key))
      && (forall id :: InboundStored(t', id) <==> InboundStored(t, id))
      && (forall id :: WaTaken(t', id) ==> WaTaken(t, id) || out == Some(id))
  {
    hide ConfirmConflicts;
    var t' := Confirm(t, row, out, status);
    assert forall r :: r in t.rows <==> r in t'.rows;
    assert forall r :: r in t.rows ==> t'.rows[r].replyTo == t.rows[r].replyTo && t'.rows[r].direction == t.rows[r].direction;
  }

  /** A row confirmed under an id nobody else has carries it, and with it the status. */
  lemma ConfirmWrites(t: Table, row: nat, out: Option<Key>, status: Status)
    requires row in t.rows && forall q :: q in t.rows && q != row && out.Some? ==> t.rows[q].waMessageId != out
    ensures var t' := Confirm(t, row, out, status);
      row in t'.rows && t'.rows[row].waMessageId == out && t'.rows[row].status == Some(status)
  {
  }

  /** From then on that id is taken: no delivery under it can be claimed and no other row confirmed under it. */
  lemma ConfirmedIsTaken(t: Table, row: nat, id: Key, later: nat, other: nat)
    requires row in t.rows && t.rows[row].waMessageId == Some(id)
    ensures WaTaken(t, id) && Claim(t, later, id) == (t, None)
    ensures other in t.rows && other != row ==> ConfirmConflicts(t, other, Some(id))
  {
  }

  /** A message that answers nothing takes no reservation, records no delivery, and leaves every row as it was. */
  lemma UnpromptedKeepsKeys(t: Table, conversation: nat, goodbye: bool, wa: Option<Key>)
    requires Valid(t)
    ensures var t' := Unprompted(t, conversation, goodbye, wa);
      && Valid(t') && t.next <= t'.next
      && (forall r :: r in t.rows ==> r in t'.rows && t'.rows[r] == t.rows[r])
      && (forall r :: r in t'.rows && r !in t.rows ==>
            r == t.next && t'.rows[r] == Message(conversation, Outbound, if goodbye then Goodbye else FromOperator, wa, None, Some(Sent)))
      && (forall key :: ReplyTaken(t', key) <==> ReplyTaken(t, key))
      && (forall id :: InboundStored(t', id) <==> InboundStored(t, id))
      && (forall id :: WaTaken(t', id) ==> WaTaken(t, id) || wa == Some(id))
  {
    if !(wa.Some? && WaTaken(t, wa.value)) {
      InsertValid(t, UnpromptedRow(conversation, goodbye, wa));
      InsertTakes(t, UnpromptedRow(conversation, goodbye, wa));
    }
    hide WaTaken, ReplyTaken, InboundStored, Valid;
  }

  /** A row whose keys are nobody else's. */
  lemma InsertValid(t: Table, m: Message)
    requires Valid(t) && m.direction == Outbound
    requires (m.waMessageId.Some? ==> !WaTaken(t, m.waMessageId.value)) && (m.replyTo.Some? ==> !ReplyTaken(t, m.replyTo.value))
    ensures Valid(Insert(t, m)) && t.next !in t.rows
  {
  }

  lemma InsertTakes(t: Table, m: Message)
    requires t.next !in t.rows && m.direction == Outbound
    ensures var t' := Insert(t, m);
      && (forall key :: ReplyTaken(t', key) <==> ReplyTaken(t, key) || m.replyTo == Some(key))
      && (forall id :: InboundStored(t', id) <==> InboundStored(t, id))
      && (forall id :: WaTaken(t', id) <==> WaTaken(t, id) || m.waMessageId == Some(id))
  {
    var t' := Insert(t, m);
    assert forall r :: r in t.rows ==> r in t'.rows && t'.rows[r] == t.rows[r];
    assert t'.rows[t.next] == m;
  }

  /** MessageRepository: the table updated in place, one statement per method. */
  class MessageTable {
    var rows: map<nat, Message>
    var next: nat

    ghost function Contents(): Table
      reads this
    {
      Table(rows, next)
    }

    constructor ()
      ensures Contents() == Table(map[], 0) && Valid(Contents())
    {
      rows, next := map[], 0;
    }

    method ClaimInbound(conversation: nat, id: Key) returns (got: Option<nat>)
      requires Valid(Contents())
      modifies this
      ensures (Contents(), got) == Claim(old(Contents()), conversation, id)
      ensures Valid(Contents()) && WaTaken(Contents(), id)
      ensures got.None? <==> exists r :: r in old(rows) && old(rows)[r].waMessageId == Some(id)
      ensures rows == if got.None? then old(rows)
                      else old(rows)[got.value := Message(conversation, Inbound, FromCustomer, Some(id), None, None)]
    {
      ClaimIsExclusive(Contents(), conversation, id, 0);
      if exists r :: r in rows && rows[r].waMessageId == Some(id) {
        return None;
      }
      got := Some(next);
      rows, next := rows[next := InboundRow(conversation, id)], next + 1;
    }

    method ReserveReply(conversation: nat, key: Key, body: Body) returns (got: Option<nat>)
      requires Valid(Contents())
      modifies this
      ensures (Contents(), got) == Reserve(old(Contents()), conversation, key, body)
      ensures Valid(Contents()) && ReplyTaken(Contents(), key)
      ensures got.None? <==> exists r :: r in old(rows) && old(rows)[r].replyTo == Some(key)
      ensures rows == if got.None? then old(rows)
                      else old(rows)[got.value := Message(conversation, Outbound, body, None, Some(key), Some(Pending))]
    {
      ReserveIsExclusive(Contents(), conversation, key, body, 0, body);
      if exists r :: r in rows && rows[r].replyTo == Some(key) {
        return None;
      }
      got := Some(next);
      rows, next := rows[next := ReservedRow(conversation, key, body)], next + 1;
    }

    /** create, for a reply typed by an operator: it answers no delivery.  None is the integrity error. */
    method CreateManual(conversation: nat, wa: Option<Key>) returns (got: Option<nat>)
      requires Valid(Contents())
      modifies this
      ensures Valid(Contents()) && Contents() == Unprompted(old(Contents()), conversation, false, wa)
      ensures got.None? <==> wa.Some? && exists r :: r in old(rows) && old(rows)[r].waMessageId == wa
      ensures rows == if got.None? then old(rows)
                      else old(rows)[got.value := Message(conversation, Outbound, FromOperator, wa, None, Some(Sent))]
      ensures got == if wa.Some? && WaTaken(old(Contents()), wa.value) then None else Some(old(next))
    {
      UnpromptedKeepsKeys(Contents(), conversation, false, wa);
      if wa.Some? && exists r :: r in rows && rows[r].waMessageId == wa {
        return None;
      }
      got := Some(next);
      rows, next := rows[next := UnpromptedRow(conversation, false, wa)], next + 1;
    }

    /** False reports the integrity error, which leaves the table as it was. */
    method ConfirmReply(row: nat, out: Option<Key>, status: Status) returns (ok: bool)
      requires Valid(Contents())
      requires row in rows ==> rows[row].direction == Outbound
      modifies this
      ensures ok <==> !ConfirmConflicts(old(Contents()), row, out)
      ensures Contents() == Confirm(old(Contents()), row, out, status)
      ensures Valid(Contents())
      ensures !ok <==> row in old(rows) && out.Some? && exists q :: q in old(rows) && q != row && old(rows)[q].waMessageId == out
      ensures ok && row in old(rows) ==> rows[row].waMessageId == out && rows[row].status == Some(status)
      ensures !ok || row !in old(rows) ==> rows == old(rows)
    {
      ConfirmKeepsKeys(Contents(), row, out, status);
      if row !in rows {
        return true;
      }
      if out.Some? && exists q :: q in rows && q != row && rows[q].waMessageId == out {
        return false;
      }
      rows := rows[row := rows[row].(waMessageId := out, status := Some(status))];
      ok := true;
    }
  }
}
