/**
 The private invitation after a public comment (app/services/comment_invite.py):
 the second user of the reservation index, in place over the two tables.
 */
module CommentInvite {
  import opened Common
  import M = Messages
  import C = Conversations
  import L = SessionLifecycle
  import S = ConversationStore
  import F = ChatFlow

  /** Switched off, or nothing to say, nobody to say it to, or nothing to deduplicate on. */
  datatype Request = Request(enabled: bool, blank: bool, comment: M.Key, hasSender: bool, user: nat, channel: C.Channel)

  /**
   `calls` counts calls of the provider.  It is called exactly when an invitation
   is wanted and none was ever reserved for this comment; whatever it answers,
   the reservation stays, so a second request for the comment is refused.
   */
  method InviteAfterComment(sessions: S.ConversationTable, messages: M.MessageTable, q: Request,
                            reopenWithin: Option<C.Time>, o: F.Outside, now: C.Time)
    returns (r: F.SendResult, calls: nat)
    requires L.Inv(sessions.Contents()) && M.Valid(messages.Contents())
    modifies sessions, messages
    ensures L.Inv(sessions.Contents()) && M.Valid(messages.Contents())
    ensures var key := M.ReservationKey(q.comment);
      && calls == (if q.enabled && !q.blank && q.comment != M.EMPTY && q.hasSender && !M.ReplyTaken(old(messages.Contents()), key) then 1 else 0)
      && (r == F.Refused <==> calls == 0)
      && (r == F.Failed <==> calls == 1 && !o.accepted)
      && (r == F.Raised <==> calls == 1 && o.accepted && F.Clash(old(messages.Contents()), o.out))
      && (r == F.Delivered <==> calls == 1 && o.accepted && !F.Clash(old(messages.Contents()), o.out))
      && (q.enabled && !q.blank && q.comment != M.EMPTY && q.hasSender ==> M.ReplyTaken(messages.Contents(), key))
      && (calls == 0 ==>
            messages.Contents() == old(messages.Contents()) && sessions.Contents() == old(sessions.Contents()))
    ensures calls == 1 ==> exists c | C.ActiveFor(sessions.Contents().table, q.user, c) ::
      messages.Contents() == F.Reply(old(messages.Contents()), c, M.ReservationKey(q.comment), M.Invitation, o).0
  {
    hide L.Inv, M.Valid, S.Opening;
    r, calls := F.Refused, 0;
    if !q.enabled || q.blank || q.comment == M.EMPTY || !q.hasSender {
      return;
    }
    ghost var before := messages.Contents();
    var rows, next := sessions.rows, sessions.next;
    var c := sessions.OpenUndisturbed(q.user, reopenWithin, q.channel, now);
    F.ReplyRecords(before, c, M.ReservationKey(q.comment), M.Invitation, o);
    var reserved := messages.ReserveReply(c, M.ReservationKey(q.comment), M.Invitation);
    if reserved.None? {
      sessions.rows, sessions.next := rows, next;
      return;
    }
    calls := 1;
    M.ConfirmKeepsKeys(messages.Contents(), reserved.value, if o.accepted then o.out else None,
                       if o.accepted then M.Sent else M.Unconfirmed);
    if !o.accepted {
      var _ := messages.ConfirmReply(reserved.value, None, M.Unconfirmed);
      r := F.Failed;
    } else {
      var ok := messages.ConfirmReply(reserved.value, o.out, M.Sent);
      r := if ok then F.Delivered else F.Raised;
    }
    assert messages.Contents() == F.Reply(before, c, M.ReservationKey(q.comment), M.Invitation, o).0;
  }
}
