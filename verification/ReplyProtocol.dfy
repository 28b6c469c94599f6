/**
 The at-most-once reply protocol (app/services/chat_service.py,
 app/services/comment_invite.py) as a state machine over the messages table.

 Any number of workers run CLAIM, GENERATE, RESERVE, SEND and CONFIRM for any
 deliveries, interleaved at statement granularity.  An insert is invisible
 until its commit, a second insert of the same key waits for the first, and a
 worker may crash between any two steps, losing its uncommitted insert.
 Deliveries may repeat without limit.  An operator may delete a conversation.

 A run is any sequence of steps; a step that is not enabled leaves the state
 alone, so a statement about every sequence is a statement about every
 interleaving.
 */
module ReplyProtocol {
  import opened Common
  import opened Messages

  /** A comment is answered in public first and may then be followed by an invitation. */
  datatype Phase = Answering | Inviting

  datatype Pc =
    | Start                                   // about to insert the claim
    | ClaimInserted                           // inserted, not committed
    | Routing                                 // claim committed, nothing decided yet
    | Generating                              // cache missed, about to call the model
    | Ready                                   // text in hand, about to insert the reservation
    | ReserveInserted(conversation: nat, body: Body)   // inserted, not committed
    | Holding(row: nat)                       // reservation committed, about to call the sender
    | Returned(row: nat, out: Option<Key>, ok: bool)
    | Ended                                   // this phase is over

  /** `key` is what the worker reserves: the bare delivery id, or reservation_key of it when inviting. */
  datatype Worker = Worker(
    delivery: Key, conversation: nat, comment: bool, generated: bool, phase: Phase, key: Key, pc: Pc)

  /**
   The table, the generation cache, the keys inserted but not yet committed with
   the worker that inserted each, the live workers, and what has happened so far:
   deliveries taken, claims and reservations committed, model calls, cache hits,
   sender calls by key and by phase, and rows lost to a delete.
   */
  datatype State = State(
    table: Table,
    cache: set<Key>,
    claimLocks: map<Key, nat>,
    reserveLocks: map<Key, nat>,
    workers: map<nat, Worker>,
    delivered: set<Key>,
    claims: multiset<Key>,
    reserves: multiset<Key>,
    completions: multiset<Key>,
    hits: multiset<Key>,
    sends: multiset<Key>,
    answers: multiset<Key>,
    invites: multiset<Key>,
    removedClaims: multiset<Key>,
    removedReserves: multiset<Key>)

  datatype Choice = LeaveForHuman | SendFixed | AskModel

  datatype Step =
    | Deliver(w: nat, id: Key, conversation: nat, comment: bool)
    | InsertClaim(w: nat)
    | CommitClaim(w: nat)
    | Route(w: nat, choice: Choice)
    | Complete(w: nat, stored: bool)
    | InsertReservation(w: nat, conversation: nat, body: Body)
    | CommitReservation(w: nat)
    | Call(w: nat, out: Option<Key>, ok: bool)
    | Acknowledge(w: nat)
    | Finish(w: nat, invite: bool)
    | Crash(w: nat)
    | Expire(id: Key)
    | Unprompted(conversation: nat, goodbye: bool, wa: Option<Key>)
    | Delete(conversation: nat)

  function Init(): State {
    State(Table(map[], 0), {}, map[], map[], map[], {}, multiset{}, multiset{}, multiset{}, multiset{}, multiset{}, multiset{},
          multiset{}, multiset{}, multiset{})
  }

  predicate At(s: State, w: nat, pc: Pc) {
    w in s.workers && s.workers[w].pc == pc
  }

  function Move(s: State, w: nat, pc: Pc): State
    requires w in s.workers
  {
    s.(workers := s.workers[w := s.workers[w].(pc := pc)])
  }

  /** Ending a worker's transaction gives up the keys it had inserted. */
  function Unlock(locks: map<Key, nat>, w: nat): map<Key, nat> {
    map k | k in locks && locks[k] != w :: locks[k]
  }

  function Drop(s: State, w: nat): State {
    s.(workers := s.workers - {w}, claimLocks := Unlock(s.claimLocks, w), reserveLocks := Unlock(s.reserveLocks, w))
  }

  // ---- one function per step ------------------------------------------------

  function DoDeliver(s: State, w: nat, id: Key, conversation: nat, comment: bool): State {
    if w in s.workers then s
    else s.(workers := s.workers[w := Worker(id, conversation, comment, false, Answering, id, Start)],
            delivered := s.delivered + {id})
  }

  /** claim_inbound: an uncommitted insert of the same id makes this one wait; None ends the handler. */
  function DoInsertClaim(s: State, w: nat): State {
    if !At(s, w, Start) || s.workers[w].delivery in s.claimLocks then s
    else if WaTaken(s.table, s.workers[w].delivery) then Move(s, w, Ended)
    else Move(s, w, ClaimInserted).(claimLocks := s.claimLocks[s.workers[w].delivery := w])
  }

  function DoCommitClaim(s: State, w: nat): State {
    if !At(s, w, ClaimInserted) then s
    else
      var id := s.workers[w].delivery;
      Move(s, w, Routing).(table := Claim(s.table, s.workers[w].conversation, id).0,
                           claimLocks := s.claimLocks - {id},
                           claims := s.claims + multiset{id})
  }

  /** _handled_by_human, _within_quota, fixed copy, or _generate_and_send reading the cache. */
  function DoRoute(s: State, w: nat, choice: Choice): State {
    if !At(s, w, Routing) then s
    else
      var id := s.workers[w].delivery;
      match choice
      case LeaveForHuman => Move(s, w, Ended)
      case SendFixed => Move(s, w, Ready)
      case AskModel =>
        var hit := id != EMPTY && id in s.cache;
        var me := s.workers[w].(generated := true, pc := if hit then Ready else Generating);
        s.(workers := s.workers[w := me], hits := if hit then s.hits + multiset{id} else s.hits)
  }

  /** generate_reply: paid for whether or not it succeeds; cached only when it did and the cache took it. */
  function DoComplete(s: State, w: nat, stored: bool): State {
    if !At(s, w, Generating) then s
    else
      var id := s.workers[w].delivery;
      Move(s, w, Ready).(completions := s.completions + multiset{id},
                         cache := if stored && id != EMPTY then s.cache + {id} else s.cache)
  }

  /** reserve_reply: None means somebody answered already, and nothing is sent. */
  function DoInsertReservation(s: State, w: nat, conversation: nat, body: Body): State {
    if !At(s, w, Ready) || s.workers[w].key in s.reserveLocks || (body.Invitation? <==> s.workers[w].phase == Answering)
       || (s.workers[w].phase == Answering && conversation != s.workers[w].conversation) then s
    else if ReplyTaken(s.table, s.workers[w].key) then Move(s, w, Ended)
    else Move(s, w, ReserveInserted(conversation, body)).(reserveLocks := s.reserveLocks[s.workers[w].key := w])
  }

  function DoCommitReservation(s: State, w: nat): State {
    if w !in s.workers || !s.workers[w].pc.ReserveInserted? then s
    else
      var me := s.workers[w];
      Move(s, w, Holding(s.table.next)).(table := Reserve(s.table, me.pc.conversation, me.key, me.pc.body).0,
                                         reserveLocks := s.reserveLocks - {me.key},
                                         reserves := s.reserves + multiset{me.key})
  }

  /** The irreversible call. */
  function DoCall(s: State, w: nat, out: Option<Key>, ok: bool): State {
    if w !in s.workers || !s.workers[w].pc.Holding? then s
    else
      var me := s.workers[w];
      Move(s, w, Returned(me.pc.row, out, ok)).(
        sends := s.sends + multiset{me.key},
        answers := if me.phase == Answering then s.answers + multiset{me.delivery} else s.answers,
        invites := if me.phase == Inviting then s.invites + multiset{me.delivery} else s.invites)
  }

  /** confirm_reply; an integrity error escapes the handler and the worker is gone. */
  function DoAcknowledge(s: State, w: nat): State {
    if w !in s.workers || !s.workers[w].pc.Returned? then s
    else
      var me := s.workers[w];
      var out := if me.pc.ok then me.pc.out else None;
      if out.Some? && out.value in s.claimLocks then s
      else if ConfirmConflicts(s.table, me.pc.row, out) then Drop(s, w)
      else
        Move(s, w, Ended).(table := Confirm(s.table, me.pc.row, out, if me.pc.ok then Sent else Unconfirmed),
                           cache := if me.pc.ok && me.phase == Answering && me.generated then s.cache - {me.delivery}
                                    else s.cache)
  }

  /** The handler returns; on a comment surface invite_after_comment may follow. */
  function DoFinish(s: State, w: nat, invite: bool): State {
    if !At(s, w, Ended) then s
    else if invite && s.workers[w].comment && s.workers[w].phase == Answering && s.workers[w].delivery != EMPTY then
      s.(workers := s.workers[w := s.workers[w].(phase := Inviting, key := ReservationKey(s.workers[w].delivery), pc := Ready)])
    else Drop(s, w)
  }

  /** Row keys that a cascading delete removes. */
  function ClaimsIn(t: Table, conversation: nat): set<Key> {
    set r | r in t.rows && t.rows[r].conversationId == conversation && t.rows[r].direction == Inbound
            && t.rows[r].waMessageId.Some? :: t.rows[r].waMessageId.value
  }

  function ReservesIn(t: Table, conversation: nat): set<Key> {
    set r | r in t.rows && t.rows[r].conversationId == conversation && t.rows[r].replyTo.Some? :: t.rows[r].replyTo.value
  }

  function DoDelete(s: State, conversation: nat): State {
    s.(table := DeleteConversation(s.table, conversation),
       removedClaims := s.removedClaims + multiset(ClaimsIn(s.table, conversation)),
       removedReserves := s.removedReserves + multiset(ReservesIn(s.table, conversation)))
  }

  /** An operator's reply or a goodbye is recorded; an uncommitted claim of the same id makes the insert wait. */
  function DoUnprompted(s: State, conversation: nat, goodbye: bool, wa: Option<Key>): State {
    if wa.Some? && wa.value in s.claimLocks then s
    else s.(table := Messages.Unprompted(s.table, conversation, goodbye, wa))
  }

  function Apply(s: State, step: Step): State {
    match step
    case Deliver(w, id, conversation, comment) => DoDeliver(s, w, id, conversation, comment)
    case InsertClaim(w) => DoInsertClaim(s, w)
    case CommitClaim(w) => DoCommitClaim(s, w)
    case Route(w, choice) => DoRoute(s, w, choice)
    case Complete(w, stored) => DoComplete(s, w, stored)
    case InsertReservation(w, conversation, body) => DoInsertReservation(s, w, conversation, body)
    case CommitReservation(w) => DoCommitReservation(s, w)
    case Call(w, out, ok) => DoCall(s, w, out, ok)
    case Acknowledge(w) => DoAcknowledge(s, w)
    case Finish(w, invite) => DoFinish(s, w, invite)
    case Crash(w) => Drop(s, w)
    case Expire(id) => s.(cache := s.cache - {id})
    case Unprompted(conversation, goodbye, wa) => DoUnprompted(s, conversation, goodbye, wa)
    case Delete(conversation) => DoDelete(s, conversation)
  }

  function Run(s: State, steps: seq<Step>): State {
    if steps == [] then s else Apply(Run(s, steps[..|steps| - 1]), steps[|steps| - 1])
  }

  ghost predicate DeleteFree(steps: seq<Step>) {
    forall i :: 0 <= i < |steps| ==> !steps[i].Delete?
  }

  ghost predicate PrefixFree(steps: seq<Step>) {
    forall i :: 0 <= i < |steps| && steps[i].Deliver? ==> steps[i].id.Plain?
  }

  // ---- the invariant ----------------------------------------------------------

  predicate Holds(w: Worker, key: Key) {
    w.pc.Holding? && w.key == key
  }

  /** Claimed, and the model not called for this claim yet. */
  predicate Undecided(w: Worker, id: Key) {
    w.delivery == id && (w.pc.Routing? || w.pc.Generating?)
  }

  ghost function Holders(workers: map<nat, Worker>, key: Key): set<nat> {
    set w | w in workers && Holds(workers[w], key)
  }

  ghost function Deciders(workers: map<nat, Worker>, id: Key): set<nat> {
    set w | w in workers && Undecided(workers[w], id)
  }

  /** An uncommitted key is free in the committed table. */
  ghost predicate LocksFree(t: Table, claimLocks: map<Key, nat>, reserveLocks: map<Key, nat>) {
    && (forall k :: k in claimLocks ==> !WaTaken(t, k))
    && (forall k :: k in reserveLocks ==> !ReplyTaken(t, k))
  }

  /** A worker that inserted a key is the one holding its lock. */
  ghost predicate LocksHeld(claimLocks: map<Key, nat>, reserveLocks: map<Key, nat>, workers: map<nat, Worker>) {
    && (forall w :: w in workers && workers[w].pc.ClaimInserted? ==>
          workers[w].delivery in claimLocks && claimLocks[workers[w].delivery] == w)
    && (forall w :: w in workers && workers[w].pc.ReserveInserted? ==>
          workers[w].key in reserveLocks && reserveLocks[workers[w].key] == w)
  }

  predicate Shaped(delivered: set<Key>, me: Worker) {
    && me.delivery in delivered
    && me.key == (if me.phase == Inviting then ReservationKey(me.delivery) else me.delivery)
    && (me.pc.ReserveInserted? ==> (me.pc.body.Invitation? <==> me.phase == Inviting))
  }

  ghost predicate AllShaped(delivered: set<Key>, workers: map<nat, Worker>) {
    forall w :: w in workers ==> Shaped(delivered, workers[w])
  }

  /** A reservation in hand is a committed outbound row under the worker's key, unless a delete took it. */
  ghost predicate InHand(t: Table, removed: multiset<Key>, me: Worker) {
    me.pc.Holding? || me.pc.Returned? ==>
      && me.pc.row < t.next
      && (me.pc.row !in t.rows ==> removed[me.key] >= 1)
      && (me.pc.row in t.rows ==> t.rows[me.pc.row].direction == Outbound && t.rows[me.pc.row].replyTo == Some(me.key))
  }

  ghost predicate AllInHand(t: Table, removed: multiset<Key>, workers: map<nat, Worker>) {
    forall w :: w in workers ==> InHand(t, removed, workers[w])
  }

  function One(b: bool): nat { if b then 1 else 0 }

  /** Every committed claim is either still in the table or was lost to a delete; likewise reservations. */
  ghost predicate ClaimsAccounted(t: Table, claims: multiset<Key>, removed: multiset<Key>) {
    forall id :: claims[id] == One(InboundStored(t, id)) + removed[id]
  }

  ghost predicate ReservesAccounted(t: Table, reserves: multiset<Key>, removed: multiset<Key>) {
    forall key :: reserves[key] == One(ReplyTaken(t, key)) + removed[key]
  }

  /** Each committed reservation pays for one sender call. */
  ghost predicate SendsPaid(workers: map<nat, Worker>, sends: multiset<Key>, reserves: multiset<Key>) {
    forall key :: sends[key] + |Holders(workers, key)| <= reserves[key]
  }

  /** Each committed claim pays for one model call. */
  ghost predicate CallsPaid(workers: map<nat, Worker>, completions: multiset<Key>, claims: multiset<Key>) {
    forall id :: completions[id] + |Deciders(workers, id)| <= claims[id]
  }

  ghost predicate SendsSplit(sends: multiset<Key>, answers: multiset<Key>, invites: multiset<Key>) {
    && (forall id :: answers[id] <= sends[id])
    && (forall id :: invites[id] <= sends[ReservationKey(id)])
  }

  ghost predicate CacheExplained(cache: set<Key>, completions: multiset<Key>) {
    forall id :: id in cache ==> completions[id] >= 1
  }

  ghost predicate HitsExplained(hits: multiset<Key>, removedClaims: multiset<Key>) {
    forall id :: hits[id] >= 1 ==> removedClaims[id] >= 1
  }

  /** Who reserved a row can be read off its key and body. */
  ghost predicate KeyExplained(delivered: set<Key>, m: Message) {
    m.replyTo.Some? ==>
      if m.body.Invitation? then exists id :: id in delivered && m.replyTo.value == ReservationKey(id)
      else m.replyTo.value in delivered
  }

  ghost predicate KeysExplained(t: Table, delivered: set<Key>) {
    forall r :: r in t.rows ==> KeyExplained(delivered, t.rows[r])
  }

  ghost predicate Inv(s: State) {
    && Valid(s.table)
    && LocksFree(s.table, s.claimLocks, s.reserveLocks)
    && LocksHeld(s.claimLocks, s.reserveLocks, s.workers)
    && AllShaped(s.delivered, s.workers)
    && AllInHand(s.table, s.removedReserves, s.workers)
    && ClaimsAccounted(s.table, s.claims, s.removedClaims)
    && ReservesAccounted(s.table, s.reserves, s.removedReserves)
    && SendsPaid(s.workers, s.sends, s.reserves)
    && CallsPaid(s.workers, s.completions, s.claims)
    && SendsSplit(s.sends, s.answers, s.invites)
    && CacheExplained(s.cache, s.completions)
    && HitsExplained(s.hits, s.removedClaims)
    && KeysExplained(s.table, s.delivered)
  }

  // ---- preservation, step by step ---------------------------------------------

  /** How one element's change changes the size of a set. */
  lemma OneChanges(a: set<nat>, b: set<nat>, w: nat)
    requires a - {w} == b - {w}
    ensures |b| == |a| - One(w in a) + One(w in b)
  {
    var others := a - {w};
    assert a == if w in a then others + {w} else others;
    assert b == if w in b then others + {w} else others;
  }

  /** How one worker's move changes the number of workers holding a reservation under `key`. */
  lemma HoldersMove(workers: map<nat, Worker>, w: nat, me: Worker, key: Key)
    ensures |Holders(workers[w := me], key)|
         == |Holders(workers, key)| - One(w in workers && Holds(workers[w], key)) + One(Holds(me, key))
  {
    OneChanges(Holders(workers, key), Holders(workers[w := me], key), w);
  }

  lemma DecidersMove(workers: map<nat, Worker>, w: nat, me: Worker, id: Key)
    ensures |Deciders(workers[w := me], id)|
         == |Deciders(workers, id)| - One(w in workers && Undecided(workers[w], id)) + One(Undecided(me, id))
  {
    OneChanges(Deciders(workers, id), Deciders(workers[w := me], id), w);
  }

  /** Rows stay, with what the other invariants read off them. */
  ghost predicate Grows(t: Table, t': Table) {
    && t.next <= t'.next
    && (forall r :: r in t.rows ==> r in t'.rows && t'.rows[r].replyTo == t.rows[r].replyTo
                                    && t'.rows[r].direction == t.rows[r].direction)
    && (forall r :: r in t'.rows && r < t.next ==> r in t.rows)
  }

  ghost predicate LocksKept(locks: map<Key, nat>, locks': map<Key, nat>, w: nat) {
    forall k :: k in locks && locks[k] != w ==> k in locks' && locks'[k] == locks[k]
  }

  /** What a step that turns worker w into `me` must show about itself; the other workers come for free. */
  ghost predicate Local(s: State, w: nat, me: Worker, s': State) {
    && s'.workers == s.workers[w := me] && s'.removedReserves == s.removedReserves
    && Grows(s.table, s'.table) && s.delivered <= s'.delivered
    && LocksKept(s.claimLocks, s'.claimLocks, w) && LocksKept(s.reserveLocks, s'.reserveLocks, w)
    && Shaped(s'.delivered, me) && InHand(s'.table, s'.removedReserves, me)
    && (me.pc.ClaimInserted? ==> me.delivery in s'.claimLocks && s'.claimLocks[me.delivery] == w)
    && (me.pc.ReserveInserted? ==> me.key in s'.reserveLocks && s'.reserveLocks[me.key] == w)
  }

  lemma OthersKeep(s: State, w: nat, me: Worker, s': State)
    requires Inv(s) && Local(s, w, me, s')
    ensures LocksHeld(s'.claimLocks, s'.reserveLocks, s'.workers)
    ensures AllShaped(s'.delivered, s'.workers)
    ensures AllInHand(s'.table, s'.removedReserves, s'.workers)
  {
    hide Valid, LocksFree, ClaimsAccounted, ReservesAccounted, SendsPaid, CallsPaid, SendsSplit, CacheExplained,
         HitsExplained, KeysExplained;
    forall v | v in s'.workers ensures InHand(s'.table, s'.removedReserves, s'.workers[v]) {
      if v != w { assert InHand(s.table, s.removedReserves, s.workers[v]); }
    }
  }

  /** The step books a reservation for every sender call it makes or readies. */
  ghost predicate PaysSends(s: State, w: nat, me: Worker, s': State) {
    forall key :: s'.sends[key] - s.sends[key] + One(Holds(me, key))
                    <= One(w in s.workers && Holds(s.workers[w], key)) + s'.reserves[key] - s.reserves[key]
  }

  ghost predicate PaysCalls(s: State, w: nat, me: Worker, s': State) {
    forall id :: s'.completions[id] - s.completions[id] + One(Undecided(me, id))
                   <= One(w in s.workers && Undecided(s.workers[w], id)) + s'.claims[id] - s.claims[id]
  }

  lemma SendsPaidMove(s: State, w: nat, me: Worker, s': State)
    requires SendsPaid(s.workers, s.sends, s.reserves) && s'.workers == s.workers[w := me] && PaysSends(s, w, me, s')
    ensures SendsPaid(s'.workers, s'.sends, s'.reserves)
  {
    forall key ensures s'.sends[key] + |Holders(s'.workers, key)| <= s'.reserves[key] { HoldersMove(s.workers, w, me, key); }
  }

  lemma CallsPaidMove(s: State, w: nat, me: Worker, s': State)
    requires CallsPaid(s.workers, s.completions, s.claims) && s'.workers == s.workers[w := me] && PaysCalls(s, w, me, s')
    ensures CallsPaid(s'.workers, s'.completions, s'.claims)
  {
    forall id ensures s'.completions[id] + |Deciders(s'.workers, id)| <= s'.claims[id] { DecidersMove(s.workers, w, me, id); }
  }

  lemma Advance(s: State, w: nat, me: Worker, s': State)
    requires Inv(s) && Local(s, w, me, s') && PaysSends(s, w, me, s') && PaysCalls(s, w, me, s')
    requires Valid(s'.table) && LocksFree(s'.table, s'.claimLocks, s'.reserveLocks)
    requires ClaimsAccounted(s'.table, s'.claims, s'.removedClaims)
    requires ReservesAccounted(s'.table, s'.reserves, s'.removedReserves)
    requires SendsSplit(s'.sends, s'.answers, s'.invites)
    requires CacheExplained(s'.cache, s'.completions) && HitsExplained(s'.hits, s'.removedClaims)
    requires KeysExplained(s'.table, s'.delivered)
    ensures Inv(s')
  {
    hide Valid, LocksFree, LocksHeld, AllShaped, AllInHand, ClaimsAccounted, ReservesAccounted, SendsPaid, CallsPaid,
         SendsSplit, CacheExplained, HitsExplained, KeysExplained, PaysSends, PaysCalls;
    OthersKeep(s, w, me, s');
    SendsPaidMove(s, w, me, s');
    CallsPaidMove(s, w, me, s');
  }

  lemma DropKeeps(s: State, w: nat)
    requires Inv(s)
    ensures Inv(Drop(s, w))
  {
    forall k ensures s.sends[k] + |Holders(s.workers - {w}, k)| <= s.reserves[k] {
      assert Holders(s.workers - {w}, k) == Holders(s.workers, k) - {w};
    }
    forall k ensures s.completions[k] + |Deciders(s.workers - {w}, k)| <= s.claims[k] {
      assert Deciders(s.workers - {w}, k) == Deciders(s.workers, k) - {w};
    }
  }

  /** A worker whose step touches no table and no history. */
  lemma MoveKeeps(s: State, w: nat, me: Worker)
    requires Inv(s) && w in s.workers && Shaped(s.delivered, me)
    requires !me.pc.ClaimInserted? && !me.pc.ReserveInserted? && !me.pc.Holding? && !me.pc.Returned?
    requires forall id :: Undecided(me, id) ==> Undecided(s.workers[w], id)
    ensures Inv(s.(workers := s.workers[w := me]))
  {
    hide Valid, LocksFree, LocksHeld, AllInHand, ClaimsAccounted, ReservesAccounted, SendsPaid, CallsPaid, SendsSplit,
         CacheExplained, HitsExplained, KeysExplained;
    Advance(s, w, me, s.(workers := s.workers[w := me]));
  }

  lemma DeliverKeeps(s: State, w: nat, id: Key, conversation: nat, comment: bool)
    requires Inv(s)
    ensures Inv(Apply(s, Deliver(w, id, conversation, comment)))
  {
    hide Valid, LocksFree, LocksHeld, AllInHand, ClaimsAccounted, ReservesAccounted, SendsPaid, CallsPaid, SendsSplit,
         CacheExplained, HitsExplained;
    if w !in s.workers {
      var me := Worker(id, conversation, comment, false, Answering, id, Start);
      Advance(s, w, me, s.(workers := s.workers[w := me], delivered := s.delivered + {id}));
    }
  }

  lemma InsertClaimKeeps(s: State, w: nat)
    requires Inv(s)
    ensures Inv(Apply(s, InsertClaim(w)))
  {
    hide Valid, LocksFree, LocksHeld, AllInHand, ClaimsAccounted, ReservesAccounted, SendsPaid, CallsPaid, SendsSplit,
         CacheExplained, HitsExplained, KeysExplained;
    if At(s, w, Start) && s.workers[w].delivery !in s.claimLocks {
      if WaTaken(s.table, s.workers[w].delivery) {
        MoveKeeps(s, w, s.workers[w].(pc := Ended));
      } else {
        ClaimLocked(s, w, s.workers[w].(pc := ClaimInserted));
      }
    }
  }

  lemma ClaimLocked(s: State, w: nat, me: Worker)
    requires Inv(s) && At(s, w, Start) && me == s.workers[w].(pc := ClaimInserted)
    requires me.delivery !in s.claimLocks && !WaTaken(s.table, me.delivery)
    ensures Inv(s.(workers := s.workers[w := me], claimLocks := s.claimLocks[me.delivery := w]))
  {
    hide Valid, LocksHeld, AllInHand, ClaimsAccounted, ReservesAccounted, SendsPaid, CallsPaid, SendsSplit,
         CacheExplained, HitsExplained, KeysExplained;
    assert Shaped(s.delivered, s.workers[w]);
    Advance(s, w, me, s.(workers := s.workers[w := me], claimLocks := s.claimLocks[me.delivery := w]));
  }

  lemma CommitClaimKeeps(s: State, w: nat)
    requires Inv(s)
    ensures Inv(Apply(s, CommitClaim(w)))
  {
    hide Valid, LocksFree, LocksHeld, AllInHand, ClaimsAccounted, ReservesAccounted, SendsPaid, CallsPaid, SendsSplit,
         CacheExplained, HitsExplained, KeysExplained;
    if At(s, w, ClaimInserted) {
      assert Shaped(s.delivered, s.workers[w]);
      Taken(s, w, s.workers[w].(pc := Routing));
    }
  }

  /** The claim's table-side bookkeeping. */
  lemma ClaimAccounts(s: State, conversation: nat, id: Key)
    requires Inv(s) && !WaTaken(s.table, id)
    ensures var t := Claim(s.table, conversation, id).0;
      && Valid(t) && Grows(s.table, t) && LocksFree(t, s.claimLocks - {id}, s.reserveLocks)
      && ClaimsAccounted(t, s.claims + multiset{id}, s.removedClaims)
      && ReservesAccounted(t, s.reserves, s.removedReserves) && KeysExplained(t, s.delivered)
  {
    hide LocksHeld, AllShaped, AllInHand, SendsPaid, CallsPaid, SendsSplit, CacheExplained, HitsExplained;
    ClaimIsExclusive(s.table, conversation, id, 0);
  }

  lemma Taken(s: State, w: nat, me: Worker)
    requires Inv(s) && At(s, w, ClaimInserted) && me == s.workers[w].(pc := Routing) && Shaped(s.delivered, me)
    ensures Inv(s.(workers := s.workers[w := me], table := Claim(s.table, me.conversation, me.delivery).0,
                   claimLocks := s.claimLocks - {me.delivery}, claims := s.claims + multiset{me.delivery}))
  {
    hide Valid, AllShaped, AllInHand, ClaimsAccounted, ReservesAccounted, SendsPaid, CallsPaid, SendsSplit,
         CacheExplained, HitsExplained, KeysExplained;
    ClaimAccounts(s, me.conversation, me.delivery);
    Advance(s, w, me, s.(workers := s.workers[w := me], table := Claim(s.table, me.conversation, me.delivery).0,
                         claimLocks := s.claimLocks - {me.delivery}, claims := s.claims + multiset{me.delivery}));
  }

  lemma RouteKeeps(s: State, w: nat, choice: Choice)
    requires Inv(s)
    ensures Inv(Apply(s, Route(w, choice)))
  {
    hide Valid, LocksFree, LocksHeld, AllInHand, ClaimsAccounted, ReservesAccounted, SendsPaid, CallsPaid, SendsSplit,
         CacheExplained, HitsExplained, KeysExplained;
    if At(s, w, Routing) {
      var me := s.workers[w];
      assert Shaped(s.delivered, me);
      match choice
      case LeaveForHuman => MoveKeeps(s, w, me.(pc := Ended));
      case SendFixed => MoveKeeps(s, w, me.(pc := Ready));
      case AskModel =>
        if me.delivery != EMPTY && me.delivery in s.cache {
          MoveKeeps(s, w, me.(generated := true, pc := Ready));
          HitMeansDeleted(s, w);
          HitKeeps(s.(workers := s.workers[w := me.(generated := true, pc := Ready)]), me.delivery);
        } else {
          MoveKeeps(s, w, me.(generated := true, pc := Generating));
        }
    }
  }

  lemma HitKeeps(s: State, id: Key)
    requires Inv(s) && s.removedClaims[id] >= 1
    ensures Inv(s.(hits := s.hits + multiset{id}))
  {
  }

  /** A claim that has not called the model yet, and a cached answer: an earlier claim's row was deleted. */
  lemma HitMeansDeleted(s: State, w: nat)
    requires Inv(s) && At(s, w, Routing) && s.workers[w].delivery in s.cache
    ensures s.removedClaims[s.workers[w].delivery] >= 1
  {
    hide Valid, LocksFree, LocksHeld, AllShaped, AllInHand, ReservesAccounted, SendsPaid, SendsSplit, HitsExplained,
         KeysExplained;
    var id := s.workers[w].delivery;
    assert w in Deciders(s.workers, id);
    assert |Deciders(s.workers, id)| >= 1;
    assert s.claims[id] == One(InboundStored(s.table, id)) + s.removedClaims[id];
  }

  lemma CompleteKeeps(s: State, w: nat, stored: bool)
    requires Inv(s)
    ensures Inv(Apply(s, Complete(w, stored)))
  {
    hide Valid, LocksFree, LocksHeld, AllInHand, ClaimsAccounted, ReservesAccounted, SendsPaid, CallsPaid, SendsSplit,
         HitsExplained, KeysExplained;
    if At(s, w, Generating) {
      var me := s.workers[w].(pc := Ready);
      Advance(s, w, me, s.(workers := s.workers[w := me], completions := s.completions + multiset{me.delivery},
                           cache := if stored && me.delivery != EMPTY then s.cache + {me.delivery} else s.cache));
    }
  }

  lemma InsertReservationKeeps(s: State, w: nat, conversation: nat, body: Body)
    requires Inv(s)
    ensures Inv(Apply(s, InsertReservation(w, conversation, body)))
  {
    hide Valid, LocksFree, LocksHeld, AllInHand, ClaimsAccounted, ReservesAccounted, SendsPaid, CallsPaid, SendsSplit,
         CacheExplained, HitsExplained, KeysExplained;
    var s' := DoInsertReservation(s, w, conversation, body);
    if s' != s {
      assert Shaped(s.delivered, s.workers[w]);
      if ReplyTaken(s.table, s.workers[w].key) {
        MoveKeeps(s, w, s.workers[w].(pc := Ended));
      } else {
        ReserveLocked(s, w, s.workers[w].(pc := ReserveInserted(conversation, body)));
      }
    }
  }

  lemma ReserveLocked(s: State, w: nat, me: Worker)
    requires Inv(s) && At(s, w, Ready) && me.pc.ReserveInserted? && me == s.workers[w].(pc := me.pc)
    requires me.key !in s.reserveLocks && !ReplyTaken(s.table, me.key) && (me.pc.body.Invitation? <==> me.phase == Inviting)
    ensures Inv(s.(workers := s.workers[w := me], reserveLocks := s.reserveLocks[me.key := w]))
  {
    hide Valid, LocksHeld, AllInHand, ClaimsAccounted, ReservesAccounted, SendsPaid, CallsPaid, SendsSplit,
         CacheExplained, HitsExplained, KeysExplained;
    assert Shaped(s.delivered, s.workers[w]);
    Advance(s, w, me, s.(workers := s.workers[w := me], reserveLocks := s.reserveLocks[me.key := w]));
  }

  lemma CommitReservationKeeps(s: State, w: nat)
    requires Inv(s)
    ensures Inv(Apply(s, CommitReservation(w)))
  {
    hide Valid, LocksFree, LocksHeld, AllInHand, ClaimsAccounted, ReservesAccounted, SendsPaid, CallsPaid, SendsSplit,
         CacheExplained, HitsExplained, KeysExplained;
    if w in s.workers && s.workers[w].pc.ReserveInserted? {
      assert Shaped(s.delivered, s.workers[w]);
      Booked(s, w, s.workers[w].pc.conversation, s.workers[w].pc.body, s.workers[w].(pc := Holding(s.table.next)));
    }
  }

  /** The reservation's table-side bookkeeping. */
  lemma ReserveAccounts(s: State, conversation: nat, key: Key, body: Body)
    requires Inv(s) && !ReplyTaken(s.table, key) && KeyExplained(s.delivered, ReservedRow(conversation, key, body))
    ensures var t := Reserve(s.table, conversation, key, body).0;
      && Valid(t) && Grows(s.table, t) && LocksFree(t, s.claimLocks, s.reserveLocks - {key})
      && ClaimsAccounted(t, s.claims, s.removedClaims)
      && ReservesAccounted(t, s.reserves + multiset{key}, s.removedReserves) && KeysExplained(t, s.delivered)
  {
    hide LocksHeld, AllShaped, AllInHand, SendsPaid, CallsPaid, SendsSplit, CacheExplained, HitsExplained;
    ReserveIsExclusive(s.table, conversation, key, body, 0, body);
  }

  lemma Booked(s: State, w: nat, conversation: nat, body: Body, me: Worker)
    requires Inv(s) && w in s.workers && s.workers[w].pc == ReserveInserted(conversation, body)
    requires body.Invitation? <==> me.phase == Inviting
    requires me == s.workers[w].(pc := Holding(s.table.next)) && Shaped(s.delivered, me)
    ensures Inv(s.(workers := s.workers[w := me], table := Reserve(s.table, conversation, me.key, body).0,
                   reserveLocks := s.reserveLocks - {me.key}, reserves := s.reserves + multiset{me.key}))
  {
    hide Valid, AllShaped, AllInHand, ClaimsAccounted, ReservesAccounted, SendsPaid, CallsPaid, SendsSplit,
         CacheExplained, HitsExplained, KeysExplained;
    assert KeyExplained(s.delivered, ReservedRow(conversation, me.key, body));
    ReserveAccounts(s, conversation, me.key, body);
    Advance(s, w, me, s.(workers := s.workers[w := me], table := Reserve(s.table, conversation, me.key, body).0,
                         reserveLocks := s.reserveLocks - {me.key}, reserves := s.reserves + multiset{me.key}));
  }

  lemma CallKeeps(s: State, w: nat, out: Option<Key>, ok: bool)
    requires Inv(s)
    ensures Inv(Apply(s, Call(w, out, ok)))
  {
    hide Valid, LocksFree, LocksHeld, AllShaped, AllInHand, ClaimsAccounted, ReservesAccounted, SendsPaid, CallsPaid,
         SendsSplit, CacheExplained, HitsExplained, KeysExplained;
    if w in s.workers && s.workers[w].pc.Holding? {
      var me := s.workers[w].(pc := Returned(s.workers[w].pc.row, out, ok));
      if me.phase == Answering { AnswerCalled(s, w, me); } else { InviteCalled(s, w, me); }
    }
  }

  lemma AnswerCalled(s: State, w: nat, me: Worker)
    requires Inv(s) && w in s.workers && s.workers[w].pc.Holding? && s.workers[w].phase == Answering
    requires me.pc.Returned? && me.pc.row == s.workers[w].pc.row && me == s.workers[w].(pc := me.pc)
    ensures Inv(s.(workers := s.workers[w := me], sends := s.sends + multiset{me.key}, answers := s.answers + multiset{me.delivery}))
  {
    hide Valid, LocksFree, LocksHeld, ClaimsAccounted, ReservesAccounted, SendsPaid, CallsPaid, CacheExplained,
         HitsExplained, KeysExplained;
    assert Shaped(s.delivered, s.workers[w]) && InHand(s.table, s.removedReserves, s.workers[w]);
    Advance(s, w, me, s.(workers := s.workers[w := me], sends := s.sends + multiset{me.key},
                         answers := s.answers + multiset{me.delivery}));
  }

  lemma InviteCalled(s: State, w: nat, me: Worker)
    requires Inv(s) && w in s.workers && s.workers[w].pc.Holding? && s.workers[w].phase == Inviting
    requires me.pc.Returned? && me.pc.row == s.workers[w].pc.row && me == s.workers[w].(pc := me.pc)
    ensures Inv(s.(workers := s.workers[w := me], sends := s.sends + multiset{me.key}, invites := s.invites + multiset{me.delivery}))
  {
    hide Valid, LocksFree, LocksHeld, ClaimsAccounted, ReservesAccounted, SendsPaid, CallsPaid, CacheExplained,
         HitsExplained, KeysExplained;
    assert Shaped(s.delivered, s.workers[w]) && InHand(s.table, s.removedReserves, s.workers[w]);
    Advance(s, w, me, s.(workers := s.workers[w := me], sends := s.sends + multiset{me.key},
                         invites := s.invites + multiset{me.delivery}));
  }

  lemma AcknowledgeKeeps(s: State, w: nat)
    requires Inv(s)
    ensures Inv(Apply(s, Acknowledge(w)))
  {
    hide Valid, LocksFree, LocksHeld, AllShaped, AllInHand, ClaimsAccounted, ReservesAccounted, SendsPaid, CallsPaid,
         SendsSplit, CacheExplained, HitsExplained, KeysExplained;
    if w in s.workers && s.workers[w].pc.Returned? {
      var me := s.workers[w];
      var out := if me.pc.ok then me.pc.out else None;
      if out.Some? && out.value in s.claimLocks {
      } else if ConfirmConflicts(s.table, me.pc.row, out) {
        DropKeeps(s, w);
      } else {
        var dropped := if me.pc.ok && me.phase == Answering && me.generated then {me.delivery} else {};
        Settled(s, w, me.(pc := Ended), me.pc.row, out, if me.pc.ok then Sent else Unconfirmed, s.cache - dropped);
      }
    }
  }

  /** The confirming UPDATE and the worker's move together. */
  lemma Settled(s: State, w: nat, me: Worker, row: nat, out: Option<Key>, status: Status, cache: set<Key>)
    requires Inv(s) && w in s.workers && s.workers[w].pc.Returned? && s.workers[w].pc.row == row
    requires me == s.workers[w].(pc := Ended) && cache <= s.cache
    requires out.Some? ==> out.value !in s.claimLocks
    ensures Inv(s.(workers := s.workers[w := me], table := Confirm(s.table, row, out, status), cache := cache))
  {
    hide Valid, LocksFree, LocksHeld, ClaimsAccounted, ReservesAccounted, SendsPaid, CallsPaid, SendsSplit,
         CacheExplained, HitsExplained, KeysExplained;
    assert Shaped(s.delivered, s.workers[w]) && InHand(s.table, s.removedReserves, s.workers[w]);
    MoveKeeps(s, w, me);
    ConfirmStepKeeps(s.(workers := s.workers[w := me]), row, out, status, cache);
  }

  lemma ConfirmStepKeeps(s: State, row: nat, out: Option<Key>, status: Status, cache: set<Key>)
    requires Inv(s) && cache <= s.cache
    requires row in s.table.rows ==> s.table.rows[row].direction == Outbound
    requires out.Some? ==> out.value !in s.claimLocks
    ensures Inv(s.(table := Confirm(s.table, row, out, status), cache := cache))
  {
    hide Valid, Confirm, WaTaken, ReplyTaken, InboundStored, LocksHeld, AllShaped, SendsPaid, CallsPaid, SendsSplit,
         HitsExplained;
    ConfirmKeepsKeys(s.table, row, out, status);
  }

  lemma FinishKeeps(s: State, w: nat, invite: bool)
    requires Inv(s)
    ensures Inv(Apply(s, Finish(w, invite)))
  {
    hide Valid, LocksFree, LocksHeld, AllInHand, ClaimsAccounted, ReservesAccounted, SendsPaid, CallsPaid, SendsSplit,
         CacheExplained, HitsExplained, KeysExplained;
    if At(s, w, Ended) {
      if invite && s.workers[w].comment && s.workers[w].phase == Answering && s.workers[w].delivery != EMPTY {
        MoveKeeps(s, w, s.workers[w].(phase := Inviting, key := ReservationKey(s.workers[w].delivery), pc := Ready));
      } else {
        DropKeeps(s, w);
      }
    }
  }

  /** A delete moves each key from the table to the removed column, one for one. */
  lemma DeleteAccounts(t: Table, conversation: nat, k: Key)
    requires Valid(t)
    ensures var t' := DeleteConversation(t, conversation);
      && One(InboundStored(t, k)) == One(InboundStored(t', k)) + One(k in ClaimsIn(t, conversation))
      && One(ReplyTaken(t, k)) == One(ReplyTaken(t', k)) + One(k in ReservesIn(t, conversation))
      && (WaTaken(t', k) ==> WaTaken(t, k))
  {
    var t' := DeleteConversation(t, conversation);
    if InboundStored(t, k) {
      var r :| r in t.rows && t.rows[r].direction == Inbound && t.rows[r].waMessageId == Some(k);
      assert t.rows[r].conversationId != conversation ==> r in t'.rows;
      assert t.rows[r].conversationId == conversation ==> k in ClaimsIn(t, conversation);
    }
    if ReplyTaken(t, k) {
      var r :| r in t.rows && t.rows[r].replyTo == Some(k);
      assert t.rows[r].conversationId != conversation ==> r in t'.rows;
      assert t.rows[r].conversationId == conversation ==> k in ReservesIn(t, conversation);
    }
  }

  lemma DeleteTable(s: State, conversation: nat)
    requires Valid(s.table) && LocksFree(s.table, s.claimLocks, s.reserveLocks) && KeysExplained(s.table, s.delivered)
    requires ClaimsAccounted(s.table, s.claims, s.removedClaims) && ReservesAccounted(s.table, s.reserves, s.removedReserves)
    ensures var t := DeleteConversation(s.table, conversation);
      && Valid(t) && LocksFree(t, s.claimLocks, s.reserveLocks) && KeysExplained(t, s.delivered)
      && ClaimsAccounted(t, s.claims, s.removedClaims + multiset(ClaimsIn(s.table, conversation)))
      && ReservesAccounted(t, s.reserves, s.removedReserves + multiset(ReservesIn(s.table, conversation)))
  {
    hide ClaimsIn, ReservesIn;
    var t := DeleteConversation(s.table, conversation);
    forall k ensures && One(InboundStored(s.table, k)) == One(InboundStored(t, k)) + One(k in ClaimsIn(s.table, conversation))
                     && One(ReplyTaken(s.table, k)) == One(ReplyTaken(t, k)) + One(k in ReservesIn(s.table, conversation))
                     && (WaTaken(t, k) ==> WaTaken(s.table, k))
    {
      DeleteAccounts(s.table, conversation, k);
    }
  }

  lemma DeleteHands(t: Table, conversation: nat, removed: multiset<Key>, workers: map<nat, Worker>)
    requires AllInHand(t, removed, workers)
    ensures AllInHand(DeleteConversation(t, conversation), removed + multiset(ReservesIn(t, conversation)), workers)
  {
  }

  lemma DeleteKeeps(s: State, conversation: nat)
    requires Inv(s)
    ensures Inv(Apply(s, Delete(conversation)))
  {
    hide Valid, LocksFree, LocksHeld, AllShaped, AllInHand, ClaimsAccounted, ReservesAccounted, SendsPaid, CallsPaid,
         SendsSplit, CacheExplained, KeysExplained;
    DeleteTable(s, conversation);
    DeleteHands(s.table, conversation, s.removedReserves, s.workers);
  }

  lemma CrashKeeps(s: State, w: nat)
    requires Inv(s)
    ensures Inv(Apply(s, Crash(w)))
  {
    hide Inv;
    DropKeeps(s, w);
  }

  lemma ExpireKeeps(s: State, id: Key)
    requires Inv(s)
    ensures Inv(Apply(s, Expire(id)))
  {
    hide Valid, LocksFree, LocksHeld, AllShaped, AllInHand, ClaimsAccounted, ReservesAccounted, SendsPaid, CallsPaid,
         SendsSplit, HitsExplained, KeysExplained;
  }

  lemma UnpromptedKeeps(s: State, conversation: nat, goodbye: bool, wa: Option<Key>)
    requires Inv(s)
    ensures Inv(Apply(s, Unprompted(conversation, goodbye, wa)))
  {
    hide Valid, Messages.Unprompted, WaTaken, ReplyTaken, InboundStored, LocksHeld, AllShaped, SendsPaid, CallsPaid, SendsSplit,
         CacheExplained, HitsExplained;
    UnpromptedKeepsKeys(s.table, conversation, goodbye, wa);
  }

  lemma StepKeeps(s: State, step: Step)
    requires Inv(s)
    ensures Inv(Apply(s, step))
  {
    hide Inv;
    match step
    case Deliver(w, id, conversation, comment) => DeliverKeeps(s, w, id, conversation, comment);
    case InsertClaim(w) => InsertClaimKeeps(s, w);
    case CommitClaim(w) => CommitClaimKeeps(s, w);
    case Route(w, choice) => RouteKeeps(s, w, choice);
    case Complete(w, stored) => CompleteKeeps(s, w, stored);
    case InsertReservation(w, conversation, body) => InsertReservationKeeps(s, w, conversation, body);
    case CommitReservation(w) => CommitReservationKeeps(s, w);
    case Call(w, out, ok) => CallKeeps(s, w, out, ok);
    case Acknowledge(w) => AcknowledgeKeeps(s, w);
    case Finish(w, invite) => FinishKeeps(s, w, invite);
    case Crash(w) => CrashKeeps(s, w);
    case Expire(id) => ExpireKeeps(s, id);
    case Unprompted(conversation, goodbye, wa) => UnpromptedKeeps(s, conversation, goodbye, wa);
    case Delete(conversation) => DeleteKeeps(s, conversation);
  }

  lemma {:induction false} Reachable(steps: seq<Step>)
    ensures Inv(Run(Init(), steps))
  {
    if steps == [] {
      assert forall k :: Holders(Init().workers, k) == {} && Deciders(Init().workers, k) == {};
    } else {
      Reachable(steps[..|steps| - 1]);
      StepKeeps(Run(Init(), steps[..|steps| - 1]), steps[|steps| - 1]);
    }
  }
}
