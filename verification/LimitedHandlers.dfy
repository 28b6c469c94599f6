/**
 The handlers with their limits in the loop: the quota verdict of every message is
 the one the customer check gives (app/services/chat_service.py, _within_quota;
 app/core/quota.py).  A check comes after the committed claim, so without deletes
 no message id reaches it twice.
 */
module LimitedHandlers {
  import opened Common
  import M = Messages
  import C = Conversations
  import F = ChatFlow
  import G = ChatGuarantees
  import S = SlidingWindow
  import Q = Quota
  import QL = QuotaLimits
  import D = DuplicateLimit

  /**
   An action with the fingerprint of its text and the verdict of the spend guard, which
   is asked first; or an operator lifting a customer's block.
   */
  datatype Happening =
    | Does(a: G.Action, text: Q.Fingerprint, affordable: bool, now: real)
    | Lifting(user: nat, now: real)

  // ---- the world and the checks it leads to -----------------------------------------------

  ghost function WorldAfter(st: F.Settings, hs: seq<Happening>): (w: F.World)
    ensures F.Inv(w)
  {
    if hs == [] then
      G.LoneEmpty();
      G.LoneImpliesInv(G.Empty());
      G.Empty()
    else
      var before, last := WorldAfter(st, hs[..|hs| - 1]), hs[|hs| - 1];
      if last.Lifting? then before
      else
        G.ActKeeps(before, st, last.a);
        G.Act(before, st, last.a)
  }

  function Actions(hs: seq<Happening>): seq<G.Action> {
    if hs == [] then []
    else Actions(hs[..|hs| - 1]) + (if hs[|hs| - 1].Lifting? then [] else [hs[|hs| - 1].a])
  }

  /** Lifted blocks aside, these are the sequences of ChatGuarantees, whose theorems hold here too. */
  lemma {:induction false} WorldIsRun(st: F.Settings, hs: seq<Happening>)
    ensures F.Inv(G.Empty()) && WorldAfter(st, hs) == G.Run(G.Empty(), st, Actions(hs))
  {
    hide G.Act, F.Inv;
    if hs == [] {
      G.LoneEmpty();
      G.LoneImpliesInv(G.Empty());
    } else {
      var n := |hs| - 1;
      WorldIsRun(st, hs[..n]);
      if hs[n].Does? {
        assert Actions(hs) == Actions(hs[..n]) + [hs[n].a];
        assert Actions(hs)[..|Actions(hs)| - 1] == Actions(hs[..n]);
      } else {
        assert Actions(hs) == Actions(hs[..n]);
      }
    }
  }

  /** The message is taken, the bot answers, nobody asked for a person: _within_quota is called. */
  ghost predicate Asks(w: F.World, st: F.Settings, a: G.Action)
    requires F.Inv(w)
  {
    a.Receive? && !a.e.kind.UnsupportedMessage?
    && F.Take(w, st, a.e, a.resumed, a.now).1.Some?
    && ModeOf(w, st, a) == Some(C.Bot) && !a.e.negotiating && !a.e.wantsHuman
  }

  ghost function ModeOf(w: F.World, st: F.Settings, a: G.Action): Option<C.Mode>
    requires F.Inv(w) && a.Receive?
  {
    F.TakeTakes(w, st, a.e, a.resumed, a.now);
    var (taken, row) := F.Take(w, st, a.e, a.resumed, a.now);
    if row.None? then None else Some(taken.sessions.table.rows[row.value].mode)
  }

  /** Different ids have different numbers. */
  function Code(k: M.Key): nat {
    match k
    case Plain(n) => 2 * n
    case Invite(of) => 2 * Code(of) + 1
  }

  lemma {:induction false} CodeTells(a: M.Key, b: M.Key)
    ensures Code(a) == Code(b) <==> a == b
  {
    if a.Invite? && b.Invite? {
      CodeTells(a.of, b.of);
    }
  }

  /** wa_message_id or f"t{now}" */
  function MemberOf(id: M.Key, now: real): S.Member {
    if id == M.EMPTY then S.At(now) else S.Id(Code(id))
  }

  /** What reaches one customer's limits, in order. */
  ghost function EventOf(st: F.Settings, before: seq<Happening>, h: Happening, user: nat): seq<Q.Event> {
    if h.Lifting? then (if h.user == user then [Q.Lifts(h.now)] else [])
    else if Asks(WorldAfter(st, before), st, h.a) && h.affordable && h.a.e.user == user
    then [Q.Arrives(MemberOf(h.a.e.id, h.now), h.text, h.now)]
    else []
  }

  ghost function Checks(st: F.Settings, hs: seq<Happening>, user: nat): seq<Q.Event> {
    if hs == [] then []
    else Checks(st, hs[..|hs| - 1], user) + EventOf(st, hs[..|hs| - 1], hs[|hs| - 1], user)
  }

  /** One clock that never runs backwards. */
  ghost predicate Clocked(hs: seq<Happening>) {
    && (forall i :: 0 <= i < |hs| ==> 0.0 <= hs[i].now && (hs[i].Does? && hs[i].a.Receive? ==> hs[i].a.now == hs[i].now.Floor))
    && (forall i, j :: 0 <= i < j < |hs| ==> hs[i].now <= hs[j].now)
  }

  ghost predicate NothingDeleted(hs: seq<Happening>) {
    forall i :: 0 <= i < |hs| ==> !(hs[i].Does? && hs[i].a.Elsewhere? && hs[i].a.step.Remove?)
  }

  ghost predicate UpTo(events: seq<Q.Event>, now: real) {
    forall i :: 0 <= i < |events| ==> events[i].now <= now
  }

  lemma {:induction false} ChecksOrdered(st: F.Settings, hs: seq<Happening>, user: nat)
    requires Clocked(hs)
    ensures Q.Ordered(Checks(st, hs, user))
    ensures hs != [] ==> UpTo(Checks(st, hs, user), hs[|hs| - 1].now)
  {
    hide Asks, WorldAfter, Q.Ordered, UpTo;
    if hs == [] {
      NoEvents();
    } else {
      var n := |hs| - 1;
      ChecksOrdered(st, hs[..n], user);
      var now := hs[n].now;
      var events, more := Checks(st, hs[..n], user), EventOf(st, hs[..n], hs[n], user);
      assert 0.0 <= now && (n > 0 ==> hs[n - 1].now <= now);
      Later(events, if n > 0 then hs[n - 1].now else 0.0, now);
      OneMore(events, more);
      AlsoUpTo(events, more, now);
    }
  }

  lemma NoEvents()
    ensures Q.Ordered([])
  {
  }

  lemma Later(events: seq<Q.Event>, t: real, now: real)
    requires t <= now && (events == [] || UpTo(events, t))
    ensures UpTo(events, now)
  {
  }

  lemma AlsoUpTo(events: seq<Q.Event>, more: seq<Q.Event>, now: real)
    requires UpTo(events, now) && |more| <= 1 && (more != [] ==> more[0].now == now)
    ensures UpTo(events + more, now)
  {
  }

  lemma OneMore(events: seq<Q.Event>, more: seq<Q.Event>)
    requires Q.Ordered(events) && |more| <= 1 && (more != [] ==> 0.0 <= more[0].now && UpTo(events, more[0].now))
    ensures Q.Ordered(events + more)
  {
  }

  // ---- no id is checked twice --------------------------------------------------------------------

  ghost predicate StoredMember(t: M.Table, m: S.Member) {
    if m.At? then M.InboundStored(t, M.EMPTY)
    else exists id :: id != M.EMPTY && Code(id) == m.id && M.InboundStored(t, id)
  }

  ghost predicate AllStored(t: M.Table, events: seq<Q.Event>) {
    forall i :: 0 <= i < |events| && events[i].Arrives? ==> StoredMember(t, events[i].m)
  }

  lemma StoredStays(t: M.Table, t': M.Table, m: S.Member)
    requires G.Kept(t, t') && StoredMember(t, m)
    ensures StoredMember(t', m)
  {
    forall id | M.InboundStored(t, id) ensures M.InboundStored(t', id) {
      var r :| r in t.rows && t.rows[r].direction == M.Inbound && t.rows[r].waMessageId == Some(id);
      assert t'.rows[r] == t.rows[r];
    }
  }

  lemma ActKeepsMessages(w: F.World, st: F.Settings, a: G.Action)
    requires F.Inv(w) && !(a.Elsewhere? && a.step.Remove?)
    ensures G.Kept(w.messages, G.Act(w, st, a).messages)
  {
    hide F.Handle;
    match a
    case Receive(e, resumed, o, now) => G.HandleStaysWithCustomer(w, st, e, resumed, o, now);
    case Elsewhere(step) =>
    case Writes(conversation, goodbye, wa) => G.WritingKeeps(w, conversation, goodbye, wa);
  }

  /** A taken message is stored, and was not before. */
  lemma TakenIsNew(w: F.World, st: F.Settings, a: G.Action)
    requires F.Inv(w) && a.Receive? && F.Take(w, st, a.e, a.resumed, a.now).1.Some?
    ensures !M.InboundStored(w.messages, a.e.id) && M.InboundStored(G.Act(w, st, a).messages, a.e.id)
  {
    var e, now := a.e, a.now;
    F.TakeTakes(w, st, e, a.resumed, now);
    G.TakeTranscript(w, st, e, a.resumed, now);
    var (taken, row) := F.Take(w, st, e, a.resumed, now);
    var plan := F.PlanFor(e, taken.sessions.table.rows[row.value].mode, F.ShouldWelcome(st, taken.sessions.table, row.value));
    hide F.Take, F.Perform, F.PlanFor, F.ShouldWelcome;
    G.PerformTranscript(taken, st, row.value, e, plan, a.o, now);
    var r := w.messages.next;
    assert taken.messages.rows[r] == M.InboundRow(row.value, e.id);
    assert G.Act(w, st, a).messages.rows[r] == M.InboundRow(row.value, e.id);
  }

  lemma NotThisMember(t: M.Table, m: S.Member, id: M.Key, now: real)
    requires StoredMember(t, m) && !M.InboundStored(t, id)
    ensures m != MemberOf(id, now)
  {
    if m.Id? {
      var other :| other != M.EMPTY && Code(other) == m.id && M.InboundStored(t, other);
      CodeTells(other, id);
    }
  }

  lemma MemberStored(t: M.Table, id: M.Key, now: real)
    requires M.InboundStored(t, id)
    ensures StoredMember(t, MemberOf(id, now))
  {
  }

  /** A check of a message nobody has stored yet is a check of an id no check has seen. */
  lemma NewToChecks(t: M.Table, events: seq<Q.Event>, id: M.Key, now: real)
    requires AllStored(t, events) && !M.InboundStored(t, id)
    ensures forall i :: 0 <= i < |events| && events[i].Arrives? ==> events[i].m != MemberOf(id, now)
  {
    hide StoredMember, MemberOf;
    forall i | 0 <= i < |events| && events[i].Arrives? ensures events[i].m != MemberOf(id, now) {
      NotThisMember(t, events[i].m, id, now);
    }
  }

  lemma AllStoredStays(t: M.Table, t': M.Table, events: seq<Q.Event>)
    requires G.Kept(t, t') && AllStored(t, events)
    ensures AllStored(t', events)
  {
    hide StoredMember, G.Kept;
    forall i | 0 <= i < |events| && events[i].Arrives? ensures StoredMember(t', events[i].m) {
      StoredStays(t, t', events[i].m);
    }
  }

  /** One more happening keeps every checked id stored, and checks only a new one. */
  lemma StepStored(st: F.Settings, before: seq<Happening>, h: Happening, user: nat, events: seq<Q.Event>)
    requires !(h.Does? && h.a.Elsewhere? && h.a.step.Remove?)
    requires AllStored(WorldAfter(st, before).messages, events)
    ensures AllStored(WorldAfter(st, before + [h]).messages, events + EventOf(st, before, h, user))
    ensures var more := EventOf(st, before, h, user);
      more != [] && more[0].Arrives? ==>
        forall i :: 0 <= i < |events| && events[i].Arrives? ==> events[i].m != more[0].m
  {
    assert (before + [h])[..|before|] == before;
    var w := WorldAfter(st, before);
    hide G.Act, F.Take, M.InboundStored, MemberOf, StoredMember;
    if h.Does? {
      ActKeepsMessages(w, st, h.a);
      AllStoredStays(w.messages, G.Act(w, st, h.a).messages, events);
      if EventOf(st, before, h, user) != [] {
        TakenIsNew(w, st, h.a);
        MemberStored(G.Act(w, st, h.a).messages, h.a.e.id, h.now);
        NewToChecks(w.messages, events, h.a.e.id, h.now);
      }
    }
  }

  lemma {:induction false} ChecksAreStored(st: F.Settings, hs: seq<Happening>, user: nat)
    requires Clocked(hs) && NothingDeleted(hs)
    ensures AllStored(WorldAfter(st, hs).messages, Checks(st, hs, user))
    ensures D.NoRedelivery(Checks(st, hs, user))
  {
    if hs != [] {
      hide WorldAfter, EventOf, AllStored;
      var n := |hs| - 1;
      assert hs[..n] + [hs[n]] == hs;
      ChecksAreStored(st, hs[..n], user);
      StepStored(st, hs[..n], hs[n], user, Checks(st, hs[..n], user));
      Distinct(Checks(st, hs[..n], user), EventOf(st, hs[..n], hs[n], user));
    }
  }

  lemma Distinct(events: seq<Q.Event>, more: seq<Q.Event>)
    requires D.NoRedelivery(events)
    requires |more| <= 1 && (more != [] && more[0].Arrives? ==>
      forall i :: 0 <= i < |events| && events[i].Arrives? ==> events[i].m != more[0].m)
    ensures D.NoRedelivery(events + more)
  {
  }

  /**
   Whatever customers, operators and sweepers do, short of deleting a conversation: the ids
   that reach a customer's limits are pairwise different, so the redelivery branch of the
   check is never taken, and repeated texts stay within their limit for every duplicate
   window, lifted blocks included.
   */
  lemma NoIdIsCheckedTwice(st: F.Settings, qs: Q.Settings, hs: seq<Happening>, user: nat, text: nat)
    requires Clocked(hs) && NothingDeleted(hs)
    ensures D.NoRedelivery(Checks(st, hs, user)) && Q.Ordered(Checks(st, hs, user))
    ensures Q.Guarded(qs) ==> Q.Within(D.AnsweredInRedis(qs, Checks(st, hs, user), text), D.Span(qs), D.SpanOpen(qs), qs.duplicateLimit)
  {
    hide Checks, WorldAfter, D.AnsweredInRedis, Q.Within, Q.Ordered, D.NoRedelivery;
    ChecksAreStored(st, hs, user);
    ChecksOrdered(st, hs, user);
    if Q.Guarded(qs) {
      D.TextsBounded(qs, Checks(st, hs, user), text);
    }
  }

  // ---- completions stay within the limits ----------------------------------------------------------

  /** The verdict a handler acts on is the one the guards give: unaffordable is refused, otherwise the customer check decides. */
  ghost predicate JudgedAt(st: F.Settings, qs: Q.Settings, before: seq<Happening>, h: Happening) {
    h.Does? && Asks(WorldAfter(st, before), st, h.a) ==>
      (h.a.e.quota == F.Allowed <==>
         h.affordable && Q.Check(Q.Run(qs, Checks(st, before, h.a.e.user)).0, qs, MemberOf(h.a.e.id, h.now), h.text, h.now).1 == Q.Allow)
  }

  ghost predicate Judged(st: F.Settings, qs: Q.Settings, hs: seq<Happening>) {
    forall k :: 0 <= k < |hs| ==> JudgedAt(st, qs, hs[..k], hs[k])
  }

  /** The handler calls the model for that customer. */
  ghost predicate Completes(w: F.World, st: F.Settings, a: G.Action, user: nat)
    requires F.Inv(w)
  {
    a.Receive? && a.e.user == user && |G.Act(w, st, a).completed| > |w.completed|
  }

  /** When the model was called for a customer, since the last lifted block. */
  ghost function CompletionTimes(st: F.Settings, qs: Q.Settings, hs: seq<Happening>, user: nat): seq<real> {
    if hs == [] then []
    else
      var before, h := hs[..|hs| - 1], hs[|hs| - 1];
      var times := CompletionTimes(st, qs, before, user);
      if h.Does? then (if Completes(WorldAfter(st, before), st, h.a, user) then times + [h.now] else times)
      else if h.user == user && Q.Unblock(Q.Run(qs, Checks(st, before, user)).0, h.now).1 then [] else times
  }

  /** The model is called only by a handler that asked its limits and was allowed. */
  lemma CompletesOnlyIfAllowed(w: F.World, st: F.Settings, a: G.Action, user: nat)
    requires F.Inv(w) && Completes(w, st, a, user)
    ensures Asks(w, st, a) && a.e.quota == F.Allowed
  {
    F.TakeTakes(w, st, a.e, a.resumed, a.now);
    var (taken, row) := F.Take(w, st, a.e, a.resumed, a.now);
    if row.Some? {
      var plan := F.PlanFor(a.e, taken.sessions.table.rows[row.value].mode, F.ShouldWelcome(st, taken.sessions.table, row.value));
      hide F.Take, F.Perform, F.ShouldWelcome;
      F.PerformOutside(taken, st, row.value, a.e, plan, a.o, a.now);
    }
  }

  lemma {:induction false} CountedAreKnown(qs: Q.Settings, events: seq<Q.Event>)
    ensures D.Known(Q.RunLog(qs, events).0.messages, events)
  {
    if events != [] {
      hide D.Known, Q.StepLog;
      var n := |events| - 1;
      CountedAreKnown(qs, events[..n]);
      assert events[..n] + [events[n]] == events;
      CountedStep(Q.RunLog(qs, events[..n]).0, qs, events[..n], events[n]);
    }
  }

  /** A check counts its own arrival at most, and a lifted block forgets. */
  lemma CountedStep(g: Q.Log, qs: Q.Settings, events: seq<Q.Event>, e: Q.Event)
    requires D.Known(g.messages, events)
    ensures D.Known(Q.StepLog(g, qs, e).0.messages, events + [e])
  {
    if e.Arrives? {
      Q.CountedFrame(g.(messages := g.messages + {S.Entry(e.m, e.now)}), Q.Seen(g.messages, e.m, e.now, Q.DAY), qs, e.m, e.text, e.now);
    }
    hide D.Known, Q.CheckCountedLog, Q.Seen;
    D.KnownMore(g.messages, g.messages, events, e);
    if e.Arrives? {
      D.KnownMore(g.messages, g.messages + {S.Entry(e.m, e.now)}, events, e);
    } else {
      NothingKnown(events + [e]);
    }
  }

  lemma NothingKnown(events: seq<Q.Event>)
    ensures D.Known({}, events)
  {
  }

  lemma RunOne(qs: Q.Settings, events: seq<Q.Event>, e: Q.Event)
    ensures Q.Run(qs, events + [e]).0 == Q.Step(Q.Run(qs, events).0, qs, e).0
  {
    assert (events + [e])[..|events|] == events;
  }

  lemma Before(events: seq<Q.Event>, e: Q.Event)
    requires Q.Ordered(events + [e])
    ensures Q.Ordered(events) && Q.Last(events) <= e.now
  {
    var all := events + [e];
    assert all[|events|] == e && forall i :: 0 <= i < |events| ==> all[i] == events[i];
  }

  ghost predicate NewId(events: seq<Q.Event>, m: S.Member) {
    forall i :: 0 <= i < |events| && events[i].Arrives? ==> events[i].m != m
  }

  lemma UnknownCounts(h: set<S.Entry>, events: seq<Q.Event>, m: S.Member, now: real)
    requires D.Known(h, events) && NewId(events, m)
    ensures S.Arrive(h, m, now, Q.DAY).1
  {
  }

  /** An allowed check of an id no check has seen is booked as answered. */
  lemma AllowedIsAnswered(qs: Q.Settings, events: seq<Q.Event>, e: Q.Event)
    requires Q.Ordered(events + [e]) && e.Arrives? && NewId(events, e.m)
    ensures var s, s' := Q.Run(qs, events).0, Q.Run(qs, events + [e]).0;
      s'.answered == if Q.Check(s, qs, e.m, e.text, e.now).1 == Q.Allow then s.answered + [e.now] else s.answered
  {
    hide Q.Run, Q.RunLog, S.Hit, S.Arrive, S.StandsFor, D.Known, NewId, Q.Ordered, Q.Last;
    Before(events, e);
    RunOne(qs, events, e);
    Q.DecidesAsHistory(qs, events);
    CountedAreKnown(qs, events);
    var s, g := Q.Run(qs, events).0, Q.RunLog(qs, events).0;
    S.HitIsArrival(s.messages, g.messages, Q.Last(events), Q.DAY, e.m, e.now);
    UnknownCounts(g.messages, events, e.m, e.now);
    hide Q.CheckCounted;
  }

  /** In every window there are at least as many. */
  ghost predicate Covers(answered: seq<real>, times: seq<real>) {
    forall a, w, open :: Q.Tally(times, a, w, open) <= Q.Tally(answered, a, w, open)
  }

  lemma CoversMore(answered: seq<real>, times: seq<real>, now: real)
    requires Covers(answered, times)
    ensures Covers(answered + [now], times) && Covers(answered + [now], times + [now])
  {
    assert (answered + [now])[..|answered|] == answered && (times + [now])[..|times|] == times;
  }

  lemma CoversWithin(answered: seq<real>, times: seq<real>, w: real, open: bool, limit: int)
    requires Covers(answered, times) && Q.Within(answered, w, open, limit)
    ensures Q.Within(times, w, open, limit)
  {
  }

  lemma CoversStep(st: F.Settings, qs: Q.Settings, before: seq<Happening>, h: Happening, user: nat, events: seq<Q.Event>, times: seq<real>)
    requires events == Checks(st, before, user) && times == CompletionTimes(st, qs, before, user)
    requires JudgedAt(st, qs, before, h) && Covers(Q.Run(qs, events).0.answered, times)
    requires var more := EventOf(st, before, h, user);
      Q.Ordered(events + more) && (more != [] && more[0].Arrives? ==> NewId(events, more[0].m))
    ensures Covers(Q.Run(qs, events + EventOf(st, before, h, user)).0.answered, CompletionTimes(st, qs, before + [h], user))
  {
    assert (before + [h])[..|before|] == before;
    var more := EventOf(st, before, h, user);
    hide Covers, Q.Run, Q.Check, NewId, Q.Ordered, Checks, Asks, MemberOf;
    assert events + [] == events;
    if h.Does? {
      if Completes(WorldAfter(st, before), st, h.a, user) {
        CompletesOnlyIfAllowed(WorldAfter(st, before), st, h.a, user);
      }
      hide WorldAfter, Completes, CompletionTimes;
      CoversMore(Q.Run(qs, events).0.answered, times, h.now);
      if more != [] {
        AllowedIsAnswered(qs, events, more[0]);
      }
    } else if h.user == user {
      RunOne(qs, events, Q.Lifts(h.now));
      CoversNothing();
    }
  }

  lemma CoversNothing()
    ensures Covers([], [])
  {
  }

  lemma JudgedBefore(st: F.Settings, qs: Q.Settings, hs: seq<Happening>)
    requires hs != [] && Judged(st, qs, hs)
    ensures Judged(st, qs, hs[..|hs| - 1]) && JudgedAt(st, qs, hs[..|hs| - 1], hs[|hs| - 1])
  {
    hide JudgedAt;
    var n := |hs| - 1;
    forall k | 0 <= k < n ensures JudgedAt(st, qs, hs[..n][..k], hs[..n][k]) {
      assert hs[..n][..k] == hs[..k];
    }
  }

  /** Every call of the model is an allowed first check. */
  lemma {:induction false} CompletionsAreAnswers(st: F.Settings, qs: Q.Settings, hs: seq<Happening>, user: nat)
    requires Clocked(hs) && NothingDeleted(hs) && Judged(st, qs, hs)
    ensures Covers(Q.Run(qs, Checks(st, hs, user)).0.answered, CompletionTimes(st, qs, hs, user))
  {
    hide WorldAfter, EventOf, JudgedAt, Judged, Covers, AllStored, D.NoRedelivery, Q.Ordered;
    if hs == [] {
      CoversNothing();
    } else {
      var n := |hs| - 1;
      var before := hs[..n];
      assert before + [hs[n]] == hs;
      JudgedBefore(st, qs, hs);
      CompletionsAreAnswers(st, qs, before, user);
      ChecksAreStored(st, before, user);
      StepStored(st, before, hs[n], user, Checks(st, before, user));
      ChecksOrdered(st, hs, user);
      hide CompletionTimes, Q.Run, Clocked, NothingDeleted;
      CoversStep(st, qs, before, hs[n], user, Checks(st, before, user), CompletionTimes(st, qs, before, user));
    }
  }

  /**
   Over every sequence of handlers, operators' and sweepers' steps and lifted blocks, short of
   a delete, with every verdict the one the guards give: since the last lifted block, the calls
   of the model for one customer stay within the limits in every minute, hour, half-open day
   and burst window.
   */
  lemma CompletionsLimited(st: F.Settings, qs: Q.Settings, hs: seq<Happening>, user: nat)
    requires Clocked(hs) && NothingDeleted(hs) && Judged(st, qs, hs) && Q.Guarded(qs)
    ensures Q.Bounded(CompletionTimes(st, qs, hs, user), qs)
  {
    hide Clocked, NothingDeleted, Judged, Checks, CompletionTimes, Q.Run, Q.Within, Covers, Q.Ordered;
    CompletionsAreAnswers(st, qs, hs, user);
    ChecksOrdered(st, hs, user);
    var answered, times := Q.Run(qs, Checks(st, hs, user)).0.answered, CompletionTimes(st, qs, hs, user);
    Q.LimitsHold(qs, Checks(st, hs, user));
    CoversWithin(answered, times, Q.BurstWindow(qs), Q.BurstOpen(qs), qs.burstMessages);
    CoversWithin(answered, times, 60.0, false, qs.perMinute);
    CoversWithin(answered, times, 3600.0, false, qs.perHour);
    CoversWithin(answered, times, Q.DAY, true, qs.perDay);
  }

  // ---- and exactly for which settings --------------------------------------------------------------

  /** A picture without a caption, after which the model answers and the provider does not. */
  function Visit(n: nat, quota: F.Verdict): G.Action {
    G.Receive(F.Inbound(0, C.WhatsApp, M.Plain(n), F.MediaMessage, false, false, false, quota),
              None, F.Outside(false, false, false, None), 0)
  }

  lemma VisitStored(t: M.Table, id: M.Key, other: M.Key, plan: F.Plan)
    requires M.Valid(t) && G.Unseen(t, id) && other != id && G.Unseen(t, other)
    ensures G.Unseen(F.Outcome(M.Insert(t, M.InboundRow(0, id)), 0, id, plan, F.Outside(false, false, false, None)).0, other)
  {
  }

  lemma CacheKept(w: F.World, st: F.Settings, c: nat, e: F.Inbound, plan: F.Plan, o: F.Outside, now: C.Time)
    requires !o.generated && !o.accepted
    ensures F.Perform(w, st, c, e, plan, o, now).cache == w.cache
  {
  }

  /** Such a visit asks the limits and calls the model exactly if they allow it; the world stays ready for the next. */
  lemma Visited(w: F.World, st: F.Settings, n: nat, quota: F.Verdict)
    requires G.Lone(w) && F.Inv(w) && w.cache == {} && G.Unseen(w.messages, M.Plain(n))
    requires quota == F.Allowed || quota == F.RefusedSilently
    ensures Asks(w, st, Visit(n, quota)) && (Completes(w, st, Visit(n, quota), 0) <==> quota == F.Allowed)
    ensures var w' := G.Act(w, st, Visit(n, quota));
      && G.Lone(w') && w'.cache == {}
      && forall other :: other != M.Plain(n) && G.Unseen(w.messages, other) ==> G.Unseen(w'.messages, other)
  {
    var a := Visit(n, quota);
    hide F.L.Inv, M.Valid, M.WaTaken, M.ReplyTaken, F.OpenRow, F.Take, F.ShouldWelcome, F.Perform, F.Outcome, G.Unseen;
    G.LoneImpliesInv(w);
    G.HandleStaysWithCustomer(w, st, a.e, None, a.o, 0);
    F.TakeTakes(w, st, a.e, None, 0);
    G.LoneTaken(w, st, a.e);
    var taken := F.Take(w, st, a.e, None, 0).0;
    var plan := F.PlanFor(a.e, C.Bot, F.ShouldWelcome(st, taken.sessions.table, 0));
    F.PerformOutside(taken, st, 0, a.e, plan, a.o, 0);
    F.PerformSession(taken, st, 0, a.e, plan, a.o, 0);
    CacheKept(taken, st, 0, a.e, plan, a.o, 0);
    forall other | other != M.Plain(n) && G.Unseen(w.messages, other)
      ensures G.Unseen(G.Act(w, st, a).messages, other)
    {
      VisitStored(w.messages, M.Plain(n), other, plan);
    }
  }

  function VerdictOn(qs: Q.Settings, n: nat): F.Verdict
    requires n > 0
  {
    if Q.Check(Q.Run(qs, QL.Crowd(n - 1)).0, qs, S.Id(2 * n), None, 0.0).1 == Q.Allow then F.Allowed else F.RefusedSilently
  }

  function Nth(qs: Q.Settings, n: nat): Happening
    requires n > 0
  {
    Does(Visit(n, VerdictOn(qs, n)), None, true, 0.0)
  }

  /** n visits at one instant, each judged by the limits. */
  function Visits(qs: Q.Settings, n: nat): seq<Happening> {
    if n == 0 then [] else Visits(qs, n - 1) + [Nth(qs, n)]
  }

  ghost predicate Ready(w: F.World, n: nat) {
    G.Lone(w) && w.cache == {} && forall k: nat :: k > n ==> G.Unseen(w.messages, M.Plain(k))
  }

  lemma CrowdIsNew(n: nat)
    ensures NewId(QL.Crowd(n), S.Id(2 * (n + 1)))
  {
    CrowdIds(n);
  }

  lemma {:induction false} CrowdIds(n: nat)
    ensures forall i :: 0 <= i < |QL.Crowd(n)| && QL.Crowd(n)[i].Arrives? ==> QL.Crowd(n)[i].m.Id? && QL.Crowd(n)[i].m.id <= 2 * n
  {
    if n > 0 {
      CrowdIds(n - 1);
    }
  }

  lemma ReadyFor(w: F.World, n: nat)
    requires Ready(w, n)
    ensures F.Inv(w) && G.Lone(w) && w.cache == {} && G.Unseen(w.messages, M.Plain(n + 1))
  {
    G.LoneImpliesInv(w);
  }

  lemma ReadyNext(w: F.World, st: F.Settings, n: nat, quota: F.Verdict)
    requires F.Inv(w) && Ready(w, n) && (quota == F.Allowed || quota == F.RefusedSilently)
    ensures Ready(G.Act(w, st, Visit(n + 1, quota)), n + 1)
    ensures Asks(w, st, Visit(n + 1, quota)) && (Completes(w, st, Visit(n + 1, quota), 0) <==> quota == F.Allowed)
  {
    hide Asks, Completes, G.Act, G.Lone, G.Unseen, F.Inv;
    ReadyFor(w, n);
    Visited(w, st, n + 1, quota);
  }

  lemma WorldNext(st: F.Settings, before: seq<Happening>, h: Happening)
    requires h.Does?
    ensures WorldAfter(st, before + [h]) == G.Act(WorldAfter(st, before), st, h.a)
  {
    assert (before + [h])[..|before|] == before;
  }

  lemma ChecksNext(st: F.Settings, before: seq<Happening>, h: Happening)
    requires h.Does? && h.affordable && Asks(WorldAfter(st, before), st, h.a)
    ensures Checks(st, before + [h], h.a.e.user)
         == Checks(st, before, h.a.e.user) + [Q.Arrives(MemberOf(h.a.e.id, h.now), h.text, h.now)]
  {
    hide Asks, WorldAfter;
    assert (before + [h])[..|before|] == before;
  }

  lemma TimesNext(st: F.Settings, qs: Q.Settings, before: seq<Happening>, h: Happening, user: nat)
    requires h.Does?
    ensures var times := CompletionTimes(st, qs, before, user);
      CompletionTimes(st, qs, before + [h], user) == if Completes(WorldAfter(st, before), st, h.a, user) then times + [h.now] else times
  {
    hide Completes, WorldAfter, Q.Run;
    assert (before + [h])[..|before|] == before;
  }

  lemma VisitStep(st: F.Settings, qs: Q.Settings, before: seq<Happening>, n: nat)
    requires Ready(WorldAfter(st, before), n) && Checks(st, before, 0) == QL.Crowd(n)
    requires CompletionTimes(st, qs, before, 0) == Q.Run(qs, QL.Crowd(n)).0.answered
    ensures Ready(WorldAfter(st, before + [Nth(qs, n + 1)]), n + 1) && Checks(st, before + [Nth(qs, n + 1)], 0) == QL.Crowd(n + 1)
    ensures CompletionTimes(st, qs, before + [Nth(qs, n + 1)], 0) == Q.Run(qs, QL.Crowd(n + 1)).0.answered
    ensures JudgedAt(st, qs, before, Nth(qs, n + 1))
  {
    hide Asks, Completes, Ready, Q.Check, Q.Run, G.Act, NewId, Q.Ordered, WorldAfter, Checks, CompletionTimes;
    var h := Nth(qs, n + 1);
    ReadyNext(WorldAfter(st, before), st, n, h.a.e.quota);
    WorldNext(st, before, h);
    ChecksNext(st, before, h);
    TimesNext(st, qs, before, h, 0);
    QL.CrowdOrdered(n + 1);
    CrowdIsNew(n);
    AllowedIsAnswered(qs, QL.Crowd(n), Q.Arrives(S.Id(2 * (n + 1)), None, 0.0));
  }

  lemma NobodyVisited(st: F.Settings, qs: Q.Settings)
    ensures Ready(WorldAfter(st, []), 0) && Checks(st, [], 0) == [] && CompletionTimes(st, qs, [], 0) == Q.Run(qs, []).0.answered
  {
    hide G.Lone, G.Unseen;
    G.LoneEmpty();
  }

  lemma {:induction false} VisitsAreACrowd(st: F.Settings, qs: Q.Settings, n: nat)
    ensures Ready(WorldAfter(st, Visits(qs, n)), n) && Checks(st, Visits(qs, n), 0) == QL.Crowd(n)
    ensures CompletionTimes(st, qs, Visits(qs, n), 0) == Q.Run(qs, QL.Crowd(n)).0.answered
    ensures Judged(st, qs, Visits(qs, n))
  {
    hide Ready, JudgedAt, WorldAfter, Checks, CompletionTimes, Q.Run;
    if n == 0 {
      NobodyVisited(st, qs);
    } else {
      hide Judged;
      VisitsAreACrowd(st, qs, n - 1);
      VisitStep(st, qs, Visits(qs, n - 1), n - 1);
      JudgedMore(st, qs, Visits(qs, n - 1), Nth(qs, n));
    }
  }

  lemma JudgedMore(st: F.Settings, qs: Q.Settings, before: seq<Happening>, h: Happening)
    requires Judged(st, qs, before) && JudgedAt(st, qs, before, h)
    ensures Judged(st, qs, before + [h])
  {
    hide JudgedAt;
    var hs := before + [h];
    forall k | 0 <= k < |hs| ensures JudgedAt(st, qs, hs[..k], hs[k]) {
      assert hs[..k] == before[..k];
    }
    assert before[..|before|] == before;
  }

  lemma {:induction false} VisitsAtOnce(qs: Q.Settings, n: nat)
    ensures forall i :: 0 <= i < |Visits(qs, n)| ==> Visits(qs, n)[i].Does? && Visits(qs, n)[i].now == 0.0
    ensures forall i :: 0 <= i < |Visits(qs, n)| ==> Visits(qs, n)[i].a.Receive? && Visits(qs, n)[i].a.now == 0
  {
    if n > 0 {
      hide VerdictOn;
      VisitsAtOnce(qs, n - 1);
      var before, h := Visits(qs, n - 1), Nth(qs, n);
      assert Visits(qs, n) == before + [h];
    }
  }

  lemma VisitsClocked(qs: Q.Settings, n: nat)
    ensures Clocked(Visits(qs, n)) && NothingDeleted(Visits(qs, n))
  {
    VisitsAtOnce(qs, n);
    hide Visits;
  }

  /** Over all such sequences the limits hold for calls of the model if and only if a flood can be stopped or cannot be noticed. */
  lemma CompletionsLimitedIff(st: F.Settings, qs: Q.Settings)
    ensures Q.Guarded(qs) <==>
      forall hs, user | Clocked(hs) && NothingDeleted(hs) && Judged(st, qs, hs) :: Q.Bounded(CompletionTimes(st, qs, hs, user), qs)
  {
    hide Clocked, NothingDeleted, Judged, CompletionTimes, Q.Run, Q.Bounded, Q.Guarded, Ready, QL.Crowd, QL.Enough;
    if Q.Guarded(qs) {
      forall hs, user | Clocked(hs) && NothingDeleted(hs) && Judged(st, qs, hs)
        ensures Q.Bounded(CompletionTimes(st, qs, hs, user), qs)
      {
        CompletionsLimited(st, qs, hs, user);
      }
    } else {
      var n := QL.Enough(qs);
      QL.CrowdOverruns(qs);
      VisitsAreACrowd(st, qs, n);
      VisitsClocked(qs, n);
    }
  }
}
