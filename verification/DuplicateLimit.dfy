/**
 The limit on repeated texts (app/core/quota.py, the duplicate set): over which
 window it holds, for which messages, and exactly for which settings it holds for
 all of them.
 */
module DuplicateLimit {
  import opened Common
  import opened SlidingWindow
  import opened Quota
  import opened QuotaLimits

  /** Duplicates are counted over a closed minute, or over the retention, half-open, when that is no longer. */
  function Span(st: Settings): real {
    if st.duplicateSeconds > 60 then 60.0 else st.duplicateSeconds as real
  }

  predicate SpanOpen(st: Settings) {
    st.duplicateSeconds <= 60
  }

  // ---- which messages of a text are answered --------------------------------------------------

  /** A message of that text, not counted within a day, and let through. */
  predicate Answers(g: Log, st: Settings, e: Event, text: nat) {
    && e.Arrives? && e.text == Some(text)
    && Remaining(g.blockedUntil, e.now) <= 0 && Arrive(g.messages, e.m, e.now, DAY).1
    && CheckLog(g, st, e.m, e.text, e.now).1 == Allow
  }

  /** And not already in that text's duplicate set, where NX would leave its old time standing. */
  predicate Fresh(g: Log, st: Settings, e: Event, text: nat)
    requires e.Arrives?
  {
    Arrive(DuplicateLog(g, text), e.m, e.now, st.duplicateSeconds as real).1
  }

  /** When messages of that text were allowed on their first check. */
  function Answered(st: Settings, events: seq<Event>, text: nat): seq<real> {
    if events == [] then []
    else
      var before, e := events[..|events| - 1], events[|events| - 1];
      var g := RunLog(st, before).0;
      Answered(st, before, text) + (if Answers(g, st, e, text) then [e.now] else [])
  }

  function FreshlyAnswered(st: Settings, events: seq<Event>, text: nat): seq<real> {
    if events == [] then []
    else
      var before, e := events[..|events| - 1], events[|events| - 1];
      var g := RunLog(st, before).0;
      FreshlyAnswered(st, before, text) + (if Answers(g, st, e, text) && Fresh(g, st, e, text) then [e.now] else [])
  }

  /** The same read off Redis, as the running system could. */
  predicate AnswersInRedis(s: Redis, st: Settings, e: Event, text: nat) {
    && e.Arrives? && e.text == Some(text)
    && Remaining(s.blockedUntil, e.now) <= 0 && Hit(s.messages, e.m, e.now, DAY).1
    && Check(s, st, e.m, e.text, e.now).1 == Allow
  }

  function AnsweredInRedis(st: Settings, events: seq<Event>, text: nat): seq<real> {
    if events == [] then []
    else
      var before, e := events[..|events| - 1], events[|events| - 1];
      AnsweredInRedis(st, before, text) + (if AnswersInRedis(Run(st, before).0, st, e, text) then [e.now] else [])
  }

  lemma {:induction false} RedisAnswersAlike(st: Settings, events: seq<Event>, text: nat)
    requires Ordered(events)
    ensures AnsweredInRedis(st, events, text) == Answered(st, events, text)
  {
    if events != [] {
      var n := |events| - 1;
      var before, e := events[..n], events[n];
      RedisAnswersAlike(st, before, text);
      DecidesAsHistory(st, before);
      var s, g := Run(st, before).0, RunLog(st, before).0;
      hide Run, RunLog, Hit, Arrive, Check, CheckLog, StandsFor;
      if e.Arrives? {
        CheckRefines(s, g, st, Last(before), e.m, e.text, e.now);
        HitIsArrival(s.messages, g.messages, Last(before), DAY, e.m, e.now);
      }
    }
  }

  // ---- the bound ------------------------------------------------------------------------------

  /** The duplicate history of a text with its fresh answers, as a history with its answers. */
  function Book(g: Log, text: nat, answered: seq<real>): Log {
    Log(DuplicateLog(g, text), map[], None, answered)
  }

  ghost predicate Kept(g: Log, st: Settings, text: nat, answered: seq<real>, last: real) {
    && Past(Book(g, text, answered), last) && Paid(Book(g, text, answered))
    && Within(answered, Span(st), SpanOpen(st), st.duplicateLimit)
  }

  /** A text that is let through has room for it in the window that ends now. */
  lemma TextHasRoom(h: set<Entry>, st: Settings, m: Member, now: real)
    requires (forall e :: e in h ==> e.at <= now) && Arrive(h, m, now, st.duplicateSeconds as real).1
    requires st.duplicateSeconds > 0
    requires Count(Seen(h, m, now, st.duplicateSeconds as real), now - 60.0, now) <= st.duplicateLimit
    ensures Tallied(h + {Entry(m, now)}, now - Span(st), Span(st), SpanOpen(st)) <= st.duplicateLimit
  {
    var retain := st.duplicateSeconds as real;
    var h' := h + {Entry(m, now)};
    var seen := Seen(h, m, now, retain);
    assert seen == Recent(h, now, retain) + {Entry(m, now)};
    if st.duplicateSeconds > 60 {
      assert (set e | e in h' && In(e.at, now - 60.0, 60.0, false)) == (set e | e in seen && now - 60.0 <= e.at <= now);
    } else {
      assert (set e | e in h' && In(e.at, now - retain, retain, true)) == (set e | e in seen && now - 60.0 <= e.at <= now);
    }
  }

  lemma {:induction false} EmptySpan(answered: seq<real>, a: real, w: real)
    requires w <= 0.0
    ensures Tally(answered, a, w, true) == 0
  {
    if answered != [] {
      EmptySpan(answered[..|answered| - 1], a, w);
    }
  }

  lemma FreshAnswerKept(g: Log, st: Settings, m: Member, text: nat, answered: seq<real>, now: real)
    requires st.duplicateSeconds > 0 && Kept(g, st, text, answered, now)
    requires Arrive(DuplicateLog(g, text), m, now, st.duplicateSeconds as real).1
    requires Count(Seen(DuplicateLog(g, text), m, now, st.duplicateSeconds as real), now - 60.0, now) <= st.duplicateLimit
    ensures Within(answered + [now], Span(st), SpanOpen(st), st.duplicateLimit)
  {
    var book, h := Book(g, text, answered), DuplicateLog(g, text);
    TextHasRoom(h, st, m, now);
    NewInHistory(h, m, now, st.duplicateSeconds as real);
    AnswerStaysPaid(book, Entry(m, now));
    hide Paid, Within, Tally, Tallied, Seen, Arrive, Count;
    RoomPaid(book.(messages := h + {Entry(m, now)}, answered := answered + [now]), now, Span(st), SpanOpen(st));
    AnswerStaysWithin(book, h + {Entry(m, now)}, now, Span(st), SpanOpen(st), st.duplicateLimit);
  }

  lemma NewInHistory(h: set<Entry>, m: Member, now: real, retain: real)
    requires retain > 0.0 && Arrive(h, m, now, retain).1
    ensures Entry(m, now) !in h
  {
    assert Entry(m, now) in h ==> Entry(m, now) in Recent(h, now, retain);
  }

  /** What a check does to one text's duplicate history, and what an allowed one has shown about it. */
  lemma CheckedText(g: Log, st: Settings, m: Member, text: nat, now: real)
    requires Guarded(st) && Remaining(g.blockedUntil, now) <= 0 && Arrive(g.messages, m, now, DAY).1
    ensures var (g', d) := CheckLog(g, st, m, Some(text), now);
      var h := DuplicateLog(g, text);
      var retain := st.duplicateSeconds as real;
      && (DuplicateLog(g', text) == h || DuplicateLog(g', text) == Arrive(h, m, now, retain).0)
      && (d == Allow ==> DuplicateLog(g', text) == Arrive(h, m, now, retain).0
                         && Count(Seen(h, m, now, retain), now - 60.0, now) <= st.duplicateLimit)
  {
    hide Seen, Recent, Limits, CountsIn, Count, Guarded, Remaining;
    if CountsIn(Seen(g.messages, m, now, DAY), st, now).burst > st.burstMessages {
      GuardedFlood(st, Seen(g.messages, m, now, DAY), now);
    }
    hide Arrive;
  }

  lemma GuardedFlood(st: Settings, seen: set<Entry>, now: real)
    requires Guarded(st) && CountsIn(seen, st, now).burst > st.burstMessages
    ensures st.blockSeconds > 0
  {
    if st.burstSeconds < 0 {
      NothingInNegative(seen, now, st.burstSeconds as real);
    }
  }

  /** Every other step leaves a text's duplicate history alone; lifting a block does too. */
  lemma OtherText(g: Log, st: Settings, e: Event, text: nat)
    requires !(e.Arrives? && e.text == Some(text) && Remaining(g.blockedUntil, e.now) <= 0 && Arrive(g.messages, e.m, e.now, DAY).1)
    ensures DuplicateLog(StepLog(g, st, e).0, text) == DuplicateLog(g, text)
  {
    hide Arrive, Seen, Limits, CountsIn;
  }

  lemma KeptLater(g: Log, g': Log, st: Settings, text: nat, answered: seq<real>, last: real, now: real)
    requires Kept(g, st, text, answered, last) && last <= now && DuplicateLog(g', text) == DuplicateLog(g, text)
    ensures Kept(g', st, text, answered, now)
  {
  }

  lemma KeptArrival(g: Log, g': Log, st: Settings, m: Member, text: nat, answered: seq<real>, now: real, more: seq<real>)
    requires st.duplicateSeconds > 0 && Kept(g, st, text, answered, now)
    requires Arrive(DuplicateLog(g, text), m, now, st.duplicateSeconds as real).1
    requires DuplicateLog(g', text) == DuplicateLog(g, text) + {Entry(m, now)}
    requires more == [] || more == [now]
    requires Within(answered + more, Span(st), SpanOpen(st), st.duplicateLimit)
    ensures Kept(g', st, text, answered + more, now)
  {
    NewInHistory(DuplicateLog(g, text), m, now, st.duplicateSeconds as real);
    AnswerStaysPaid(Book(g, text, answered), Entry(m, now));
    hide Paid, Within;
    assert answered + [] == answered;
  }

  lemma KeptStep(g: Log, st: Settings, e: Event, text: nat, answered: seq<real>, last: real)
    requires Guarded(st) && st.duplicateSeconds > 0 && Kept(g, st, text, answered, last) && last <= e.now
    ensures var more := if Answers(g, st, e, text) && Fresh(g, st, e, text) then [e.now] else [];
      Kept(StepLog(g, st, e).0, st, text, answered + more, e.now)
  {
    hide Kept, CheckLog, DuplicateLog, Seen;
    KeptLater(g, g, st, text, answered, last, e.now);
    assert answered + [] == answered;
    if e.Arrives? && e.text == Some(text) && Remaining(g.blockedUntil, e.now) <= 0 && Arrive(g.messages, e.m, e.now, DAY).1 {
      CheckedText(g, st, e.m, text, e.now);
      var g' := CheckLog(g, st, e.m, e.text, e.now).0;
      if DuplicateLog(g', text) == DuplicateLog(g, text) {
        KeptLater(g, g', st, text, answered, e.now, e.now);
      }
      if Fresh(g, st, e, text) {
        if Answers(g, st, e, text) {
          FreshAnswerKept(g, st, e.m, text, answered, e.now);
          KeptArrival(g, g', st, e.m, text, answered, e.now, [e.now]);
        } else if DuplicateLog(g', text) != DuplicateLog(g, text) {
          KeptWithin(g, st, text, answered, e.now);
          KeptArrival(g, g', st, e.m, text, answered, e.now, []);
        }
      }
    } else {
      OtherText(g, st, e, text);
      KeptLater(g, StepLog(g, st, e).0, st, text, answered, e.now, e.now);
    }
  }

  lemma KeptWithin(g: Log, st: Settings, text: nat, answered: seq<real>, last: real)
    requires Kept(g, st, text, answered, last)
    ensures Within(answered + [], Span(st), SpanOpen(st), st.duplicateLimit)
  {
    assert answered + [] == answered;
  }

  lemma {:induction false} RunKept(st: Settings, events: seq<Event>, text: nat)
    requires Guarded(st) && st.duplicateSeconds > 0 && Ordered(events)
    ensures Kept(RunLog(st, events).0, st, text, FreshlyAnswered(st, events, text), Last(events))
  {
    if events != [] {
      hide Kept, StepLog, Answers, Fresh;
      var n := |events| - 1;
      RunKept(st, events[..n], text);
      KeptStep(RunLog(st, events[..n]).0, st, events[n], text, FreshlyAnswered(st, events[..n], text), Last(events[..n]));
    }
  }

  /**
   Over every run, lifted blocks included: of one text, the messages let through
   that were not already in its duplicate set never exceed the limit in any closed
   minute, or in any half-open stretch of the retention when that is no longer.
   */
  lemma FreshTextsBounded(st: Settings, events: seq<Event>, text: nat)
    requires Guarded(st) && Ordered(events)
    ensures Within(FreshlyAnswered(st, events, text), Span(st), SpanOpen(st), st.duplicateLimit)
  {
    if st.duplicateSeconds > 0 {
      RunKept(st, events, text);
    } else {
      EmptyWindow(FreshlyAnswered(st, events, text), Span(st), st.duplicateLimit);
    }
  }

  // ---- when every answered message is a fresh one ----------------------------------------------

  ghost predicate NoLifts(events: seq<Event>) {
    forall i :: 0 <= i < |events| ==> events[i].Arrives?
  }

  /** No message comes twice. */
  ghost predicate NoRedelivery(events: seq<Event>) {
    forall i, j :: 0 <= i < j < |events| && events[i].Arrives? && events[j].Arrives? ==> events[i].m != events[j].m
  }

  ghost predicate CountedToo(g: Log, text: nat) {
    DuplicateLog(g, text) <= g.messages
  }

  lemma CountedTooStep(g: Log, st: Settings, e: Event, text: nat)
    requires Guarded(st) && CountedToo(g, text) && e.Arrives?
    ensures CountedToo(StepLog(g, st, e).0, text)
  {
    if Remaining(g.blockedUntil, e.now) <= 0 && Arrive(g.messages, e.m, e.now, DAY).1 {
      CountedFrame(g.(messages := g.messages + {Entry(e.m, e.now)}), Seen(g.messages, e.m, e.now, DAY), st, e.m, e.text, e.now);
      if e.text == Some(text) {
        CheckedText(g, st, e.m, text, e.now);
      } else {
        OtherText(g, st, e, text);
      }
    }
  }

  lemma {:induction false} CountedTooRun(st: Settings, events: seq<Event>, text: nat)
    requires Guarded(st) && NoLifts(events)
    ensures CountedToo(RunLog(st, events).0, text)
  {
    if events != [] {
      hide CountedToo, StepLog;
      var n := |events| - 1;
      CountedTooRun(st, events[..n], text);
      CountedTooStep(RunLog(st, events[..n]).0, st, events[n], text);
    }
  }

  ghost predicate Known(h: set<Entry>, events: seq<Event>) {
    forall e :: e in h ==> exists i :: 0 <= i < |events| && events[i].Arrives? && events[i].m == e.member
  }

  lemma KnownMore(h: set<Entry>, h': set<Entry>, events: seq<Event>, e: Event)
    requires Known(h, events) && (h' == h || (e.Arrives? && h' <= h + {Entry(e.m, e.now)}))
    ensures Known(h', events + [e])
  {
    var events' := events + [e];
    assert events'[|events|] == e;
    forall x | x in h' ensures exists i :: 0 <= i < |events'| && events'[i].Arrives? && events'[i].m == x.member {
      if x in h {
        var i :| 0 <= i < |events| && events[i].Arrives? && events[i].m == x.member;
        assert events'[i] == events[i];
      }
    }
  }

  lemma ArriveAdds(h: set<Entry>, m: Member, now: real, retain: real)
    ensures Arrive(h, m, now, retain).0 <= h + {Entry(m, now)}
  {
  }

  lemma KnownStep(g: Log, st: Settings, events: seq<Event>, e: Event, text: nat)
    requires Guarded(st) && Known(DuplicateLog(g, text), events)
    ensures Known(DuplicateLog(StepLog(g, st, e).0, text), events + [e])
  {
    hide Known, CheckLog, DuplicateLog, Arrive, Seen, Count, Guarded, Remaining, UnblockLog;
    if e.Arrives? && e.text == Some(text) && Remaining(g.blockedUntil, e.now) <= 0 && Arrive(g.messages, e.m, e.now, DAY).1 {
      CheckedText(g, st, e.m, text, e.now);
      ArriveAdds(DuplicateLog(g, text), e.m, e.now, st.duplicateSeconds as real);
    } else {
      OtherText(g, st, e, text);
    }
    KnownMore(DuplicateLog(g, text), DuplicateLog(StepLog(g, st, e).0, text), events, e);
  }

  lemma {:induction false} KnownRun(st: Settings, events: seq<Event>, text: nat)
    requires Guarded(st)
    ensures Known(DuplicateLog(RunLog(st, events).0, text), events)
  {
    hide StepLog;
    if events != [] {
      hide Known, DuplicateLog;
      var n := |events| - 1;
      KnownRun(st, events[..n], text);
      KnownStep(RunLog(st, events[..n]).0, st, events[..n], events[n], text);
      assert events[..n] + [events[n]] == events;
    } else {
      RunLogEmpty(st);
    }
  }

  /** What a caller can make sure of: the set does not outlive the message count and no block is lifted, or ids are new. */
  ghost predicate NeverStale(st: Settings, events: seq<Event>) {
    (st.duplicateSeconds <= 86400 && NoLifts(events)) || NoRedelivery(events)
  }

  lemma StaleNever(st: Settings, before: seq<Event>, e: Event, text: nat)
    requires Guarded(st) && NeverStale(st, before + [e]) && Answers(RunLog(st, before).0, st, e, text)
    ensures Fresh(RunLog(st, before).0, st, e, text)
  {
    var g, all := RunLog(st, before).0, before + [e];
    var h := DuplicateLog(g, text);
    hide RunLog, CheckLog, DuplicateLog;
    assert forall i :: 0 <= i < |before| ==> all[i] == before[i];
    if NoRedelivery(all) {
      KnownRun(st, before, text);
      forall x | x in h ensures x.member != e.m {
        var i :| 0 <= i < |before| && before[i].Arrives? && before[i].m == x.member;
        assert all[i].m != all[|before|].m;
      }
    } else {
      assert NoLifts(before);
      CountedTooRun(st, before, text);
      forall x | x in Recent(h, e.now, st.duplicateSeconds as real) ensures x.member != e.m {
        assert x in Recent(g.messages, e.now, DAY);
      }
    }
  }

  lemma {:induction false} AllFresh(st: Settings, events: seq<Event>, text: nat)
    requires Guarded(st) && NeverStale(st, events)
    ensures Answered(st, events, text) == FreshlyAnswered(st, events, text)
  {
    if events != [] {
      hide Answers, Fresh, RunLog;
      var n := |events| - 1;
      AllFresh(st, events[..n], text);
      assert events[..n] + [events[n]] == events;
      if Answers(RunLog(st, events[..n]).0, st, events[n], text) {
        StaleNever(st, events[..n], events[n], text);
      }
    }
  }

  /** Then the limit holds for every message of the text that is allowed on its first check. */
  lemma TextsBounded(st: Settings, events: seq<Event>, text: nat)
    requires Guarded(st) && Ordered(events) && NeverStale(st, events)
    ensures Within(AnsweredInRedis(st, events, text), Span(st), SpanOpen(st), st.duplicateLimit)
  {
    RedisAnswersAlike(st, events, text);
    AllFresh(st, events, text);
    FreshTextsBounded(st, events, text);
  }

  // ---- and exactly when it is so ------------------------------------------------------------------

  lemma AnsweredOne(st: Settings, events: seq<Event>, e: Event, text: nat)
    ensures Answered(st, events + [e], text)
         == Answered(st, events, text) + (if Answers(RunLog(st, events).0, st, e, text) then [e.now] else [])
  {
    hide Answers, RunLog;
    assert (events + [e])[..|events|] == events;
  }

  /** One more message of text 0, answered with room to spare. */
  lemma Another(st: Settings, events: seq<Event>, m: Member, now: real, room: nat)
    requires var g := RunLog(st, events).0;
      && g.blockedUntil.None? && !Has(Recent(g.messages, now, DAY), m) && |Recent(g.messages, now, DAY)| < room
      && Count(Seen(DuplicateLog(g, 0), m, now, st.duplicateSeconds as real), now - 60.0, now) <= st.duplicateLimit
    requires room <= st.burstMessages && room <= st.perMinute && room <= st.perHour && room <= st.perDay
    ensures var g := RunLog(st, events).0;
      var g' := RunLog(st, events + [Arrives(m, Some(0), now)]).0;
      && g'.messages == g.messages + {Entry(m, now)} && g'.blockedUntil.None?
      && DuplicateLog(g', 0) == Arrive(DuplicateLog(g, 0), m, now, st.duplicateSeconds as real).0
      && Answered(st, events + [Arrives(m, Some(0), now)], 0) == Answered(st, events, 0) + [now]
  {
    var g, e := RunLog(st, events).0, Arrives(m, Some(0), now);
    RunLogOne(st, events, e);
    AnsweredOne(st, events, e, 0);
    RoomyCheck(g, st, m, Some(0), now, room);
    hide RunLog, CheckLog, Answered, Count, Seen;
  }

  lemma CountOf(seen: set<Entry>, from: real, to: real, e: Entry)
    requires forall x :: x in seen && from <= x.at <= to ==> x == e
    ensures Count(seen, from, to) <= 1
  {
    var counted := set x | x in seen && from <= x.at <= to;
    assert counted <= {e};
    assert counted == {} || counted == {e};
  }

  /** Settings with room for everything but repeated texts, of which one is allowed. */
  function Generous(seconds: int): Settings {
    Settings(9, 10, 9, 9, 9, 1, seconds, 1)
  }

  lemma StartsEmpty(st: Settings)
    ensures RunLog(st, []).0 == Log({}, map[], None, []) && Answered(st, [], 0) == []
  {
  }

  /** The first message of a text, from nothing. */
  lemma FirstOfText(st: Settings, now: real)
    requires st.burstMessages >= 1 && st.perMinute >= 1 && st.perHour >= 1 && st.perDay >= 1 && st.duplicateLimit >= 1
    ensures var events := [Arrives(Id(0), Some(0), now)];
      var g := RunLog(st, events).0;
      && g.messages == {Entry(Id(0), now)} && g.blockedUntil.None? && DuplicateLog(g, 0) == {Entry(Id(0), now)}
      && Answered(st, events, 0) == [now]
  {
    StartsEmpty(st);
    CountOf(Seen({}, Id(0), now, st.duplicateSeconds as real), now - 60.0, now, Entry(Id(0), now));
    Another(st, [], Id(0), now, 1);
    assert [] + [Arrives(Id(0), Some(0), now)] == [Arrives(Id(0), Some(0), now)];
    assert {} + {Entry(Id(0), now)} == {Entry(Id(0), now)};
  }

  /** With few messages so far, a new id has room; and a text has, whose old entries are out of the minute. */
  lemma HasRoom(messages: set<Entry>, duplicates: set<Entry>, m: Member, now: real, retain: real)
    requires |messages| < 9 && !Has(Recent(messages, now, DAY), m)
    requires forall e :: e in duplicates ==> e.at < now - 60.0
    ensures |Recent(messages, now, DAY)| < 9
    ensures Count(Seen(duplicates, m, now, retain), now - 60.0, now) <= 1
  {
    assert messages == Recent(messages, now, DAY) + (messages - Recent(messages, now, DAY));
    CountOf(Seen(duplicates, m, now, retain), now - 60.0, now, Entry(m, now));
  }

  lemma MinuteRoom(retain: real)
    ensures !Has(Recent({Entry(Id(0), 1.0)}, 61.5, DAY), Id(1)) && |Recent({Entry(Id(0), 1.0)}, 61.5, DAY)| < 9
    ensures Count(Seen({Entry(Id(0), 1.0)}, Id(1), 61.5, retain), 61.5 - 60.0, 61.5) <= 1
  {
    HasRoom({Entry(Id(0), 1.0)}, {Entry(Id(0), 1.0)}, Id(1), 61.5, retain);
  }

  lemma InOrder(events: seq<Event>, e: Event)
    requires Ordered(events) && NoLifts(events) && e.Arrives? && Last(events) <= e.now
    ensures Ordered(events + [e]) && NoLifts(events + [e]) && Last(events + [e]) == e.now
  {
    var all := events + [e];
    forall i | 0 <= i < |events| ensures events[i].now <= e.now {
    }
  }

  lemma OneInOrder(e: Event)
    requires e.Arrives? && 0.0 <= e.now
    ensures Ordered([e]) && NoLifts([e]) && Last([e]) == e.now
  {
  }

  /** Two equal texts a little over a minute apart are both answered, however long the configured window. */
  lemma MinuteApart(seconds: int)
    requires seconds > 60
    ensures var events := [Arrives(Id(0), Some(0), 1.0)] + [Arrives(Id(1), Some(0), 61.5)];
      && Guarded(Generous(seconds)) && Ordered(events) && NoLifts(events)
      && AnsweredInRedis(Generous(seconds), events, 0) == [1.0, 61.5]
  {
    var st, first := Generous(seconds), [Arrives(Id(0), Some(0), 1.0)];
    var events := first + [Arrives(Id(1), Some(0), 61.5)];
    hide RunLog, Answered, AnsweredInRedis, Count, Seen, Has, Recent, Arrive, DuplicateLog, Ordered, NoLifts, Last;
    MinuteRoom(seconds as real);
    FirstOfText(st, 1.0);
    Another(st, first, Id(1), 61.5, 9);
    OneInOrder(Arrives(Id(0), Some(0), 1.0));
    InOrder(first, Arrives(Id(1), Some(0), 61.5));
    RedisAnswersAlike(st, events, 0);
  }

  lemma OldEntryStands(seconds: int)
    requires seconds > 86400
    ensures var old_, retain := Entry(Id(0), 0.0), seconds as real;
      var messages := {old_} + {Entry(Id(0), DAY)};
      && Arrive({old_}, Id(0), DAY, retain).0 == {old_}
      && !Has(Recent({old_}, DAY, DAY), Id(0)) && |Recent({old_}, DAY, DAY)| < 9
      && Count(Seen({old_}, Id(0), DAY, retain), DAY - 60.0, DAY) <= 1
      && !Has(Recent(messages, DAY, DAY), Id(1)) && |Recent(messages, DAY, DAY)| < 9
      && Count(Seen({old_}, Id(1), DAY, retain), DAY - 60.0, DAY) <= 1
  {
    var old_, retain := Entry(Id(0), 0.0), seconds as real;
    var messages := {old_} + {Entry(Id(0), DAY)};
    assert old_ in Recent({old_}, DAY, retain);
    HasRoom({old_}, {old_}, Id(0), DAY, retain);
    HasRoom(messages, {old_}, Id(1), DAY, retain);
  }

  function Stale(): seq<Event> {
    [Arrives(Id(0), Some(0), 0.0)] + [Arrives(Id(0), Some(0), DAY)] + [Arrives(Id(1), Some(0), DAY)]
  }

  lemma StaleOrdered()
    ensures Ordered(Stale()) && NoLifts(Stale())
  {
    hide Ordered, NoLifts, Last;
    var first := [Arrives(Id(0), Some(0), 0.0)];
    OneInOrder(Arrives(Id(0), Some(0), 0.0));
    InOrder(first, Arrives(Id(0), Some(0), DAY));
    InOrder(first + [Arrives(Id(0), Some(0), DAY)], Arrives(Id(1), Some(0), DAY));
  }

  lemma StaleAnswered(seconds: int)
    requires seconds > 86400
    ensures Answered(Generous(seconds), Stale(), 0) == [0.0] + [DAY] + [DAY]
  {
    hide RunLog, Answered, Count, Seen, Has, Recent, Arrive, DuplicateLog;
    var st, first := Generous(seconds), [Arrives(Id(0), Some(0), 0.0)];
    OldEntryStands(seconds);
    FirstOfText(st, 0.0);
    Another(st, first, Id(0), DAY, 9);
    Another(st, first + [Arrives(Id(0), Some(0), DAY)], Id(1), DAY, 9);
  }

  /** A duplicate set that outlives the day keeps the old time of a message redelivered after it. */
  lemma StaleOverrun(seconds: int)
    requires seconds > 86400
    ensures Guarded(Generous(seconds)) && Ordered(Stale()) && NoLifts(Stale())
    ensures AnsweredInRedis(Generous(seconds), Stale(), 0) == [0.0, DAY, DAY]
  {
    hide Answered, AnsweredInRedis, Ordered, NoLifts, Stale;
    StaleOrdered();
    StaleAnswered(seconds);
    RedisAnswersAlike(Generous(seconds), Stale(), 0);
    assert [0.0] + [DAY] + [DAY] == [0.0, DAY, DAY];
  }

  // ---- a lifted block forgets the messages and keeps their texts -----------------------------------

  /** Settings under which three messages at once are a flood, and one of a text is allowed. */
  function Quick(seconds: int): Settings {
    Settings(2, 1, 9, 9, 9, 1, seconds, 10)
  }

  /** An answered text, a flood beside it, and the block lifted at once. */
  function Lifted(): seq<Event> {
    [Arrives(Id(0), Some(0), 0.0)] + [Arrives(Id(1), None, 0.0)] + [Arrives(Id(2), None, 0.0)] + [Lifts(0.0)]
  }

  lemma BesideText(g: Log, seconds: int)
    requires g.messages == {Entry(Id(0), 0.0)} && g.blockedUntil.None?
    ensures var g' := CheckLog(g, Quick(seconds), Id(1), None, 0.0).0;
      g'.messages == {Entry(Id(0), 0.0), Entry(Id(1), 0.0)} && g'.blockedUntil.None? && g'.duplicates == g.duplicates
  {
    assert Recent(g.messages, 0.0, DAY) == g.messages && !Has(g.messages, Id(1));
    RoomyCheck(g, Quick(seconds), Id(1), None, 0.0, 2);
  }

  lemma FloodBlocks(g: Log, seconds: int)
    requires g.messages == {Entry(Id(0), 0.0), Entry(Id(1), 0.0)} && g.blockedUntil.None?
    ensures var g' := CheckLog(g, Quick(seconds), Id(2), None, 0.0).0;
      g'.blockedUntil == Some(10.0) && g'.duplicates == g.duplicates
  {
    assert Recent(g.messages, 0.0, DAY) == g.messages && !Has(g.messages, Id(2));
    var seen := Seen(g.messages, Id(2), 0.0, DAY);
    assert seen == {Entry(Id(0), 0.0), Entry(Id(1), 0.0), Entry(Id(2), 0.0)};
    assert (set e | e in seen && -1.0 <= e.at <= 0.0) == seen;
  }

  lemma LiftedState(seconds: int)
    ensures var g := RunLog(Quick(seconds), Lifted()).0;
      && g.messages == {} && g.blockedUntil.None? && DuplicateLog(g, 0) == {Entry(Id(0), 0.0)}
      && Answered(Quick(seconds), Lifted(), 0) == [0.0]
  {
    var st := Quick(seconds);
    var a, b, c, d := Arrives(Id(0), Some(0), 0.0), Arrives(Id(1), None, 0.0), Arrives(Id(2), None, 0.0), Lifts(0.0);
    hide RunLog, Answered, CheckLog, Has, Recent, Arrive;
    FirstOfText(st, 0.0);
    RunLogOne(st, [a], b);
    RunLogOne(st, [a] + [b], c);
    RunLogOne(st, [a] + [b] + [c], d);
    AnsweredOne(st, [a], b, 0);
    AnsweredOne(st, [a] + [b], c, 0);
    AnsweredOne(st, [a] + [b] + [c], d, 0);
    BesideText(RunLog(st, [a]).0, seconds);
    FloodBlocks(RunLog(st, [a] + [b]).0, seconds);
  }

  /** The redelivery while the text's old entry stands, and the new message once that is out of the window. */
  lemma LiftedRoom(seconds: int, t: real, u: real)
    requires 0.0 < t < u && t < seconds as real && t <= 60.0 && u < DAY && (u > 60.0 || u >= seconds as real)
    ensures var old_, again, retain := Entry(Id(0), 0.0), Entry(Id(0), t), seconds as real;
      && Arrive({old_}, Id(0), t, retain).0 == {old_} && Recent({}, t, DAY) == {}
      && Count(Seen({old_}, Id(0), t, retain), t - 60.0, t) <= 1
      && Recent({} + {again}, u, DAY) == {again} && !Has({again}, Id(3))
      && Count(Seen({old_}, Id(3), u, retain), u - 60.0, u) <= 1
  {
    var old_, retain := Entry(Id(0), 0.0), seconds as real;
    assert old_ in Recent({old_}, t, retain);
    CountOf(Seen({old_}, Id(0), t, retain), t - 60.0, t, old_);
    CountOf(Seen({old_}, Id(3), u, retain), u - 60.0, u, Entry(Id(3), u));
  }

  function LiftedThen(t: real, u: real): seq<Event> {
    Lifted() + [Arrives(Id(0), Some(0), t)] + [Arrives(Id(3), Some(0), u)]
  }

  lemma LiftedAnswered(seconds: int, t: real, u: real)
    requires 0.0 < t < u && t < seconds as real && t <= 60.0 && u < DAY && (u > 60.0 || u >= seconds as real)
    ensures Answered(Quick(seconds), LiftedThen(t, u), 0) == [0.0] + [t] + [u]
  {
    LiftedRoom(seconds, t, u);
    hide RunLog, Answered, Lifted, Count, Seen, Arrive, Recent, DuplicateLog;
    LiftedState(seconds);
    Another(Quick(seconds), Lifted(), Id(0), t, 2);
    Another(Quick(seconds), Lifted() + [Arrives(Id(0), Some(0), t)], Id(3), u, 2);
  }

  lemma LiftedOrdered(t: real, u: real)
    requires 0.0 < t < u
    ensures Ordered(LiftedThen(t, u))
  {
  }

  /** A lifted block spoils the limit: a message redelivered after it is counted as of its first time. */
  lemma LiftedTextsOverrun(seconds: int)
    requires seconds > 0
    ensures Guarded(Quick(seconds))
    ensures exists events | Ordered(events) ::
      !Within(AnsweredInRedis(Quick(seconds), events, 0), Span(Quick(seconds)), SpanOpen(Quick(seconds)), 1)
  {
    var t, u := if seconds > 60 then 55.0 else seconds as real - 0.5, if seconds > 60 then 61.0 else seconds as real;
    hide Answered, AnsweredInRedis, Within, Tally, Ordered, LiftedThen;
    LiftedOrdered(t, u);
    LiftedAnswered(seconds, t, u);
    RedisAnswersAlike(Quick(seconds), LiftedThen(t, u), 0);
    var answered := [0.0] + [t] + [u];
    NotWithin(answered, 1, 2, if seconds > 60 then 55.0 else seconds as real - 1.0, Span(Quick(seconds)), SpanOpen(Quick(seconds)));
  }

  lemma EmptyWindow(answered: seq<real>, w: real, limit: int)
    requires w <= 0.0
    ensures Within(answered, w, true, limit)
  {
    forall a ensures Tally(answered, a, w, true) == 0 {
      EmptySpan(answered, a, w);
    }
  }

  /** Over runs of the check in which ids may repeat and blocks may be lifted, the limit holds only when there is nothing to hold. */
  lemma LiftedLimitIff(seconds: int)
    ensures seconds <= 0 <==>
      forall st: Settings, events, text | st.duplicateSeconds == seconds && Guarded(st) && Ordered(events) ::
        Within(AnsweredInRedis(st, events, text), Span(st), SpanOpen(st), st.duplicateLimit)
  {
    hide Within, AnsweredInRedis, Ordered;
    if seconds <= 0 {
      forall st: Settings, events, text | st.duplicateSeconds == seconds && Guarded(st) && Ordered(events)
        ensures Within(AnsweredInRedis(st, events, text), Span(st), SpanOpen(st), st.duplicateLimit)
      {
        EmptyWindow(AnsweredInRedis(st, events, text), Span(st), st.duplicateLimit);
      }
    } else {
      LiftedTextsOverrun(seconds);
    }
  }

  lemma NotWithin(answered: seq<real>, i: nat, j: nat, a: real, w: real, open: bool)
    requires i < j < |answered| && In(answered[i], a, w, open) && In(answered[j], a, w, open)
    ensures !Within(answered, w, open, 1)
  {
    TallyAtLeast(answered, i, j, a, w, open);
  }

  lemma {:induction false} TallyAtLeast(answered: seq<real>, i: nat, j: nat, a: real, w: real, open: bool)
    requires i < j < |answered| && In(answered[i], a, w, open) && In(answered[j], a, w, open)
    ensures Tally(answered, a, w, open) >= 2
  {
    var n := |answered| - 1;
    if j < n {
      TallyAtLeast(answered[..n], i, j, a, w, open);
    } else {
      TallyHas(answered[..n], i, a, w, open);
    }
  }

  lemma {:induction false} TallyHas(answered: seq<real>, i: nat, a: real, w: real, open: bool)
    requires i < |answered| && In(answered[i], a, w, open)
    ensures Tally(answered, a, w, open) >= 1
  {
    var n := |answered| - 1;
    if i < n {
      TallyHas(answered[..n], i, a, w, open);
    }
  }

  /**
   With other settings free but for Guarded, over runs in which no block is lifted: the limit
   holds for all messages of a text over the window of FreshTextsBounded if and only
   if the duplicate set does not outlive the day.
   */
  lemma DuplicateLimitIff(seconds: int)
    ensures seconds <= 86400 <==>
      forall st: Settings, events, text | st.duplicateSeconds == seconds && Guarded(st) && Ordered(events) && NoLifts(events) ::
        Within(AnsweredInRedis(st, events, text), Span(st), SpanOpen(st), st.duplicateLimit)
  {
    hide Within, AnsweredInRedis;
    if seconds <= 86400 {
      forall st: Settings, events, text | st.duplicateSeconds == seconds && Guarded(st) && Ordered(events) && NoLifts(events)
        ensures Within(AnsweredInRedis(st, events, text), Span(st), SpanOpen(st), st.duplicateLimit)
      {
        TextsBounded(st, events, text);
      }
    } else {
      StaleOverrun(seconds);
      NotWithin([0.0, DAY, DAY], 1, 2, DAY, 60.0, false);
    }
  }

  /** And over the configured window itself, half-open, it holds if and only if that is no longer than a minute. */
  lemma ConfiguredWindowIff(seconds: int)
    ensures seconds <= 60 <==>
      forall st: Settings, events, text | st.duplicateSeconds == seconds && Guarded(st) && Ordered(events) && NoLifts(events) ::
        Within(AnsweredInRedis(st, events, text), seconds as real, true, st.duplicateLimit)
  {
    hide Within, AnsweredInRedis;
    if seconds <= 60 {
      forall st: Settings, events, text | st.duplicateSeconds == seconds && Guarded(st) && Ordered(events) && NoLifts(events)
        ensures Within(AnsweredInRedis(st, events, text), seconds as real, true, st.duplicateLimit)
      {
        TextsBounded(st, events, text);
      }
    } else {
      MinuteApart(seconds);
      NotWithin([1.0, 61.5], 0, 1, 0.75, seconds as real, true);
    }
  }
}
