/** Exactly when the customer limits hold, and the arrivals that show where they stop (app/core/quota.py). */
module QuotaLimits {
  import opened Common
  import opened SlidingWindow
  import opened Quota

  // ---- evaluating a check -------------------------------------------------------------------

  lemma RunLogOne(st: Settings, events: seq<Event>, e: Event)
    ensures RunLog(st, events + [e]) == (StepLog(RunLog(st, events).0, st, e).0, RunLog(st, events).1 + [StepLog(RunLog(st, events).0, st, e).1])
  {
    assert (events + [e])[..|events|] == events;
  }

  lemma RunLogEmpty(st: Settings)
    ensures RunLog(st, []) == (Log({}, map[], None, []), [])
  {
  }

  lemma {:induction false} CountAtMost(entries: set<Entry>, from: real, to: real)
    ensures Count(entries, from, to) <= |entries|
  {
    var counted := set e | e in entries && from <= e.at <= to;
    assert entries == counted + (entries - counted);
  }

  /** How a day's few messages are answered: with room in every window and a text not repeated too often. */
  lemma RoomyCheck(g: Log, st: Settings, m: Member, text: Fingerprint, now: real, room: nat)
    requires g.blockedUntil.None? && !Has(Recent(g.messages, now, DAY), m) && |Recent(g.messages, now, DAY)| < room
    requires room <= st.burstMessages && room <= st.perMinute && room <= st.perHour && room <= st.perDay
    requires text.Some? ==>
      Count(Seen(DuplicateLog(g, text.value), m, now, st.duplicateSeconds as real), now - 60.0, now) <= st.duplicateLimit
    ensures CheckLog(g, st, m, text, now) ==
      (g.(messages := g.messages + {Entry(m, now)}, answered := g.answered + [now],
          duplicates := if text.None? then g.duplicates
                        else g.duplicates[text.value :=
                               Arrive(DuplicateLog(g, text.value), m, now, st.duplicateSeconds as real).0]), Allow)
  {
    var seen := Seen(g.messages, m, now, DAY);
    assert |seen| <= room;
    CountsAtMost(seen, st, now);
    assert Arrive(g.messages, m, now, DAY) == (g.messages + {Entry(m, now)}, true);
    hide Count, CountsIn, Seen, Has, Recent, Arrive;
  }

  lemma CountsAtMost(seen: set<Entry>, st: Settings, now: real)
    ensures var c := CountsIn(seen, st, now); c.burst <= |seen| && c.minute <= |seen| && c.hour <= |seen| && c.day <= |seen|
  {
    hide Count;
    CountAtMost(seen, now - st.burstSeconds as real, now);
    CountAtMost(seen, now - 60.0, now);
    CountAtMost(seen, now - 3600.0, now);
    CountAtMost(seen, now - DAY, now);
  }

  lemma NothingRecent(history: set<Entry>, now: real)
    requires forall e :: e in history ==> e.at <= now - DAY
    ensures Recent(history, now, DAY) == {}
  {
  }

  // ---- a day and more -------------------------------------------------------------------------

  lemma DayApartAnswered(st: Settings)
    requires st.burstMessages >= 1 && st.perMinute >= 1 && st.perHour >= 1 && st.perDay >= 1
    ensures RunLog(st, [Arrives(Id(0), None, 0.0)] + [Arrives(Id(1), None, DAY)]).0.answered == [0.0, DAY]
  {
    var first, second := Arrives(Id(0), None, 0.0), Arrives(Id(1), None, DAY);
    RunLogEmpty(st);
    RunLogOne(st, [], first);
    RunLogOne(st, [first], second);
    assert [] + [first] == [first];
    hide CheckLog, RunLog, Recent;
    var g0 := Log({}, map[], None, []);
    NothingRecent({}, 0.0);
    RoomyCheck(g0, st, Id(0), None, 0.0, 1);
    var g1 := g0.(messages := {Entry(Id(0), 0.0)}, answered := [0.0]);
    assert g0.messages + {Entry(Id(0), 0.0)} == g1.messages && g0.answered + [0.0] == g1.answered;
    NothingRecent(g1.messages, DAY);
    RoomyCheck(g1, st, Id(1), None, DAY, 1);
  }

  lemma DayApart(st: Settings)
    requires st.burstMessages >= 1 && st.perMinute >= 1 && st.perHour >= 1 && st.perDay >= 1
    ensures var events := [Arrives(Id(0), None, 0.0)] + [Arrives(Id(1), None, DAY)];
      Ordered(events) && Run(st, events).0.answered == [0.0, DAY]
  {
    hide Run, RunLog;
    DayApartAnswered(st);
    DecidesAsHistory(st, [Arrives(Id(0), None, 0.0)] + [Arrives(Id(1), None, DAY)]);
  }

  lemma TallyTwo(t: real, u: real, a: real, w: real)
    requires In(t, a, w, false) && In(u, a, w, false)
    ensures Tally([t, u], a, w, false) == 2
  {
    assert [t, u][..1] == [t] && [t][..0] == [];
    assert Tally([], a, w, false) == 0 && Tally([t], a, w, false) == 1;
  }

  /** A message at 0 and n more exactly a day later. */
  function DayLater(n: nat): seq<Event> {
    if n == 0 then [Arrives(Id(0), None, 0.0)] else DayLater(n - 1) + [Arrives(Id(n), None, DAY)]
  }

  function DayLaterSet(n: nat): set<Entry> {
    if n == 0 then {} else DayLaterSet(n - 1) + {Entry(Id(n), DAY)}
  }

  /** Settings with room for all of them but in the day. */
  function DayOnly(limit: int): Settings {
    Settings(limit + 1, 10, limit + 1, limit + 1, limit, 1, 60, 1)
  }

  lemma {:induction false} DayLaterSized(n: nat)
    ensures |DayLaterSet(n)| == n
    ensures forall e :: e in DayLaterSet(n) ==> e.at == DAY && e.member.Id? && 1 <= e.member.id <= n
  {
    if n > 0 {
      DayLaterSized(n - 1);
      assert Entry(Id(n), DAY) !in DayLaterSet(n - 1);
    }
  }

  lemma {:induction false} DayLaterOrdered(n: nat)
    ensures |DayLater(n)| == n + 1 && Ordered(DayLater(n)) && forall i :: 0 <= i <= n ==> DayLater(n)[i].now <= DAY
  {
    if n > 0 {
      DayLaterOrdered(n - 1);
    }
  }

  ghost predicate DayLaterState(g: Log, n: nat) {
    && g.messages == {Entry(Id(0), 0.0)} + DayLaterSet(n) && g.blockedUntil.None?
    && |g.answered| == n + 1 && g.answered[0] == 0.0 && forall i :: 1 <= i <= n ==> g.answered[i] == DAY
  }

  /** The first message is out of the half-open day that ends a day later. */
  lemma DayLaterRecent(n: nat)
    ensures Recent({Entry(Id(0), 0.0)} + DayLaterSet(n), DAY, DAY) == DayLaterSet(n)
    ensures |DayLaterSet(n)| == n && !Has(DayLaterSet(n), Id(n + 1))
  {
    DayLaterSized(n);
  }

  lemma {:induction false} DayLaterRuns(limit: int, n: nat)
    requires n <= limit && limit >= 1
    ensures DayLaterState(RunLog(DayOnly(limit), DayLater(n)).0, n)
  {
    var st := DayOnly(limit);
    hide RunLog, CheckLog, Recent, Has;
    if n == 0 {
      RunLogEmpty(st);
      RunLogOne(st, [], Arrives(Id(0), None, 0.0));
      assert [] + [Arrives(Id(0), None, 0.0)] == [Arrives(Id(0), None, 0.0)];
      NothingRecent({}, 0.0);
      NobodyThere(Id(0));
      RoomyCheck(Log({}, map[], None, []), st, Id(0), None, 0.0, 1);
    } else {
      DayLaterRuns(limit, n - 1);
      RunLogOne(st, DayLater(n - 1), Arrives(Id(n), None, DAY));
      DayLaterRecent(n - 1);
      RoomyCheck(RunLog(st, DayLater(n - 1)).0, st, Id(n), None, DAY, n);
    }
  }

  lemma NobodyThere(m: Member)
    ensures !Has({}, m)
  {
  }

  lemma {:induction false} TallyEvery(answered: seq<real>, a: real, w: real, open: bool)
    requires forall i :: 0 <= i < |answered| ==> In(answered[i], a, w, open)
    ensures Tally(answered, a, w, open) == |answered|
  {
    if answered != [] {
      TallyEvery(answered[..|answered| - 1], a, w, open);
    }
  }

  lemma DayOverrun(limit: int)
    requires limit >= 1
    ensures Guarded(DayOnly(limit)) && Ordered(DayLater(limit))
    ensures !Within(Run(DayOnly(limit), DayLater(limit)).0.answered, DAY, false, limit)
  {
    hide Run, RunLog;
    DayLaterOrdered(limit);
    DayLaterRuns(limit, limit);
    DecidesAsHistory(DayOnly(limit), DayLater(limit));
    TallyEvery(Run(DayOnly(limit), DayLater(limit)).0.answered, 0.0, DAY, false);
  }

  /** Nothing in any half-open day is nothing at all. */
  lemma NothingWithin(answered: seq<real>, limit: int)
    requires limit <= 0 && Within(answered, DAY, true, limit)
    ensures answered == []
  {
    if answered != [] {
      LastTallied(answered);
    }
  }

  lemma LastTallied(answered: seq<real>)
    requires answered != []
    ensures Tally(answered, answered[|answered| - 1] - 1.0, DAY, true) >= 1
  {
  }

  lemma NeverOutside(w: real, open: bool, limit: int)
    ensures Within([], w, open, limit)
  {
  }

  /** With other settings free but for Guarded, the day limit holds over every closed day if and only if nothing is ever answered. */
  lemma DayLimitIff(limit: int)
    ensures limit <= 0 <==>
      forall st: Settings, events | st.perDay == limit && Guarded(st) && Ordered(events) ::
        Within(Run(st, events).0.answered, DAY, false, st.perDay)
  {
    hide Run, Within, Tally;
    if limit <= 0 {
      forall st: Settings, events | st.perDay == limit && Guarded(st) && Ordered(events)
        ensures Within(Run(st, events).0.answered, DAY, false, st.perDay)
      {
        LimitsHold(st, events);
        NothingWithin(Run(st, events).0.answered, limit);
        NeverOutside(DAY, false, limit);
      }
    } else {
      DayOverrun(limit);
    }
  }

  /** And a burst window of a day or more is no longer than a day: the burst limit fails over the configured one. */
  lemma LongBurstHoldsOneMore(st: Settings)
    requires st.burstSeconds >= 86400 && st.burstMessages == 1 && st.perMinute >= 1 && st.perHour >= 1 && st.perDay >= 1
    ensures exists events | Ordered(events) :: !Within(Run(st, events).0.answered, st.burstSeconds as real, false, st.burstMessages)
  {
    hide Run;
    DayApart(st);
    hide Tally;
    TallyTwo(0.0, DAY, 0.0, st.burstSeconds as real);
    var events := [Arrives(Id(0), None, 0.0)] + [Arrives(Id(1), None, DAY)];
    assert !Within(Run(st, events).0.answered, st.burstSeconds as real, false, st.burstMessages);
  }

  /** With other settings free but for Guarded, the burst limit holds over every closed window of its length iff that is under a day. */
  lemma BurstLimitIff(seconds: int)
    ensures seconds < 86400 <==>
      forall st: Settings, events | st.burstSeconds == seconds && Guarded(st) && Ordered(events) ::
        Within(Run(st, events).0.answered, seconds as real, false, st.burstMessages)
  {
    hide Run, Within;
    if seconds < 86400 {
      forall st: Settings, events | st.burstSeconds == seconds && Guarded(st) && Ordered(events)
        ensures Within(Run(st, events).0.answered, seconds as real, false, st.burstMessages)
      {
        LimitsHold(st, events);
      }
    } else {
      LongBurstHoldsOneMore(Settings(1, seconds, 1, 1, 1, 1, 60, 1));
    }
  }

  // ---- a block of no length -------------------------------------------------------------------

  /** n different messages, all at once. */
  function Crowd(n: nat): seq<Event> {
    if n == 0 then [] else Crowd(n - 1) + [Arrives(Id(2 * n), None, 0.0)]
  }

  function CrowdSet(n: nat): set<Entry> {
    if n == 0 then {} else CrowdSet(n - 1) + {Entry(Id(2 * n), 0.0)}
  }

  lemma {:induction false} CrowdSized(n: nat)
    ensures |CrowdSet(n)| == n
    ensures forall e :: e in CrowdSet(n) ==> e.at == 0.0 && e.member.Id? && e.member.id <= 2 * n
  {
    if n > 0 {
      CrowdSized(n - 1);
      assert Entry(Id(2 * n), 0.0) !in CrowdSet(n - 1);
    }
  }

  lemma {:induction false} CrowdOrdered(n: nat)
    ensures Ordered(Crowd(n)) && forall i :: 0 <= i < |Crowd(n)| ==> Crowd(n)[i].now == 0.0
  {
    if n > 0 {
      CrowdOrdered(n - 1);
    }
  }

  function AtLeastZero(n: int): nat {
    if n < 0 then 0 else n
  }

  ghost predicate Crowded(g: Log, st: Settings, n: nat) {
    && g.messages == CrowdSet(n) && g.blockedUntil.None?
    && n - AtLeastZero(st.burstMessages) <= |g.answered|
    && forall i :: 0 <= i < |g.answered| ==> g.answered[i] == 0.0
  }

  lemma CrowdSeen(n: nat)
    ensures Arrive(CrowdSet(n), Id(2 * (n + 1)), 0.0, DAY) == (CrowdSet(n + 1), true)
    ensures Seen(CrowdSet(n), Id(2 * (n + 1)), 0.0, DAY) == CrowdSet(n + 1)
  {
    CrowdSized(n);
    assert Recent(CrowdSet(n), 0.0, DAY) == CrowdSet(n);
  }

  /** Without a block to set, a burst is noticed whenever there are more of them than the limit. */
  lemma CrowdBurst(st: Settings, n: nat)
    requires !Guarded(st)
    ensures st.blockSeconds <= 0
    ensures n > AtLeastZero(st.burstMessages) ==> CountsIn(CrowdSet(n), st, 0.0).burst > st.burstMessages
  {
    hide Count, CrowdSet;
    if st.burstSeconds >= 0 {
      CrowdCounted(n, 0.0 - st.burstSeconds as real);
    }
  }

  lemma CrowdCounted(n: nat, from: real)
    requires from <= 0.0
    ensures Count(CrowdSet(n), from, 0.0) == n
  {
    CrowdSized(n);
    assert (set e | e in CrowdSet(n) && from <= e.at <= 0.0) == CrowdSet(n);
  }

  /** Past the burst limit every one of them is let through. */
  lemma CrowdStep(g: Log, st: Settings, n: nat)
    requires !Guarded(st) && Crowded(g, st, n)
    ensures Crowded(CheckLog(g, st, Id(2 * (n + 1)), None, 0.0).0, st, n + 1)
  {
    hide Arrive, Seen, CrowdSet, CountsIn, Guarded, Limits;
    CrowdSeen(n);
    CrowdBurst(st, n + 1);
  }

  lemma {:induction false} CrowdRuns(st: Settings, n: nat)
    requires !Guarded(st)
    ensures Crowded(RunLog(st, Crowd(n)).0, st, n)
  {
    hide CheckLog, RunLog, Guarded;
    if n == 0 {
      RunLogEmpty(st);
    } else {
      hide Crowded;
      CrowdRuns(st, n - 1);
      RunLogOne(st, Crowd(n - 1), Arrives(Id(2 * n), None, 0.0));
      CrowdStep(RunLog(st, Crowd(n - 1)).0, st, n - 1);
    }
  }

  /** Enough messages at once to overrun the minute limit. */
  function Enough(st: Settings): nat {
    AtLeastZero(st.burstMessages) + AtLeastZero(st.perMinute) + 1
  }

  lemma CrowdOverruns(st: Settings)
    requires !Guarded(st)
    ensures Ordered(Crowd(Enough(st))) && !Bounded(Run(st, Crowd(Enough(st))).0.answered, st)
  {
    hide Run, RunLog, Guarded;
    var n := Enough(st);
    CrowdOrdered(n);
    CrowdRuns(st, n);
    DecidesAsHistory(st, Crowd(n));
    var answered := Run(st, Crowd(n)).0.answered;
    TallyEvery(answered, 0.0, 60.0, false);
    assert !Within(answered, 60.0, false, st.perMinute);
  }

  /**
   The limits hold over every run if and only if a flood can be stopped or cannot
   be noticed: SETEX refuses a block that is not positive, and a check that fails
   lets the message through.
   */
  lemma LimitsHoldIff(st: Settings)
    ensures Guarded(st) <==> forall events | Ordered(events) :: Bounded(Run(st, events).0.answered, st)
  {
    forall events | Guarded(st) && Ordered(events) ensures Bounded(Run(st, events).0.answered, st) {
      LimitsHold(st, events);
    }
    if !Guarded(st) {
      CrowdOverruns(st);
    }
  }

  // ---- redelivery ----------------------------------------------------------------------------

  /** Inside a day a message id is judged once: redelivered, it is let through, whatever was decided first. */
  lemma RedeliveryPasses(g: Log, st: Settings, m: Member, text: Fingerprint, now: real, again: Fingerprint, later: real)
    requires now <= later < now + DAY && Remaining(g.blockedUntil, now) <= 0 && Arrive(g.messages, m, now, DAY).1
    ensures var g' := CheckLog(g, st, m, text, now).0;
      Remaining(g'.blockedUntil, later) <= 0 ==> CheckLog(g', st, m, again, later) == (g', Allow)
  {
  }

  /** Such a message can have been refused: with no allowance per minute, the first check refuses and the second allows. */
  lemma RefusedThenPasses(st: Settings)
    requires st.burstMessages >= 1 && st.perMinute <= 0
    ensures var events := [Arrives(Id(0), None, 0.0)] + [Arrives(Id(0), None, 1.0)];
      && Ordered(events)
      && exists notify, retryAfter :: Run(st, events).1 == [Decided(Refuse(RATE_LIMITED, notify, retryAfter)), Decided(Allow)]
  {
    var first, second := Arrives(Id(0), None, 0.0), Arrives(Id(0), None, 1.0);
    var g0 := Log({}, map[], None, []);
    RunLogEmpty(st);
    RunLogOne(st, [], first);
    RunLogOne(st, [first], second);
    assert [] + [first] == [first];
    DecidesAsHistory(st, [first] + [second]);
    RedeliveryPasses(g0, st, Id(0), None, 0.0, None, 1.0);
    var seen := Seen({}, Id(0), 0.0, DAY);
    assert seen == {Entry(Id(0), 0.0)};
    CountAtMost(seen, 0.0 - st.burstSeconds as real, 0.0);
    assert (set e | e in seen && -60.0 <= e.at <= 0.0) == seen;
    hide Run, RunLog;
  }
}
