/**
 What a decision of the customer check means (app/core/quota.py, _check_customer): how long
 a block lasts after a flood, over every run, and which count over the full history each
 refusal stands for.
 */
module QuotaBlocks {
  import opened Common
  import opened SlidingWindow
  import opened Quota

  // ---- blocks -------------------------------------------------------------------------------------

  predicate IsRefusal(o: Outcome, reason: Reason) {
    o.Decided? && o.d.Refuse? && o.d.reason == reason
  }

  /** When the last flood was decided that no lift has undone, read off a run's outcomes. */
  function LastFlood(events: seq<Event>, outs: seq<Outcome>): Option<real>
    requires |outs| == |events|
  {
    if events == [] then None
    else
      var n := |events| - 1;
      if IsRefusal(outs[n], FLOODING) then Some(events[n].now)
      else if outs[n] == Lifted(true) then None
      else LastFlood(events[..n], outs[..n])
  }

  lemma {:induction false} RunPrefix(st: Settings, events: seq<Event>, k: nat)
    requires k <= |events|
    ensures |Run(st, events).1| == |events| && Run(st, events).1[..k] == Run(st, events[..k]).1
  {
    hide Step;
    if k == |events| {
      assert events[..k] == events;
      if events != [] {
        RunPrefix(st, events[..k - 1], k - 1);
      }
    } else {
      var n := |events| - 1;
      RunPrefix(st, events[..n], k);
      assert events[..n][..k] == events[..k];
    }
  }

  lemma RunLast(st: Settings, events: seq<Event>)
    requires events != []
    ensures var n := |events| - 1;
      && |Run(st, events).1| == |events| && Run(st, events).1[..n] == Run(st, events[..n]).1
      && (Run(st, events).0, Run(st, events).1[n]) == Step(Run(st, events[..n]).0, st, events[n])
  {
    RunPrefix(st, events, |events| - 1);
  }

  /** A check sets a block exactly when it decides a flood, for the configured time. */
  lemma CheckBlocks(s: Redis, st: Settings, m: Member, text: Fingerprint, now: real)
    ensures var (s', d) := Check(s, st, m, text, now);
      && (d.Refuse? && d.reason == FLOODING ==> st.blockSeconds > 0 && s'.blockedUntil == Some(now + st.blockSeconds as real))
      && (!(d.Refuse? && d.reason == FLOODING) ==> s'.blockedUntil == s.blockedUntil)
  {
    hide Hit, CountsIn;
  }

  lemma {:induction false} BlockStands(st: Settings, events: seq<Event>)
    ensures |Run(st, events).1| == |events|
    ensures Run(st, events).0.blockedUntil ==
      match LastFlood(events, Run(st, events).1)
      case None => None
      case Some(t) => Some(t + st.blockSeconds as real)
  {
    if events != [] {
      var n := |events| - 1;
      BlockStands(st, events[..n]);
      RunLast(st, events);
      hide Run, Check;
      var s := Run(st, events[..n]).0;
      if events[n].Arrives? {
        CheckBlocks(s, st, events[n].m, events[n].text, events[n].now);
      }
    }
  }

  /** The seconds left that a refusal names, rounded. */
  predicate Nearly(r: int, left: real) {
    left - 0.5 < r as real <= left + 0.5
  }

  /**
   After any run, a check is refused as blocked if and only if a flood was decided that no
   lift has undone, and at least half a second of its block is left; then it changes
   nothing and names the time left.
   */
  lemma BlockedIff(st: Settings, events: seq<Event>, m: Member, text: Fingerprint, now: real)
    ensures |Run(st, events).1| == |events|
    ensures var s := Run(st, events).0;
      var (s', d) := Check(s, st, m, text, now);
      var flood := LastFlood(events, Run(st, events).1);
      && (d.Refuse? && d.reason == BLOCKED <==> flood.Some? && now <= flood.value + st.blockSeconds as real - 0.5)
      && (d.Refuse? && d.reason == BLOCKED ==>
            s' == s && !d.notify && d.retryAfter >= 1 && Nearly(d.retryAfter, flood.value + st.blockSeconds as real - now))
  {
    BlockStands(st, events);
    hide Run, CheckCounted, Hit, LastFlood;
    CountedNeverBlocked(Run(st, events).0.(messages := Hit(Run(st, events).0.messages, m, now, DAY).0), st, m, text, now);
  }

  lemma CountedNeverBlocked(s: Redis, st: Settings, m: Member, text: Fingerprint, now: real)
    ensures CheckCounted(s, st, m, text, now).1.Refuse? ==> CheckCounted(s, st, m, text, now).1.reason != BLOCKED
  {
    hide Hit, CountsIn;
  }

  /** The same between two moments of a run: as long as the block lasts nobody can extend it. */
  lemma {:induction false} FloodStands(st: Settings, events: seq<Event>, i: nat, j: nat)
    requires i < j <= |events| && Ordered(events) && |Run(st, events).1| == |events|
    requires IsRefusal(Run(st, events).1[i], FLOODING)
    requires forall k :: i < k < j ==> Run(st, events).1[k] != Lifted(true)
    requires forall k :: i < k < j ==> events[k].now <= events[i].now + st.blockSeconds as real - 0.5
    ensures LastFlood(events[..j], Run(st, events).1[..j]) == Some(events[i].now)
  {
    var outs := Run(st, events).1;
    hide Run;
    var before, n := events[..j], j - 1;
    assert before[..n] == events[..n] && outs[..j][..n] == outs[..n];
    if n > i {
      FloodStands(st, events, i, n);
      RunPrefix(st, events, n);
      RunPrefix(st, events, j);
      RunLast(st, before);
      if before[n].Arrives? {
        BlockedIff(st, events[..n], before[n].m, before[n].text, before[n].now);
      }
    }
  }

  lemma DecidedAt(st: Settings, events: seq<Event>, j: nat)
    requires j < |events| && events[j].Arrives?
    ensures |Run(st, events).1| == |events| && Run(st, events).1[j].Decided?
    ensures (Run(st, events[..j + 1]).0, Run(st, events).1[j].d) ==
      Check(Run(st, events[..j]).0, st, events[j].m, events[j].text, events[j].now)
  {
    hide Check;
    RunPrefix(st, events, j + 1);
    RunLast(st, events[..j + 1]);
    assert events[..j + 1][..j] == events[..j] && events[..j + 1][j] == events[j];
    assert Run(st, events).1[..j + 1][j] == Run(st, events).1[j];
  }

  /**
   A flood decided at one moment of a run refuses every later check up to half a second before
   its time is over, unless an operator lifts the block; and past that none, unless there is
   another flood.
   */
  lemma FloodBlocks(st: Settings, events: seq<Event>, i: nat, j: nat)
    requires i < j < |events| && Ordered(events) && events[j].Arrives?
    requires |Run(st, events).1| == |events| && IsRefusal(Run(st, events).1[i], FLOODING)
    requires forall k :: i < k < j ==> Run(st, events).1[k] != Lifted(true)
    ensures var left := events[i].now + st.blockSeconds as real - events[j].now;
      && (left >= 0.5 ==>
            && IsRefusal(Run(st, events).1[j], BLOCKED) && !Run(st, events).1[j].d.notify
            && Nearly(Run(st, events).1[j].d.retryAfter, left)
            && Run(st, events[..j + 1]).0 == Run(st, events[..j]).0)
      && (left < 0.5 && (forall k :: i < k < j ==> !IsRefusal(Run(st, events).1[k], FLOODING)) ==>
            !IsRefusal(Run(st, events).1[j], BLOCKED))
  {
    hide Run, Check, LastFlood;
    var outs, e := Run(st, events).1, events[j];
    DecidedAt(st, events, j);
    RunPrefix(st, events, j);
    BlockedIff(st, events[..j], e.m, e.text, e.now);
    if events[i].now + st.blockSeconds as real - e.now >= 0.5 {
      FloodStands(st, events, i, j);
    } else if forall k :: i < k < j ==> !IsRefusal(outs[k], FLOODING) {
      NoOther(events, outs, i, j);
    }
  }

  lemma {:induction false} NoOther(events: seq<Event>, outs: seq<Outcome>, i: nat, j: nat)
    requires |outs| == |events| && i < j <= |events| && IsRefusal(outs[i], FLOODING)
    requires forall k :: i < k < j ==> !IsRefusal(outs[k], FLOODING) && outs[k] != Lifted(true)
    ensures LastFlood(events[..j], outs[..j]) == Some(events[i].now)
  {
    var n := j - 1;
    assert events[..j][..n] == events[..n] && outs[..j][..n] == outs[..n];
    if n > i {
      NoOther(events, outs, i, n);
    }
  }

  /** A lift finds a block exactly while it lasts; it then forgets the messages and keeps their texts. */
  lemma LiftedIff(st: Settings, events: seq<Event>, now: real)
    ensures |Run(st, events).1| == |events|
    ensures var s := Run(st, events).0;
      var (s', was) := Unblock(s, now);
      var flood := LastFlood(events, Run(st, events).1);
      && (was <==> flood.Some? && now < flood.value + st.blockSeconds as real)
      && (if was then s'.messages == EMPTY && s'.blockedUntil.None? && s'.duplicates == s.duplicates else s' == s)
  {
    BlockStands(st, events);
    hide Run, LastFlood;
  }

  // ---- the other decisions ------------------------------------------------------------------------------

  /** How often a text has come, this time included: within a minute, and no longer ago than the set is kept. */
  function Repeats(g: Log, st: Settings, m: Member, text: nat, now: real): nat {
    var retain := st.duplicateSeconds as real;
    var (seen, counted) := Arrive(DuplicateLog(g, text), m, now, retain);
    |set e | e in seen && now - 60.0 <= e.at <= now && (now - retain < e.at || (counted && e == Entry(m, now)))|
  }

  lemma RepeatsAreCounted(g: Log, st: Settings, m: Member, text: nat, now: real)
    ensures Count(Seen(DuplicateLog(g, text), m, now, st.duplicateSeconds as real), now - 60.0, now) == Repeats(g, st, m, text, now)
  {
    var retain := st.duplicateSeconds as real;
    var h := DuplicateLog(g, text);
    var (seen, counted) := Arrive(h, m, now, retain);
    assert (set e | e in Seen(h, m, now, retain) && now - 60.0 <= e.at <= now)
        == (set e | e in seen && now - 60.0 <= e.at <= now && (now - retain < e.at || (counted && e == Entry(m, now))));
  }

  /**
   A message that no block stops and that was not counted within a day is judged by what the
   full history, itself included, holds in each window: too many in the burst window is a flood,
   of which the customer is told unless already over another limit; then the repeated text; then
   the shortest window that is over, told only to the first message past the line.
   */
  lemma JudgedByHistory(g: Log, st: Settings, m: Member, text: Fingerprint, now: real)
    requires Past(g, now) && (g.blockedUntil.Some? ==> g.blockedUntil.value - 0.5 < now) && Arrive(g.messages, m, now, DAY).1
    ensures var h := g.messages + {Entry(m, now)};
      var burst := Tallied(h, now - BurstWindow(st), BurstWindow(st), BurstOpen(st));
      var minute, hour, day := Tallied(h, now - 60.0, 60.0, false), Tallied(h, now - 3600.0, 3600.0, false), Tallied(h, now - 86400.0, 86400.0, true);
      CheckLog(g, st, m, text, now).1 ==
        if burst > st.burstMessages then
          (if st.blockSeconds <= 0 then Allow
           else Refuse(FLOODING, minute <= st.perMinute && hour <= st.perHour && day <= st.perDay, st.blockSeconds))
        else if text.Some? && Repeats(g, st, m, text.value, now) > st.duplicateLimit then Refuse(SPAMMING, true, st.blockSeconds)
        else if minute > st.perMinute then Refuse(RATE_LIMITED, minute == st.perMinute + 1, 60)
        else if hour > st.perHour then Refuse(RATE_LIMITED, hour == st.perHour + 1, 3600)
        else if day > st.perDay then Refuse(RATE_LIMITED, day == st.perDay + 1, 86400)
        else Allow
  {
    hide Seen, Arrive, Recent, Count, Tallied, Repeats;
    RoomIn(g.messages, m, now, st.burstSeconds as real);
    RoomIn(g.messages, m, now, 60.0);
    RoomIn(g.messages, m, now, 3600.0);
    RoomIn(g.messages, m, now, DAY);
    if text.Some? {
      RepeatsAreCounted(g, st, m, text.value, now);
      DuplicatesKept(g, g.messages + {Entry(m, now)}, text.value);
    }
  }

  lemma DuplicatesKept(g: Log, h: set<Entry>, text: nat)
    ensures DuplicateLog(g.(messages := h), text) == DuplicateLog(g, text)
  {
  }

  /**
   Refused or not, a message that no block stops counts, once within a day; and its text counts unless
   the message was a redelivery or part of a flood.
   */
  lemma EveryCheckCounts(g: Log, st: Settings, m: Member, text: Fingerprint, now: real)
    requires Past(g, now) && (g.blockedUntil.Some? ==> g.blockedUntil.value - 0.5 < now)
    ensures var g' := CheckLog(g, st, m, text, now).0;
      var known := exists e :: e in g.messages && e.member == m && now - 86400.0 < e.at;
      var h := g.messages + {Entry(m, now)};
      var flood := Tallied(h, now - BurstWindow(st), BurstWindow(st), BurstOpen(st)) > st.burstMessages;
      && g'.messages == (if known then g.messages else h)
      && (known ==> g' == g && CheckLog(g, st, m, text, now).1 == Allow)
      && forall t: nat :: DuplicateLog(g', t) ==
           if !known && !flood && text == Some(t) && !Has(Recent(DuplicateLog(g, t), now, st.duplicateSeconds as real), m)
           then DuplicateLog(g, t) + {Entry(m, now)} else DuplicateLog(g, t)
  {
    KnownIs(g.messages, m, now);
    hide Seen, Recent, Count, Tallied, Limits;
    if Arrive(g.messages, m, now, DAY).1 {
      RoomIn(g.messages, m, now, st.burstSeconds as real);
    }
    hide Has;
  }

  lemma KnownIs(history: set<Entry>, m: Member, now: real)
    ensures Arrive(history, m, now, DAY).1 <==> !exists e :: e in history && e.member == m && now - 86400.0 < e.at
  {
    if e :| e in history && e.member == m && now - 86400.0 < e.at {
      assert e in Recent(history, now, DAY);
    }
  }
}
