/**
 Customer limits (app/core/quota.py, _check_customer and unblock) for one
 customer with Redis reachable.  `Redis` is what is stored, `Log` the unpruned
 history it stands for; both are checked by the same rules.
 */
module Quota {
  import opened Common
  import opened SlidingWindow

  const DAY := 86400.0

  datatype Settings = Settings(
    burstMessages: int, burstSeconds: int,
    perMinute: int, perHour: int, perDay: int,
    duplicateLimit: int, duplicateSeconds: int,
    blockSeconds: int)

  datatype Reason = BLOCKED | FLOODING | SPAMMING | RATE_LIMITED

  datatype Decision = Allow | Refuse(reason: Reason, notify: bool, retryAfter: int)

  datatype Counts = Counts(burst: nat, minute: nat, hour: nat, day: nat)

  /** The text's fingerprint; None for a message without text. */
  type Fingerprint = Option<nat>

  // ---- the rules ------------------------------------------------------------------------

  /** TTL of the block key, in whole seconds rounded as Redis rounds. */
  function Remaining(until: Option<real>, now: real): int {
    if until.Some? && now < until.value then (until.value - now + 0.5).Floor else -2
  }

  predicate Refused(st: Settings, c: Counts) {
    c.minute > st.perMinute || c.hour > st.perHour || c.day > st.perDay
  }

  function Flood(st: Settings, c: Counts): Decision {
    Refuse(FLOODING, !Refused(st, c), st.blockSeconds)
  }

  function Limits(st: Settings, c: Counts): Decision {
    if c.minute > st.perMinute then Refuse(RATE_LIMITED, c.minute == st.perMinute + 1, 60)
    else if c.hour > st.perHour then Refuse(RATE_LIMITED, c.hour == st.perHour + 1, 3600)
    else if c.day > st.perDay then Refuse(RATE_LIMITED, c.day == st.perDay + 1, 86400)
    else Allow
  }

  // ---- over Redis -------------------------------------------------------------------------

  /** `answered` only records, for the statements below, when a first check allowed a message. */
  datatype Redis = Redis(messages: Window, duplicates: map<nat, Window>, blockedUntil: Option<real>, answered: seq<real>)

  function CountsIn(seen: set<Entry>, st: Settings, now: real): Counts {
    Counts(Count(seen, now - st.burstSeconds as real, now), Count(seen, now - 60.0, now),
           Count(seen, now - 3600.0, now), Count(seen, now - DAY, now))
  }

  function DuplicatesOf(s: Redis, text: nat): Window {
    if text in s.duplicates then s.duplicates[text] else EMPTY
  }

  /** Past the flood test: the duplicate set, then the ordinary limits. */
  function CheckText(s: Redis, st: Settings, m: Member, text: Fingerprint, now: real, c: Counts): (Redis, Decision) {
    if text.None? then (s, Limits(st, c))
    else
      var d := Hit(DuplicatesOf(s, text.value), m, now, st.duplicateSeconds as real).0;
      var s' := s.(duplicates := s.duplicates[text.value := d]);
      if Count(d.entries, now - 60.0, now) > st.duplicateLimit then (s', Refuse(SPAMMING, true, st.blockSeconds))
      else (s', Limits(st, c))
  }

  /** SETEX refuses an expiry that is not positive, and a failed check lets the message through. */
  function CheckCounted(s: Redis, st: Settings, m: Member, text: Fingerprint, now: real): (Redis, Decision) {
    var c := CountsIn(s.messages.entries, st, now);
    if c.burst > st.burstMessages then
      if st.blockSeconds <= 0 then (s, Allow)
      else (s.(blockedUntil := Some(now + st.blockSeconds as real)), Flood(st, c))
    else CheckText(s, st, m, text, now, c)
  }

  function Note(d: Decision, answered: seq<real>, now: real): seq<real> {
    if d == Allow then answered + [now] else answered
  }

  function Check(s: Redis, st: Settings, m: Member, text: Fingerprint, now: real): (Redis, Decision) {
    var ttl := Remaining(s.blockedUntil, now);
    if ttl > 0 then (s, Refuse(BLOCKED, false, ttl))
    else
      var (w, added) := Hit(s.messages, m, now, DAY);
      if !added then (s.(messages := w), Allow)
      else
        var (s', d) := CheckCounted(s.(messages := w), st, m, text, now);
        (s'.(answered := Note(d, s.answered, now)), d)
  }

  /** Lifting a block forgets the message history with it; without a block nothing happens. */
  function Unblock(s: Redis, now: real): (Redis, bool) {
    if s.blockedUntil.Some? && now < s.blockedUntil.value
    then (s.(blockedUntil := None, messages := EMPTY, answered := []), true)
    else (s, false)
  }

  // ---- over the full history ------------------------------------------------------------------

  datatype Log = Log(messages: set<Entry>, duplicates: map<nat, set<Entry>>, blockedUntil: Option<real>, answered: seq<real>)

  function DuplicateLog(s: Log, text: nat): set<Entry> {
    if text in s.duplicates then s.duplicates[text] else {}
  }

  /** The arrivals a window of `retain` seconds is counted over. */
  function Seen(history: set<Entry>, m: Member, now: real, retain: real): set<Entry> {
    Recent(history, now, retain) + (if Arrive(history, m, now, retain).1 then {Entry(m, now)} else {})
  }

  function CheckTextLog(s: Log, st: Settings, m: Member, text: Fingerprint, now: real, c: Counts): (Log, Decision) {
    if text.None? then (s, Limits(st, c))
    else
      var h := DuplicateLog(s, text.value);
      var retain := st.duplicateSeconds as real;
      var s' := s.(duplicates := s.duplicates[text.value := Arrive(h, m, now, retain).0]);
      if Count(Seen(h, m, now, retain), now - 60.0, now) > st.duplicateLimit then (s', Refuse(SPAMMING, true, st.blockSeconds))
      else (s', Limits(st, c))
  }

  function CheckCountedLog(s: Log, seen: set<Entry>, st: Settings, m: Member, text: Fingerprint, now: real): (Log, Decision) {
    var c := CountsIn(seen, st, now);
    if c.burst > st.burstMessages then
      if st.blockSeconds <= 0 then (s, Allow)
      else (s.(blockedUntil := Some(now + st.blockSeconds as real)), Flood(st, c))
    else CheckTextLog(s, st, m, text, now, c)
  }

  function CheckLog(s: Log, st: Settings, m: Member, text: Fingerprint, now: real): (Log, Decision) {
    var ttl := Remaining(s.blockedUntil, now);
    if ttl > 0 then (s, Refuse(BLOCKED, false, ttl))
    else
      var (h, counted) := Arrive(s.messages, m, now, DAY);
      if !counted then (s, Allow)
      else
        var (s', d) := CheckCountedLog(s.(messages := h), Seen(s.messages, m, now, DAY), st, m, text, now);
        (s'.(answered := Note(d, s.answered, now)), d)
  }

  function UnblockLog(s: Log, now: real): (Log, bool) {
    if s.blockedUntil.Some? && now < s.blockedUntil.value
    then (s.(blockedUntil := None, messages := {}, answered := []), true)
    else (s, false)
  }

  // ---- refinement ------------------------------------------------------------------------------

  ghost predicate Stands(s: Redis, g: Log, st: Settings, last: real) {
    && StandsFor(s.messages, g.messages, last, DAY)
    && s.duplicates.Keys == g.duplicates.Keys
    && (forall p :: p in s.duplicates ==> StandsFor(s.duplicates[p], g.duplicates[p], last, st.duplicateSeconds as real))
    && s.blockedUntil == g.blockedUntil && s.answered == g.answered && 0.0 <= last
  }

  lemma TextRefines(s: Redis, g: Log, st: Settings, m: Member, text: Fingerprint, now: real, c: Counts)
    requires Stands(s, g, st, now)
    ensures var (s', d) := CheckText(s, st, m, text, now, c);
      var (g', d') := CheckTextLog(g, st, m, text, now, c);
      d == d' && Stands(s', g', st, now) && s'.answered == s.answered && g'.answered == g.answered
  {
    hide StandsFor, Hit, Arrive, Recent, Count, Limits;
    if text.Some? {
      EmptyStands(now, st.duplicateSeconds as real);
      HitIsArrival(DuplicatesOf(s, text.value), DuplicateLog(g, text.value), now, st.duplicateSeconds as real, m, now);
    }
  }

  lemma EmptyStands(last: real, retain: real)
    ensures StandsFor(EMPTY, {}, last, retain)
  {
  }

  lemma CountedRefines(s: Redis, g: Log, st: Settings, m: Member, text: Fingerprint, now: real)
    requires Stands(s, g, st, now)
    ensures var (s', d) := CheckCounted(s, st, m, text, now);
      var (g', d') := CheckCountedLog(g, s.messages.entries, st, m, text, now);
      d == d' && Stands(s', g', st, now) && s'.answered == s.answered && g'.answered == g.answered
  {
    hide StandsFor, CheckText, CheckTextLog, CountsIn;
    TextRefines(s, g, st, m, text, now, CountsIn(s.messages.entries, st, now));
  }

  /** Whatever Redis pruned, expired or refused to add, a check decides as the full history does. */
  lemma CheckRefines(s: Redis, g: Log, st: Settings, last: real, m: Member, text: Fingerprint, now: real)
    requires Stands(s, g, st, last) && last <= now
    ensures var (s', d) := Check(s, st, m, text, now);
      var (g', d') := CheckLog(g, st, m, text, now);
      d == d' && Stands(s', g', st, now)
  {
    StandsNow(s, g, st, last, now);
    hide StandsFor, Hit, Arrive, Recent, CheckCounted, CheckCountedLog, Note;
    HitIsArrival(s.messages, g.messages, last, DAY, m, now);
    var (w, added) := Hit(s.messages, m, now, DAY);
    var h := Arrive(g.messages, m, now, DAY).0;
    if Remaining(s.blockedUntil, now) <= 0 && added {
      CountedRefines(s.(messages := w), g.(messages := h), st, m, text, now);
    }
  }

  lemma StandsNow(s: Redis, g: Log, st: Settings, last: real, now: real)
    requires Stands(s, g, st, last) && last <= now
    ensures Stands(s, g, st, now)
  {
  }

  // ---- whole runs --------------------------------------------------------------------------------

  datatype Event = Arrives(m: Member, text: Fingerprint, now: real) | Lifts(now: real)
  datatype Outcome = Decided(d: Decision) | Lifted(was: bool)

  function Step(s: Redis, st: Settings, e: Event): (Redis, Outcome) {
    match e
    case Arrives(m, text, now) => var (s', d) := Check(s, st, m, text, now); (s', Decided(d))
    case Lifts(now) => var (s', was) := Unblock(s, now); (s', Lifted(was))
  }

  function StepLog(g: Log, st: Settings, e: Event): (Log, Outcome) {
    match e
    case Arrives(m, text, now) => var (g', d) := CheckLog(g, st, m, text, now); (g', Decided(d))
    case Lifts(now) => var (g', was) := UnblockLog(g, now); (g', Lifted(was))
  }

  function Run(st: Settings, events: seq<Event>): (Redis, seq<Outcome>) {
    if events == [] then (Redis(EMPTY, map[], None, []), [])
    else
      var (s, outs) := Run(st, events[..|events| - 1]);
      var (s', o) := Step(s, st, events[|events| - 1]);
      (s', outs + [o])
  }

  function RunLog(st: Settings, events: seq<Event>): (Log, seq<Outcome>) {
    if events == [] then (Log({}, map[], None, []), [])
    else
      var (g, outs) := RunLog(st, events[..|events| - 1]);
      var (g', o) := StepLog(g, st, events[|events| - 1]);
      (g', outs + [o])
  }

  /** A clock that never runs backwards. */
  ghost predicate Ordered(events: seq<Event>) {
    && (forall i :: 0 <= i < |events| ==> 0.0 <= events[i].now)
    && (forall i, j :: 0 <= i < j < |events| ==> events[i].now <= events[j].now)
  }

  function Last(events: seq<Event>): real {
    if events == [] then 0.0 else events[|events| - 1].now
  }

  lemma StepRefines(s: Redis, g: Log, st: Settings, last: real, e: Event)
    requires Stands(s, g, st, last) && last <= e.now
    ensures Step(s, st, e).1 == StepLog(g, st, e).1 && Stands(Step(s, st, e).0, StepLog(g, st, e).0, st, e.now)
  {
    StandsNow(s, g, st, last, e.now);
    match e
    case Arrives(m, text, now) => hide Check, CheckLog, Stands; CheckRefines(s, g, st, last, m, text, now);
    case Lifts(now) => EmptyStands(now, DAY);
  }

  /** Every decision of every run is the one the full history, never pruned, calls for. */
  lemma {:induction false} DecidesAsHistory(st: Settings, events: seq<Event>)
    requires Ordered(events)
    ensures Run(st, events).1 == RunLog(st, events).1
    ensures Stands(Run(st, events).0, RunLog(st, events).0, st, Last(events))
  {
    hide Step, StepLog;
    if events == [] {
      EmptyStands(0.0, DAY);
    } else {
      var n := |events| - 1;
      DecidesAsHistory(st, events[..n]);
      StepRefines(Run(st, events[..n]).0, RunLog(st, events[..n]).0, st, Last(events[..n]), events[n]);
    }
  }

  // ---- no window ever overflows ---------------------------------------------------------------------

  predicate In(t: real, a: real, w: real, open: bool) {
    (if open then a < t else a <= t) && t <= a + w
  }

  /** How many of the answered messages came in the window that starts at a. */
  function Tally(answered: seq<real>, a: real, w: real, open: bool): nat {
    if answered == [] then 0
    else Tally(answered[..|answered| - 1], a, w, open) + (if In(answered[|answered| - 1], a, w, open) then 1 else 0)
  }

  function Tallied(entries: set<Entry>, a: real, w: real, open: bool): nat {
    |set e | e in entries && In(e.at, a, w, open)|
  }

  /** Answered messages are among the counted ones. */
  ghost predicate Paid(g: Log) {
    forall a, w, open :: Tally(g.answered, a, w, open) <= Tallied(g.messages, a, w, open)
  }

  ghost predicate Within(answered: seq<real>, w: real, open: bool, limit: int) {
    forall a :: Tally(answered, a, w, open) <= if limit < 0 then 0 else limit
  }

  ghost predicate Past(g: Log, last: real) {
    && (forall e :: e in g.messages ==> e.at <= last)
    && (forall i :: 0 <= i < |g.answered| ==> g.answered[i] <= last)
  }

  lemma TallyOne(entries: set<Entry>, e: Entry, a: real, w: real, open: bool)
    requires e !in entries
    ensures Tallied(entries + {e}, a, w, open) == Tallied(entries, a, w, open) + (if In(e.at, a, w, open) then 1 else 0)
  {
    var before := set x | x in entries && In(x.at, a, w, open);
    assert (set x | x in entries + {e} && In(x.at, a, w, open)) == if In(e.at, a, w, open) then before + {e} else before;
  }

  lemma {:induction false} TallyShifts(answered: seq<real>, now: real, a: real, w: real, open: bool)
    requires (forall i :: 0 <= i < |answered| ==> answered[i] <= now) && now - w <= a
    ensures Tally(answered, a, w, open) <= Tally(answered, now - w, w, open)
  {
    if answered != [] {
      TallyShifts(answered[..|answered| - 1], now, a, w, open);
    }
  }

  /** Answering a message while the window that ends now is not over its limit keeps every window within it. */
  lemma AnswerStaysWithin(g: Log, messages: set<Entry>, now: real, w: real, open: bool, limit: int)
    requires Past(g, now) && Within(g.answered, w, open, limit)
    requires Tally(g.answered + [now], now - w, w, open) <= Tallied(messages, now - w, w, open) <= limit
    ensures Within(g.answered + [now], w, open, limit)
  {
    var answered := g.answered + [now];
    assert answered[..|answered| - 1] == g.answered;
    forall a ensures Tally(answered, a, w, open) <= if limit < 0 then 0 else limit {
      assert Tally(g.answered, a, w, open) <= if limit < 0 then 0 else limit;
      if In(now, a, w, open) {
        TallyShifts(answered, now, a, w, open);
      }
    }
  }

  lemma AnswerStaysPaid(g: Log, e: Entry)
    requires Paid(g) && e !in g.messages
    ensures Paid(g.(messages := g.messages + {e}))
    ensures Paid(g.(messages := g.messages + {e}, answered := g.answered + [e.at]))
  {
    var answered := g.answered + [e.at];
    assert answered[..|answered| - 1] == g.answered;
    forall a, w, open ensures
      && Tally(g.answered, a, w, open) <= Tallied(g.messages + {e}, a, w, open)
      && Tally(answered, a, w, open) <= Tallied(g.messages + {e}, a, w, open)
    {
      TallyOne(g.messages, e, a, w, open);
    }
  }

  /** A burst window shorter than a day is closed; a longer one sees the last day only, half-open. */
  function BurstWindow(st: Settings): real {
    if st.burstSeconds < 86400 then st.burstSeconds as real else DAY
  }

  predicate BurstOpen(st: Settings) {
    st.burstSeconds >= 86400
  }

  ghost predicate Bounded(answered: seq<real>, st: Settings) {
    && Within(answered, BurstWindow(st), BurstOpen(st), st.burstMessages)
    && Within(answered, 60.0, false, st.perMinute) && Within(answered, 3600.0, false, st.perHour)
    && Within(answered, DAY, true, st.perDay)
  }

  ghost predicate Sound(g: Log, st: Settings, last: real) {
    Past(g, last) && Paid(g) && Bounded(g.answered, st)
  }

  /** A flood is either stopped by a block that can be set, or cannot be noticed at all. */
  predicate Guarded(st: Settings) {
    st.blockSeconds > 0 || (st.burstSeconds < 0 && st.burstMessages >= 0)
  }

  /** What an allowed first check has shown about the full history. */
  lemma AllowedMeansRoom(g: Log, st: Settings, m: Member, text: Fingerprint, now: real)
    requires Guarded(st) && Past(g, now) && Arrive(g.messages, m, now, DAY).1
    requires CheckCountedLog(g, Seen(g.messages, m, now, DAY), st, m, text, now).1 == Allow
    ensures var h := g.messages + {Entry(m, now)};
      && Tallied(h, now - BurstWindow(st), BurstWindow(st), BurstOpen(st)) <= st.burstMessages
      && Tallied(h, now - 60.0, 60.0, false) <= st.perMinute && Tallied(h, now - 3600.0, 3600.0, false) <= st.perHour
      && Tallied(h, now - DAY, DAY, true) <= st.perDay
  {
    hide Seen, Arrive, Recent, Count, Tallied;
    if st.burstSeconds < 0 {
      NothingInNegative(Seen(g.messages, m, now, DAY), now, st.burstSeconds as real);
    }
    RoomIn(g.messages, m, now, st.burstSeconds as real);
    RoomIn(g.messages, m, now, 60.0);
    RoomIn(g.messages, m, now, 3600.0);
    RoomIn(g.messages, m, now, DAY);
  }

  lemma RoomIn(history: set<Entry>, m: Member, now: real, w: real)
    requires (forall e :: e in history ==> e.at <= now) && Arrive(history, m, now, DAY).1
    ensures var h := history + {Entry(m, now)};
      var n := Count(Seen(history, m, now, DAY), now - w, now);
      && (w < DAY ==> n == Tallied(h, now - w, w, false)) && (w >= DAY ==> n == Tallied(h, now - DAY, DAY, true))
  {
    var h := history + {Entry(m, now)};
    CountsHistory(history, m, now, now, DAY, w);
    assert (set e | e in h && In(e.at, now - w, w, false)) == (set e | e in h && now - w <= e.at <= now);
    assert (set e | e in h && In(e.at, now - DAY, DAY, true)) == Recent(h, now, DAY);
    if w >= DAY {
      assert (set e | e in Seen(history, m, now, DAY) && now - w <= e.at <= now) == Recent(h, now, DAY);
    }
  }

  lemma NothingInNegative(entries: set<Entry>, now: real, w: real)
    requires w < 0.0
    ensures Count(entries, now - w, now) == 0
  {
    assert (set e | e in entries && now - w <= e.at <= now) == {};
  }

  lemma AnsweredSound(g: Log, st: Settings, m: Member, text: Fingerprint, now: real)
    requires Guarded(st) && Past(g, now) && Paid(g) && Bounded(g.answered, st) && Arrive(g.messages, m, now, DAY).1
    requires CheckCountedLog(g, Seen(g.messages, m, now, DAY), st, m, text, now).1 == Allow
    ensures Bounded(g.answered + [now], st)
  {
    hide Paid, Within, Past, CheckCountedLog, Tallied, Tally;
    AllowedMeansRoom(g, st, m, text, now);
    var h := g.messages + {Entry(m, now)};
    NotCountedYet(g, m, now);
    AnswerStaysPaid(g, Entry(m, now));
    var g' := g.(messages := h, answered := g.answered + [now]);
    RoomPaid(g', now, 60.0, false);
    RoomPaid(g', now, 3600.0, false);
    RoomPaid(g', now, DAY, true);
    RoomPaid(g', now, BurstWindow(st), BurstOpen(st));
    AnswerStaysWithin(g, h, now, 60.0, false, st.perMinute);
    AnswerStaysWithin(g, h, now, 3600.0, false, st.perHour);
    AnswerStaysWithin(g, h, now, DAY, true, st.perDay);
    AnswerStaysWithin(g, h, now, BurstWindow(st), BurstOpen(st), st.burstMessages);
  }

  lemma RoomPaid(g: Log, now: real, w: real, open: bool)
    requires Paid(g)
    ensures Tally(g.answered, now - w, w, open) <= Tallied(g.messages, now - w, w, open)
  {
  }

  lemma NotCountedYet(g: Log, m: Member, now: real)
    requires Arrive(g.messages, m, now, DAY).1
    ensures Entry(m, now) !in g.messages
  {
  }

  /** The block, the duplicate sets and the decision leave the message history and its bookkeeping alone. */
  lemma CountedFrame(g: Log, seen: set<Entry>, st: Settings, m: Member, text: Fingerprint, now: real)
    ensures var g' := CheckCountedLog(g, seen, st, m, text, now).0; g'.messages == g.messages && g'.answered == g.answered
  {
  }

  lemma CountedIgnoresHistory(g: Log, h: set<Entry>, seen: set<Entry>, st: Settings, m: Member, text: Fingerprint, now: real)
    ensures CheckCountedLog(g.(messages := h), seen, st, m, text, now).1 == CheckCountedLog(g, seen, st, m, text, now).1
  {
  }

  lemma CheckSound(g: Log, st: Settings, last: real, m: Member, text: Fingerprint, now: real)
    requires Guarded(st) && Sound(g, st, last) && last <= now
    ensures Sound(CheckLog(g, st, m, text, now).0, st, now)
  {
    if Remaining(g.blockedUntil, now) <= 0 && Arrive(g.messages, m, now, DAY).1 {
      var h, seen := g.messages + {Entry(m, now)}, Seen(g.messages, m, now, DAY);
      assert Past(g, now);
      CountedFrame(g.(messages := h), seen, st, m, text, now);
      CountedIgnoresHistory(g, h, seen, st, m, text, now);
      NotCountedYet(g, m, now);
      AnswerStaysPaid(g, Entry(m, now));
      hide Paid, Bounded, CheckCountedLog, Seen, Remaining;
      if CheckCountedLog(g, seen, st, m, text, now).1 == Allow {
        AnsweredSound(g, st, m, text, now);
      }
      SoundParts(CheckLog(g, st, m, text, now).0, g, h, now, st);
    }
  }

  lemma SoundParts(g': Log, g: Log, h: set<Entry>, now: real, st: Settings)
    requires g'.messages == h && (g'.answered == g.answered || g'.answered == g.answered + [now])
    requires (forall e :: e in h ==> e.at <= now) && (forall i :: 0 <= i < |g.answered| ==> g.answered[i] <= now)
    requires Paid(g.(messages := h, answered := g'.answered)) && Bounded(g'.answered, st)
    ensures Sound(g', st, now)
  {
  }

  lemma {:induction false} RunSound(st: Settings, events: seq<Event>)
    requires Ordered(events) && Guarded(st)
    ensures Sound(RunLog(st, events).0, st, Last(events))
  {
    hide CheckLog, Bounded;
    if events == [] {
      NothingAnswered(st);
    } else {
      var n := |events| - 1;
      RunSound(st, events[..n]);
      var g := RunLog(st, events[..n]).0;
      NothingAnswered(st);
      match events[n]
      case Arrives(m, text, now) => CheckSound(g, st, Last(events[..n]), m, text, now);
      case Lifts(now) =>
    }
  }

  lemma NothingAnswered(st: Settings)
    ensures Bounded([], st)
  {
  }

  /**
   Since the last lifted block, and so over a whole run without one, the messages
   allowed on their first check never exceed a limit in any closed minute or hour
   window, in any half-open day, nor in any burst window, whatever the arrivals.
   */
  lemma LimitsHold(st: Settings, events: seq<Event>)
    requires Ordered(events) && Guarded(st)
    ensures Bounded(Run(st, events).0.answered, st)
  {
    DecidesAsHistory(st, events);
    RunSound(st, events);
  }

  // ---- the store ----------------------------------------------------------------------------------

  /** One customer's keys, updated in place. */
  class CustomerQuota {
    var messages: Window
    var duplicates: map<nat, Window>
    var blockedUntil: Option<real>
    var answered: seq<real>

    ghost function Contents(): Redis
      reads this
    {
      Redis(messages, duplicates, blockedUntil, answered)
    }

    constructor ()
      ensures Contents() == Redis(EMPTY, map[], None, [])
    {
      messages, duplicates, blockedUntil, answered := EMPTY, map[], None, [];
    }

    /** The pipelined ZREMRANGEBYSCORE, ZADD NX, ZCOUNT four times, EXPIRE. */
    method CountArrival(st: Settings, m: Member, now: real) returns (added: bool, c: Counts)
      modifies this`messages
      ensures (messages, added) == Hit(old(messages), m, now, DAY)
      ensures c == CountsIn(messages.entries, st, now)
    {
      var live := if now >= messages.expires then {} else messages.entries;
      var left := set e | e in live && !(0.0 <= e.at <= now - DAY);
      added := !Has(left, m);
      if added {
        left := left + {Entry(m, now)};
      }
      messages := Window(left, now + DAY);
      c := CountsIn(left, st, now);
    }

    /** The three ordinary limits, shortest window first. */
    method OrdinaryLimits(st: Settings, c: Counts) returns (d: Decision)
      ensures d == Limits(st, c)
    {
      var table := [(c.minute, st.perMinute, 60), (c.hour, st.perHour, 3600), (c.day, st.perDay, 86400)];
      for i := 0 to |table|
        invariant forall j :: 0 <= j < i ==> table[j].0 <= table[j].1
      {
        var (count, limit, retryAfter) := table[i];
        if count > limit {
          assert i > 0 ==> table[0].0 <= table[0].1;
          assert i > 1 ==> table[1].0 <= table[1].1;
          return Refuse(RATE_LIMITED, count == limit + 1, retryAfter);
        }
      }
      assert table[0].0 <= table[0].1 && table[1].0 <= table[1].1 && table[2].0 <= table[2].1;
      return Allow;
    }

    method CheckCustomer(st: Settings, m: Member, text: Fingerprint, now: real) returns (d: Decision)
      modifies this
      ensures (Contents(), d) == Check(old(Contents()), st, m, text, now)
    {
      hide Hit, CountsIn, Limits;
      var ttl := Remaining(blockedUntil, now);
      if ttl > 0 {
        return Refuse(BLOCKED, false, ttl);
      }
      var added, c := CountArrival(st, m, now);
      if !added {
        return Allow;
      }
      if c.burst > st.burstMessages {
        if st.blockSeconds <= 0 {
          d := Allow;
        } else {
          blockedUntil := Some(now + st.blockSeconds as real);
          d := Refuse(FLOODING, !Refused(st, c), st.blockSeconds);
        }
      } else {
        if text.Some? {
          var before := if text.value in duplicates then duplicates[text.value] else EMPTY;
          var (w, _) := Hit(before, m, now, st.duplicateSeconds as real);
          duplicates := duplicates[text.value := w];
          if Count(w.entries, now - 60.0, now) > st.duplicateLimit {
            return Refuse(SPAMMING, true, st.blockSeconds);
          }
        }
        d := OrdinaryLimits(st, c);
      }
      if d == Allow {
        answered := answered + [now];
      }
    }

    method LiftBlock(now: real) returns (was: bool)
      modifies this
      ensures (Contents(), was) == Unblock(old(Contents()), now)
    {
      was := blockedUntil.Some? && now < blockedUntil.value;
      if was {
        blockedUntil, messages, answered := None, EMPTY, [];
      }
    }
  }
}
