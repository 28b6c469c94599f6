/**
 The Redis sorted set behind the customer limits (app/core/quota.py) and the
 full arrival history it stands for.  Every hit prunes what is older than
 `retain`, adds its member unless it is still there (NX), and pushes the key's
 expiry out; the history is never pruned and never expires.
 */
module SlidingWindow {
  /** wa_message_id, or the time of a message that came without one. */
  datatype Member = Id(id: nat) | At(time: real)

  datatype Entry = Entry(member: Member, at: real)

  /** A sorted set with the instant its key expires. */
  datatype Window = Window(entries: set<Entry>, expires: real)

  const EMPTY := Window({}, 0.0)

  /** ZCOUNT key from to */
  function Count(entries: set<Entry>, from: real, to: real): nat {
    |set e | e in entries && from <= e.at <= to|
  }

  // ---- what Redis does ------------------------------------------------------------

  function Live(w: Window, now: real): set<Entry> {
    if now >= w.expires then {} else w.entries
  }

  /** ZREMRANGEBYSCORE key 0 to */
  function Pruned(entries: set<Entry>, to: real): set<Entry> {
    set e | e in entries && !(0.0 <= e.at <= to)
  }

  predicate Has(entries: set<Entry>, m: Member) {
    exists e :: e in entries && e.member == m
  }

  /** ZREMRANGEBYSCORE, ZADD NX, then EXPIRE; the counts in between read the entries returned here. */
  function Hit(w: Window, m: Member, now: real, retain: real): (Window, bool) {
    var left := Pruned(Live(w, now), now - retain);
    var added := !Has(left, m);
    (Window(if added then left + {Entry(m, now)} else left, now + retain), added)
  }

  // ---- what it stands for -----------------------------------------------------------

  /** The part of the history that still matters. */
  function Recent(history: set<Entry>, now: real, retain: real): set<Entry> {
    set e | e in history && e.at > now - retain
  }

  /** The arrival counts unless the same member counted less than `retain` ago. */
  function Arrive(history: set<Entry>, m: Member, now: real, retain: real): (set<Entry>, bool) {
    if Has(Recent(history, now, retain), m) then (history, false) else (history + {Entry(m, now)}, true)
  }

  ghost predicate StandsFor(w: Window, history: set<Entry>, last: real, retain: real) {
    && w.entries <= history
    && forall e :: e in history ==>
         && 0.0 <= e.at <= last && e.at + retain <= w.expires
         && (e.at > last - retain ==> e in w.entries)
  }

  /** Pruning, expiry and NX are unobservable: the set seen by the counts is the recent history with the new arrival. */
  lemma HitIsArrival(w: Window, history: set<Entry>, last: real, retain: real, m: Member, now: real)
    requires StandsFor(w, history, last, retain) && 0.0 <= last <= now
    ensures var (w', added) := Hit(w, m, now, retain);
      var (history', counted) := Arrive(history, m, now, retain);
      && added == counted
      && w'.entries == Recent(history, now, retain) + (if counted then {Entry(m, now)} else {})
      && StandsFor(w', history', now, retain)
  {
    assert Pruned(Live(w, now), now - retain) == Recent(history, now, retain);
  }

  /**
   A count over a closed window shorter than `retain` is the count over the whole
   history; over a window of exactly `retain` it is the half-open one.
   */
  lemma CountsHistory(history: set<Entry>, m: Member, last: real, now: real, retain: real, window: real)
    requires (forall e :: e in history ==> e.at <= last) && last <= now && retain > 0.0
    requires !Has(Recent(history, now, retain), m)
    ensures var seen := Recent(history, now, retain) + {Entry(m, now)};
      var history' := Arrive(history, m, now, retain).0;
      && (window < retain ==> Count(seen, now - window, now) == Count(history', now - window, now))
      && (window == retain ==> Count(seen, now - window, now) == |Recent(history', now, retain)|)
  {
    var seen := Recent(history, now, retain) + {Entry(m, now)};
    var history' := history + {Entry(m, now)};
    if window < retain {
      assert (set e | e in seen && now - window <= e.at <= now) == (set e | e in history' && now - window <= e.at <= now);
    }
    if window == retain {
      assert (set e | e in seen && now - window <= e.at <= now) == Recent(history', now, retain);
    }
  }
}
