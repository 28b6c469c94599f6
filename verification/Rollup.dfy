/**
 Usage analytics (app/repositories/analytics.py) and the nightly rollup
 (app/repositories/analytics_rollup.py, app/models/analytics_rollup.py).
 */
module Rollup {
  import opened Common
  import opened Pricing

  type Day = int

  const DAY: Time := 86400 * 1000000

  /** ai_logs: one row per model call. */
  datatype Call = Call(
    model: string, at: Time, failed: bool, promptTokens: nat, completionTokens: nat, totalTokens: nat, latencyMs: nat)

  /** What is summed over: the logged calls, the messages' times, and the prices. */
  datatype Data = Data(calls: seq<Call>, messages: seq<Time>, prices: Prices, defaults: Price)

  datatype Totals = Totals(
    requests: nat, errors: nat, promptTokens: nat, completionTokens: nat, totalTokens: nat, latencyMs: nat,
    inputCost: real, outputCost: real, messages: nat)

  const ZERO := Totals(0, 0, 0, 0, 0, 0, 0.0, 0.0, 0)

  function Plus(a: Totals, b: Totals): Totals {
    Totals(a.requests + b.requests, a.errors + b.errors, a.promptTokens + b.promptTokens,
           a.completionTokens + b.completionTokens, a.totalTokens + b.totalTokens, a.latencyMs + b.latencyMs,
           a.inputCost + b.inputCost, a.outputCost + b.outputCost, a.messages + b.messages)
  }

  function Priced(c: Call, p: Price): Totals {
    Totals(1, if c.failed then 1 else 0, c.promptTokens, c.completionTokens, c.totalTokens, c.latencyMs,
           InputCost(c.promptTokens, p), OutputCost(c.completionTokens, p), 0)
  }

  /** One row of the joined query: exactly one per call, priced as of the call. */
  ghost function RowOf(c: Call, prices: Prices, defaults: Price): Totals {
    Priced(c, PriceAt(prices, defaults, c.model, c.at))
  }

  // ---- days ----------------------------------------------------------------------------------

  /** day_bounds: half-open, so midnight belongs to one day. */
  function DayBounds(day: Day): (Time, Time) {
    (day * DAY, day * DAY + DAY)
  }

  function DayOf(t: Time): Day {
    t / DAY
  }

  lemma EveryInstantHasOneDay(t: Time, day: Day)
    ensures DayBounds(day).0 <= t < DayBounds(day).1 <==> day == DayOf(t)
    ensures DayBounds(day).0 == day * 24 * 3600 * 1000000 && DayBounds(day).1 == DayBounds(day + 1).0
  {
  }

  /** complete_days_before */
  function CompleteDaysBefore(now: Time, lookback: int): (days: seq<Day>)
    ensures |days| == if lookback < 0 then 0 else lookback
    ensures forall i :: 0 <= i < |days| ==> days[i] == DayOf(now) - lookback + i
    ensures forall i :: 0 <= i < |days| ==> DayBounds(days[i]).1 <= now
  {
    if lookback <= 0 then [] else seq(lookback, i => DayOf(now) - lookback + i)
  }

  // ---- live sums -----------------------------------------------------------------------------

  /** The calls of the rows kept by a filter on time, [from, to). */
  ghost function SumCalls(calls: seq<Call>, prices: Prices, defaults: Price, from: Time, to: Time): Totals {
    if calls == [] then ZERO
    else
      var c := calls[|calls| - 1];
      var rest := SumCalls(calls[..|calls| - 1], prices, defaults, from, to);
      if from <= c.at < to then Plus(rest, RowOf(c, prices, defaults)) else rest
  }

  function CountMessages(messages: seq<Time>, from: Time, to: Time): nat {
    if messages == [] then 0
    else CountMessages(messages[..|messages| - 1], from, to) + (if from <= messages[|messages| - 1] < to then 1 else 0)
  }

  ghost function Live(d: Data, from: Time, to: Time): Totals {
    SumCalls(d.calls, d.prices, d.defaults, from, to).(messages := CountMessages(d.messages, from, to))
  }

  lemma PlusMoves(a: Totals, b: Totals, c: Totals)
    ensures Plus(Plus(a, b), c) == Plus(a, Plus(b, c)) == Plus(Plus(a, c), b)
  {
  }

  lemma PlusZero(a: Totals)
    ensures Plus(a, ZERO) == a && Plus(ZERO, a) == a
  {
  }

  lemma {:induction false} CallsSplit(calls: seq<Call>, prices: Prices, defaults: Price, a: Time, b: Time, c: Time)
    requires a <= b <= c
    ensures SumCalls(calls, prices, defaults, a, c)
         == Plus(SumCalls(calls, prices, defaults, a, b), SumCalls(calls, prices, defaults, b, c))
  {
    hide RowOf, Plus;
    if calls == [] {
      assert Plus(ZERO, ZERO) == ZERO by { PlusZero(ZERO); }
    } else {
      var n := |calls| - 1;
      CallsSplit(calls[..n], prices, defaults, a, b, c);
      PlusMoves(SumCalls(calls[..n], prices, defaults, a, b), SumCalls(calls[..n], prices, defaults, b, c),
                RowOf(calls[n], prices, defaults));
    }
  }

  lemma {:induction false} MessagesSplit(messages: seq<Time>, a: Time, b: Time, c: Time)
    requires a <= b <= c
    ensures CountMessages(messages, a, c) == CountMessages(messages, a, b) + CountMessages(messages, b, c)
  {
    if messages != [] {
      MessagesSplit(messages[..|messages| - 1], a, b, c);
    }
  }

  lemma LiveSplits(d: Data, a: Time, b: Time, c: Time)
    requires a <= b <= c
    ensures Live(d, a, c) == Plus(Live(d, a, b), Live(d, b, c))
  {
    hide SumCalls, CountMessages;
    CallsSplit(d.calls, d.prices, d.defaults, a, b, c);
    MessagesSplit(d.messages, a, b, c);
  }

  // ---- stored rows -------------------------------------------------------------------------------

  const MICRO := 0.000001

  /** Numeric(18, 6): six decimals, halves away from zero. */
  function Round6(x: real): real {
    if x < 0.0 then -((-x * 1000000.0 + 0.5).Floor as real * MICRO) else (x * 1000000.0 + 0.5).Floor as real * MICRO
  }

  function Distance(x: real, y: real): real {
    if x < y then y - x else x - y
  }

  lemma RoundedNear(x: real)
    ensures Distance(Round6(x), x) <= 0.0000005
  {
  }

  /** The stored cost is the nearest whole number of millionths, and of two the one away from zero. */
  lemma RoundedIs(x: real, n: int)
    ensures Round6(x) == n as real * 0.000001 <==>
      if x < 0.0 then n as real - 0.5 < x * 1000000.0 <= n as real + 0.5
      else n as real - 0.5 <= x * 1000000.0 < n as real + 0.5
  {
    var y := if x < 0.0 then -x * 1000000.0 else x * 1000000.0;
    var m := (y + 0.5).Floor;
    FloorIs(y + 0.5, if x < 0.0 then -n else n);
    if x < 0.0 {
      assert Round6(x) == -(m as real * MICRO);
      Millionths(-m, n);
    } else {
      assert Round6(x) == m as real * MICRO;
      Millionths(m, n);
    }
    hide Round6;
  }

  lemma FloorIs(y: real, n: int)
    ensures y.Floor == n <==> n as real <= y < n as real + 1.0
  {
  }

  lemma Millionths(m: int, n: int)
    ensures m as real * MICRO == n as real * 0.000001 <==> m == n
    ensures -m as real * MICRO == -(m as real * MICRO)
  {
  }

  function Stored(t: Totals): Totals {
    t.(inputCost := Round6(t.inputCost), outputCost := Round6(t.outputCost))
  }

  /** What rollup_day writes for a day. */
  ghost function Summary(d: Data, day: Day): Totals {
    Stored(Live(d, DayBounds(day).0, DayBounds(day).1))
  }

  /** The stored rows of n consecutive days, summed. */
  function SumStored(rows: map<Day, Totals>, first: Day, n: nat): Totals
    requires forall day :: first <= day < first + n ==> day in rows
  {
    if n == 0 then ZERO else Plus(SumStored(rows, first, n - 1), rows[first + n - 1])
  }

  ghost predicate RolledUp(rows: map<Day, Totals>, d: Data, first: Day, n: nat) {
    forall day :: first <= day < first + n ==> day in rows && rows[day] == Summary(d, day)
  }

  /** Equal in every integer column, and within `slack` of each other in both cost columns. */
  ghost predicate Agree(a: Totals, b: Totals, slack: real) {
    && a.(inputCost := 0.0, outputCost := 0.0) == b.(inputCost := 0.0, outputCost := 0.0)
    && Distance(a.inputCost, b.inputCost) <= slack && Distance(a.outputCost, b.outputCost) <= slack
  }

  /**
   Any run of rolled-up days adds up to the live figures over the joined interval:
   exactly for counts, tokens and latency, and within half a millionth per day for
   each cost.
   */
  lemma {:induction false} RollupAddsUp(rows: map<Day, Totals>, d: Data, first: Day, n: nat)
    requires RolledUp(rows, d, first, n)
    ensures Agree(SumStored(rows, first, n), Live(d, DayBounds(first).0, DayBounds(first + n).0), n as real * 0.0000005)
  {
    hide Live, Stored;
    var from := DayBounds(first).0;
    if n == 0 {
      LiveSplits(d, from, from, from);
    } else {
      var day := first + n - 1;
      RollupAddsUp(rows, d, first, n - 1);
      LiveSplits(d, from, DayBounds(day).0, DayBounds(day).1);
      DayAgrees(SumStored(rows, first, n - 1), Live(d, from, DayBounds(day).0), Live(d, DayBounds(day).0, DayBounds(day).1), n);
    }
  }

  /** One stored day more adds half a millionth of slack. */
  lemma DayAgrees(stored: Totals, live: Totals, today: Totals, n: nat)
    requires n > 0 && Agree(stored, live, (n - 1) as real * 0.0000005)
    ensures Agree(Plus(stored, Stored(today)), Plus(live, today), n as real * 0.0000005)
  {
    hide Round6;
    RoundedNear(today.inputCost);
    RoundedNear(today.outputCost);
  }

  // ---- the live queries tell one story ----------------------------------------------------------

  /** The calls since an instant that a GROUP BY puts under one key. */
  ghost function Group<K(!new)>(calls: seq<Call>, prices: Prices, defaults: Price, since: Time, key: Call -> K, k: K): Totals {
    if calls == [] then ZERO
    else
      var c := calls[|calls| - 1];
      var rest := Group(calls[..|calls| - 1], prices, defaults, since, key, k);
      if since <= c.at && key(c) == k then Plus(rest, RowOf(c, prices, defaults)) else rest
  }

  ghost function SumGroups<K(!new)>(calls: seq<Call>, prices: Prices, defaults: Price, since: Time, key: Call -> K, keys: seq<K>): Totals {
    if keys == [] then ZERO
    else Plus(SumGroups(calls, prices, defaults, since, key, keys[..|keys| - 1]),
              Group(calls, prices, defaults, since, key, keys[|keys| - 1]))
  }

  /** usage_totals, without the percentiles. */
  ghost function UsageTotals(calls: seq<Call>, prices: Prices, defaults: Price, since: Time): Totals {
    if calls == [] then ZERO
    else
      var c := calls[|calls| - 1];
      var rest := UsageTotals(calls[..|calls| - 1], prices, defaults, since);
      if since <= c.at then Plus(rest, RowOf(c, prices, defaults)) else rest
  }

  ghost predicate Distinct<K(!new)>(keys: seq<K>) {
    forall i, j :: 0 <= i < j < |keys| ==> keys[i] != keys[j]
  }

  /** Every call since then falls under one of the keys. */
  ghost predicate Covers<K(!new)>(calls: seq<Call>, since: Time, key: Call -> K, keys: seq<K>) {
    forall i :: 0 <= i < |calls| && since <= calls[i].at ==> key(calls[i]) in keys
  }

  lemma {:induction false} NoCallsNoGroups<K(!new)>(prices: Prices, defaults: Price, since: Time, key: Call -> K, keys: seq<K>)
    ensures SumGroups([], prices, defaults, since, key, keys) == ZERO
  {
    hide Plus, RowOf;
    PlusZero(ZERO);
    if keys != [] {
      NoCallsNoGroups(prices, defaults, since, key, keys[..|keys| - 1]);
    }
  }

  /** One call more adds its row to the group of its key and to no other. */
  lemma {:induction false} OneCallMore<K(!new)>(calls: seq<Call>, c: Call, prices: Prices, defaults: Price, since: Time, key: Call -> K, keys: seq<K>)
    requires Distinct(keys)
    ensures SumGroups(calls + [c], prices, defaults, since, key, keys)
         == (if since <= c.at && key(c) in keys
             then Plus(SumGroups(calls, prices, defaults, since, key, keys), RowOf(c, prices, defaults))
             else SumGroups(calls, prices, defaults, since, key, keys))
  {
    hide RowOf, Plus;
    assert (calls + [c])[..|calls|] == calls;
    if keys != [] {
      var n := |keys| - 1;
      OneCallMore(calls, c, prices, defaults, since, key, keys[..n]);
      PlusMoves(SumGroups(calls, prices, defaults, since, key, keys[..n]),
                Group(calls, prices, defaults, since, key, keys[n]), RowOf(c, prices, defaults));
      assert key(c) in keys[..n] ==> key(c) != keys[n];
      assert key(c) in keys <==> key(c) in keys[..n] || key(c) == keys[n];
    }
  }

  /** However the calls are grouped, the groups add up to the totals: per model, per day, or by anything else. */
  lemma {:induction false} GroupsAddUp<K(!new)>(calls: seq<Call>, prices: Prices, defaults: Price, since: Time, key: Call -> K, keys: seq<K>)
    requires Distinct(keys) && Covers(calls, since, key, keys)
    ensures SumGroups(calls, prices, defaults, since, key, keys) == UsageTotals(calls, prices, defaults, since)
  {
    hide RowOf, Plus;
    if calls == [] {
      NoCallsNoGroups(prices, defaults, since, key, keys);
    } else {
      var n := |calls| - 1;
      assert calls == calls[..n] + [calls[n]];
      GroupsAddUp(calls[..n], prices, defaults, since, key, keys);
      OneCallMore(calls[..n], calls[n], prices, defaults, since, key, keys);
    }
  }

  /** The totals are the live sum over any interval that reaches past the last call. */
  lemma {:induction false} TotalsAreLive(calls: seq<Call>, prices: Prices, defaults: Price, since: Time, to: Time)
    requires forall i :: 0 <= i < |calls| ==> calls[i].at < to
    ensures UsageTotals(calls, prices, defaults, since) == SumCalls(calls, prices, defaults, since, to)
  {
    hide RowOf, Plus;
    if calls != [] {
      TotalsAreLive(calls[..|calls| - 1], prices, defaults, since, to);
    }
  }

  // ---- evaluating and storing ---------------------------------------------------------------------

  method AddUp(d: Data, from: Time, to: Time) returns (t: Totals)
    ensures t == Live(d, from, to)
  {
    t := ZERO;
    for i := 0 to |d.calls|
      invariant t == SumCalls(d.calls[..i], d.prices, d.defaults, from, to)
    {
      hide Plus, Priced, PriceAt;
      assert d.calls[..i + 1][..i] == d.calls[..i];
      var c := d.calls[i];
      if from <= c.at < to {
        var p := Lookup(d.prices, d.defaults, c.model, c.at);
        t := Plus(t, Priced(c, p));
      }
    }
    assert d.calls[..|d.calls|] == d.calls;
    var n := 0;
    for i := 0 to |d.messages|
      invariant n == CountMessages(d.messages[..i], from, to)
    {
      assert d.messages[..i + 1][..i] == d.messages[..i];
      if from <= d.messages[i] < to {
        n := n + 1;
      }
    }
    assert d.messages[..|d.messages|] == d.messages;
    t := t.(messages := n);
  }

  /** analytics_daily. */
  class DailyTable {
    var rows: map<Day, Totals>

    constructor ()
      ensures rows == map[]
    {
      rows := map[];
    }

    /** INSERT ... ON CONFLICT (day) DO UPDATE: the day's own row and no other. */
    method RollupDay(day: Day, d: Data)
      modifies this
      ensures rows == old(rows)[day := Summary(d, day)]
    {
      hide Live, Round6;
      var (start, end) := DayBounds(day);
      var t := AddUp(d, start, end);
      rows := rows[day := Stored(t)];
    }

    /** Whatever the order and however often, the days listed hold their summaries and the others are untouched. */
    method RollupDays(days: seq<Day>, d: Data) returns (n: nat)
      modifies this
      ensures n == |days|
      ensures rows.Keys == old(rows.Keys) + (set day | day in days)
      ensures forall day :: day in rows ==> rows[day] == if day in days then Summary(d, day) else old(rows)[day]
    {
      hide Summary;
      n := 0;
      for i := 0 to |days|
        invariant n == i
        invariant rows.Keys == old(rows.Keys) + (set day | day in days[..i])
        invariant forall day :: day in rows ==> rows[day] == if day in days[..i] then Summary(d, day) else old(rows)[day]
      {
        RollupDay(days[i], d);
        assert days[..i + 1] == days[..i] + [days[i]];
        n := n + 1;
      }
      assert days[..|days|] == days;
    }

    /** The nightly job: afterwards every finished day it looked back over adds up to the live figures. */
    method RollupNight(now: Time, lookback: nat, d: Data)
      modifies this
      ensures forall day :: day in old(rows) ==> day in rows
      ensures RolledUp(rows, d, DayOf(now) - lookback, lookback)
      ensures DayOf(now) in rows ==> DayOf(now) in old(rows) && rows[DayOf(now)] == old(rows)[DayOf(now)]
    {
      hide Summary;
      var days := CompleteDaysBefore(now, lookback);
      var _ := RollupDays(days, d);
      forall day | DayOf(now) - lookback <= day < DayOf(now) ensures day in days {
        assert days[day - (DayOf(now) - lookback)] == day;
      }
    }
  }
}
