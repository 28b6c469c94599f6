/**
 daily_usage (app/repositories/analytics.py) in any session time zone.  The database
 groups by date_trunc('day', created_at), which truncates in the zone of the session;
 the rows are then filed under the date of the instant the driver hands back.
 */
module UsageDays {
  import opened Common
  import opened Pricing
  import opened Rollup

  /** The session's midnight before an instant, and the date of an instant as it comes back. */
  datatype Zone = Zone(midnight: Time -> Time, date: Time -> Day)

  datatype DailyUsage = DailyUsage(day: Day, totals: Totals)

  // ---- the two grouped queries ------------------------------------------------------------------

  function MidnightOf(z: Zone): Call -> Time {
    (c: Call) => z.midnight(c.at)
  }

  /** The date a call is filed under. */
  function FiledUnder(z: Zone): Call -> Day {
    (c: Call) => z.date(z.midnight(c.at))
  }

  function DateOf(z: Zone): Time -> Day {
    (t: Time) => z.date(z.midnight(t))
  }

  function TimesOf(calls: seq<Call>): seq<Time> {
    seq(|calls|, i requires 0 <= i < |calls| => calls[i].at)
  }

  /** GROUP BY yields one row for each bucket that has anything, in any order. */
  ghost predicate Groups(rows: seq<Time>, times: seq<Time>, since: Time, z: Zone) {
    && Distinct(rows)
    && (forall i :: 0 <= i < |rows| ==> HasBucket(times, since, z, rows[i]))
    && (forall i :: 0 <= i < |times| && since <= times[i] ==> z.midnight(times[i]) in rows)
  }

  ghost predicate HasBucket(times: seq<Time>, since: Time, z: Zone, b: Time) {
    exists i :: 0 <= i < |times| && since <= times[i] && z.midnight(times[i]) == b
  }

  /** How many of the messages since then fall under a key. */
  function CountUnder<K(==)>(messages: seq<Time>, since: Time, key: Time -> K, k: K): nat {
    if messages == [] then 0
    else
      var m := messages[|messages| - 1];
      CountUnder(messages[..|messages| - 1], since, key, k) + (if since <= m && key(m) == k then 1 else 0)
  }

  // ---- what is made of the rows --------------------------------------------------------------------

  /** {row[0].date(): row for row in rows}: of two rows with one date the later one stands. */
  function ByDate(rows: seq<Time>, z: Zone): map<Day, Time> {
    if rows == [] then map[]
    else ByDate(rows[..|rows| - 1], z)[z.date(rows[|rows| - 1]) := rows[|rows| - 1]]
  }

  ghost function UsageOn(d: Data, since: Time, z: Zone, logs: map<Day, Time>, chats: map<Day, Time>, day: Day): Totals {
    var calls := if day in logs then Group(d.calls, d.prices, d.defaults, since, MidnightOf(z), logs[day]) else ZERO;
    calls.(messages := if day in chats then CountUnder(d.messages, since, z.midnight, chats[day]) else 0)
  }

  predicate Increasing(usage: seq<DailyUsage>) {
    forall i, j :: 0 <= i < j < |usage| ==> usage[i].day < usage[j].day
  }

  function DaysOf(usage: seq<DailyUsage>): set<Day> {
    set u | u in usage :: u.day
  }

  ghost predicate ShowsDays(usage: seq<DailyUsage>, d: Data, since: Time, z: Zone, logs: map<Day, Time>, chats: map<Day, Time>) {
    forall i :: 0 <= i < |usage| ==> usage[i].totals == UsageOn(d, since, z, logs, chats, usage[i].day)
  }

  /** One entry per date, in order, with the figures of the rows that stand under it. */
  ghost predicate IsUsage(usage: seq<DailyUsage>, d: Data, since: Time, z: Zone, logRows: seq<Time>, chatRows: seq<Time>) {
    var logs, chats := ByDate(logRows, z), ByDate(chatRows, z);
    Increasing(usage) && DaysOf(usage) == logs.Keys + chats.Keys && ShowsDays(usage, d, since, z, logs, chats)
  }

  method FileByDate(rows: seq<Time>, z: Zone) returns (filed: map<Day, Time>)
    ensures filed == ByDate(rows, z)
  {
    filed := map[];
    for i := 0 to |rows|
      invariant filed == ByDate(rows[..i], z)
    {
      assert rows[..i + 1][..i] == rows[..i];
      filed := filed[z.date(rows[i]) := rows[i]];
    }
    assert rows[..|rows|] == rows;
  }

  /** The database's row for a bucket of calls. */
  method CallRow(d: Data, since: Time, z: Zone, bucket: Time) returns (t: Totals)
    ensures t == Group(d.calls, d.prices, d.defaults, since, MidnightOf(z), bucket)
  {
    t := ZERO;
    for i := 0 to |d.calls|
      invariant t == Group(d.calls[..i], d.prices, d.defaults, since, MidnightOf(z), bucket)
    {
      hide Plus, Priced, PriceAt;
      assert d.calls[..i + 1][..i] == d.calls[..i];
      var c := d.calls[i];
      if since <= c.at && z.midnight(c.at) == bucket {
        var p := Lookup(d.prices, d.defaults, c.model, c.at);
        t := Plus(t, Priced(c, p));
      }
    }
    assert d.calls[..|d.calls|] == d.calls;
  }

  /** daily_usage, given the order in which the database returns the buckets. */
  method UsageByDay(d: Data, since: Time, z: Zone, logRows: seq<Time>, chatRows: seq<Time>) returns (usage: seq<DailyUsage>)
    ensures IsUsage(usage, d, since, z, logRows, chatRows)
  {
    hide Group, CountUnder, ByDate, Increasing, DaysOf;
    var logs := FileByDate(logRows, z);
    var chats := FileByDate(chatRows, z);
    usage := [];
    NoDays();
    var left := logs.Keys + chats.Keys;
    while left != {}
      invariant Increasing(usage)
      invariant forall i, day :: 0 <= i < |usage| && day in left ==> usage[i].day < day
      invariant DaysOf(usage) + left == logs.Keys + chats.Keys
      invariant ShowsDays(usage, d, since, z, logs, chats)
      decreases left
    {
      var day := Earliest(left);
      var t := ZERO;
      if day in logs {
        t := CallRow(d, since, z, logs[day]);
      }
      var entry := DailyUsage(day, t.(messages := if day in chats then CountUnder(d.messages, since, z.midnight, chats[day]) else 0));
      DayAfter(usage, entry);
      usage := usage + [entry];
      left := left - {day};
    }
  }

  lemma NoDays()
    ensures Increasing([]) && DaysOf([]) == {}
  {
  }

  lemma DayAfter(usage: seq<DailyUsage>, entry: DailyUsage)
    requires Increasing(usage) && forall i :: 0 <= i < |usage| ==> usage[i].day < entry.day
    ensures Increasing(usage + [entry]) && DaysOf(usage + [entry]) == DaysOf(usage) + {entry.day}
  {
    var usage' := usage + [entry];
    assert forall i :: 0 <= i < |usage| ==> usage'[i] == usage[i];
    assert usage'[|usage|] == entry;
  }

  lemma Inhabited(days: set<Day>)
    ensures days == {} || exists day :: day in days
  {
    if forall day :: day !in days {
      assert days == {};
    }
  }

  method Earliest(days: set<Day>) returns (first: Day)
    requires days != {}
    ensures first in days && forall day :: day in days ==> first <= day
  {
    Inhabited(days);
    first :| first in days;
    var left := days;
    while left != {}
      invariant left <= days && first in days
      invariant forall day :: day in days && day !in left ==> first <= day
      decreases left
    {
      Inhabited(left);
      var day :| day in left;
      if day < first {
        first := day;
      }
      left := left - {day};
    }
  }

  // ---- when the days add up ----------------------------------------------------------------------------

  /** No two midnights of the period come back with one date. */
  ghost predicate OneDateEach(z: Zone, since: Time) {
    forall t, u | since <= t && since <= u && z.date(z.midnight(t)) == z.date(z.midnight(u)) :: z.midnight(t) == z.midnight(u)
  }

  lemma {:induction false} FiledRow(rows: seq<Time>, z: Zone, day: Day)
    ensures day in ByDate(rows, z) ==> ByDate(rows, z)[day] in rows && z.date(ByDate(rows, z)[day]) == day
    ensures forall b :: b in rows ==> z.date(b) in ByDate(rows, z)
  {
    if rows != [] {
      var n := |rows| - 1;
      FiledRow(rows[..n], z, day);
      assert rows == rows[..n] + [rows[n]];
    }
  }

  /** Then the bucket filed under a date holds exactly what that date should show. */
  lemma {:induction false} BucketIsDate(calls: seq<Call>, prices: Prices, defaults: Price, since: Time, z: Zone, t: Time)
    requires OneDateEach(z, since) && since <= t
    ensures Group(calls, prices, defaults, since, MidnightOf(z), z.midnight(t))
         == Group(calls, prices, defaults, since, FiledUnder(z), z.date(z.midnight(t)))
  {
    hide RowOf, Plus;
    if calls != [] {
      BucketIsDate(calls[..|calls| - 1], prices, defaults, since, z, t);
    }
  }

  lemma {:induction false} NothingFiled(calls: seq<Call>, prices: Prices, defaults: Price, since: Time, z: Zone, day: Day)
    requires forall i :: 0 <= i < |calls| && since <= calls[i].at ==> z.date(z.midnight(calls[i].at)) != day
    ensures Group(calls, prices, defaults, since, FiledUnder(z), day) == ZERO
  {
    hide RowOf, Plus;
    if calls != [] {
      NothingFiled(calls[..|calls| - 1], prices, defaults, since, z, day);
    }
  }

  lemma {:induction false} MessageBucketIsDate(messages: seq<Time>, since: Time, z: Zone, t: Time)
    requires OneDateEach(z, since) && since <= t
    ensures CountUnder(messages, since, z.midnight, z.midnight(t)) == CountUnder(messages, since, DateOf(z), z.date(z.midnight(t)))
  {
    if messages != [] {
      MessageBucketIsDate(messages[..|messages| - 1], since, z, t);
    }
  }

  lemma {:induction false} NoMessageFiled(messages: seq<Time>, since: Time, z: Zone, day: Day)
    requires forall i :: 0 <= i < |messages| && since <= messages[i] ==> z.date(z.midnight(messages[i])) != day
    ensures CountUnder(messages, since, DateOf(z), day) == 0
  {
    if messages != [] {
      NoMessageFiled(messages[..|messages| - 1], since, z, day);
    }
  }

  lemma CallsShown(d: Data, since: Time, z: Zone, rows: seq<Time>, day: Day)
    requires OneDateEach(z, since) && Groups(rows, TimesOf(d.calls), since, z)
    ensures var logs := ByDate(rows, z);
      Group(d.calls, d.prices, d.defaults, since, FiledUnder(z), day)
      == if day in logs then Group(d.calls, d.prices, d.defaults, since, MidnightOf(z), logs[day]) else ZERO
  {
    hide Group, ByDate, OneDateEach, Distinct;
    FiledRow(rows, z, day);
    var times := TimesOf(d.calls);
    if day in ByDate(rows, z) {
      var b := ByDate(rows, z)[day];
      var k :| 0 <= k < |rows| && rows[k] == b;
      var i :| 0 <= i < |times| && since <= times[i] && z.midnight(times[i]) == rows[k];
      BucketIsDate(d.calls, d.prices, d.defaults, since, z, times[i]);
    } else {
      forall i | 0 <= i < |d.calls| && since <= d.calls[i].at ensures z.date(z.midnight(d.calls[i].at)) != day {
        assert times[i] == d.calls[i].at;
      }
      NothingFiled(d.calls, d.prices, d.defaults, since, z, day);
    }
  }

  lemma MessagesShown(messages: seq<Time>, since: Time, z: Zone, rows: seq<Time>, day: Day)
    requires OneDateEach(z, since) && Groups(rows, messages, since, z)
    ensures var chats := ByDate(rows, z);
      CountUnder(messages, since, DateOf(z), day)
      == if day in chats then CountUnder(messages, since, z.midnight, chats[day]) else 0
  {
    hide CountUnder, ByDate, OneDateEach, Distinct;
    FiledRow(rows, z, day);
    if day in ByDate(rows, z) {
      var b := ByDate(rows, z)[day];
      var k :| 0 <= k < |rows| && rows[k] == b;
      var i :| 0 <= i < |messages| && since <= messages[i] && z.midnight(messages[i]) == rows[k];
      MessageBucketIsDate(messages, since, z, messages[i]);
    } else {
      NoMessageFiled(messages, since, z, day);
    }
  }

  // ---- adding up --------------------------------------------------------------------------------------

  function SumUsage(usage: seq<DailyUsage>): Totals {
    if usage == [] then ZERO else Plus(SumUsage(usage[..|usage| - 1]), usage[|usage| - 1].totals)
  }

  function Keys(usage: seq<DailyUsage>): seq<Day> {
    if usage == [] then [] else Keys(usage[..|usage| - 1]) + [usage[|usage| - 1].day]
  }

  lemma {:induction false} KeysAreDays(usage: seq<DailyUsage>)
    ensures |Keys(usage)| == |usage| && forall i :: 0 <= i < |usage| ==> Keys(usage)[i] == usage[i].day
  {
    if usage != [] {
      KeysAreDays(usage[..|usage| - 1]);
    }
  }

  function MessagesSince(messages: seq<Time>, since: Time): nat {
    if messages == [] then 0
    else MessagesSince(messages[..|messages| - 1], since) + (if since <= messages[|messages| - 1] then 1 else 0)
  }

  function SumCounts<K(==)>(messages: seq<Time>, since: Time, key: Time -> K, keys: seq<K>): nat {
    if keys == [] then 0
    else SumCounts(messages, since, key, keys[..|keys| - 1]) + CountUnder(messages, since, key, keys[|keys| - 1])
  }

  /** One message more counts under its own key and no other. */
  lemma {:induction false} OneMessageMore<K(!new)>(messages: seq<Time>, m: Time, since: Time, key: Time -> K, keys: seq<K>)
    requires Distinct(keys)
    ensures SumCounts(messages + [m], since, key, keys)
         == SumCounts(messages, since, key, keys) + (if since <= m && key(m) in keys then 1 else 0)
  {
    assert (messages + [m])[..|messages|] == messages;
    if keys != [] {
      var n := |keys| - 1;
      OneMessageMore(messages, m, since, key, keys[..n]);
      assert key(m) in keys[..n] ==> key(m) != keys[n];
      assert key(m) in keys <==> key(m) in keys[..n] || key(m) == keys[n];
    }
  }

  lemma {:induction false} NoMessages<K(!new)>(since: Time, key: Time -> K, keys: seq<K>)
    ensures SumCounts([], since, key, keys) == 0
  {
    if keys != [] {
      NoMessages(since, key, keys[..|keys| - 1]);
    }
  }

  lemma {:induction false} MessagesAddUp<K(!new)>(messages: seq<Time>, since: Time, key: Time -> K, keys: seq<K>)
    requires Distinct(keys) && forall i :: 0 <= i < |messages| && since <= messages[i] ==> key(messages[i]) in keys
    ensures SumCounts(messages, since, key, keys) == MessagesSince(messages, since)
  {
    if messages == [] {
      NoMessages(since, key, keys);
    } else {
      var n := |messages| - 1;
      assert messages == messages[..n] + [messages[n]];
      MessagesAddUp(messages[..n], since, key, keys);
      OneMessageMore(messages[..n], messages[n], since, key, keys);
    }
  }

  /** Each entry shows what its date should. */
  ghost predicate ShowsDates(usage: seq<DailyUsage>, d: Data, since: Time, z: Zone) {
    forall i :: 0 <= i < |usage| ==>
      usage[i].totals == Group(d.calls, d.prices, d.defaults, since, FiledUnder(z), usage[i].day)
                           .(messages := CountUnder(d.messages, since, DateOf(z), usage[i].day))
  }

  lemma {:induction false} UsageIsSums(usage: seq<DailyUsage>, d: Data, since: Time, z: Zone)
    requires ShowsDates(usage, d, since, z)
    ensures SumUsage(usage) == SumGroups(d.calls, d.prices, d.defaults, since, FiledUnder(z), Keys(usage))
                                 .(messages := SumCounts(d.messages, since, DateOf(z), Keys(usage)))
  {
    hide Group, CountUnder;
    if usage != [] {
      var n := |usage| - 1;
      UsageIsSums(usage[..n], d, since, z);
      assert Keys(usage)[..n] == Keys(usage[..n]) by { KeysAreDays(usage[..n]); }
    }
  }

  ghost predicate AddsUp(usage: seq<DailyUsage>, d: Data, since: Time) {
    SumUsage(usage) == UsageTotals(d.calls, d.prices, d.defaults, since).(messages := MessagesSince(d.messages, since))
  }

  lemma DatesListed(usage: seq<DailyUsage>, rows: seq<Time>, times: seq<Time>, since: Time, z: Zone, i: nat)
    requires Groups(rows, times, since, z) && ByDate(rows, z).Keys <= DaysOf(usage) && i < |times| && since <= times[i]
    ensures z.date(z.midnight(times[i])) in Keys(usage)
  {
    hide ByDate, Distinct;
    FiledRow(rows, z, 0);
    KeysAreDays(usage);
    var day := z.date(z.midnight(times[i]));
    var u :| u in usage && u.day == day;
    var k :| 0 <= k < |usage| && usage[k] == u;
    assert Keys(usage)[k] == day;
  }

  /** In such a zone the listed days add up, in every column, to the totals and the messages since the start. */
  lemma UsageAddsUp(usage: seq<DailyUsage>, d: Data, since: Time, z: Zone, logRows: seq<Time>, chatRows: seq<Time>)
    requires OneDateEach(z, since)
    requires Groups(logRows, TimesOf(d.calls), since, z) && Groups(chatRows, d.messages, since, z)
    requires IsUsage(usage, d, since, z, logRows, chatRows)
    ensures AddsUp(usage, d, since)
  {
    hide Group, CountUnder, ByDate, OneDateEach, Groups, SumUsage, SumGroups, SumCounts, UsageTotals, MessagesSince;
    forall i | 0 <= i < |usage| ensures usage[i].totals
      == Group(d.calls, d.prices, d.defaults, since, FiledUnder(z), usage[i].day)
           .(messages := CountUnder(d.messages, since, DateOf(z), usage[i].day))
    {
      CallsShown(d, since, z, logRows, usage[i].day);
      MessagesShown(d.messages, since, z, chatRows, usage[i].day);
    }
    UsageIsSums(usage, d, since, z);
    KeysAreDays(usage);
    var days := Keys(usage);
    forall i | 0 <= i < |d.calls| && since <= d.calls[i].at ensures FiledUnder(z)(d.calls[i]) in days {
      DatesListed(usage, logRows, TimesOf(d.calls), since, z, i);
    }
    forall i | 0 <= i < |d.messages| && since <= d.messages[i] ensures DateOf(z)(d.messages[i]) in days {
      DatesListed(usage, chatRows, d.messages, since, z, i);
    }
    GroupsAddUp(d.calls, d.prices, d.defaults, since, FiledUnder(z), days);
    MessagesAddUp(d.messages, since, DateOf(z), days);
  }

  /** Totals, cost_by_model and daily_usage tell one story for the same start. */
  lemma QueriesAgree(usage: seq<DailyUsage>, d: Data, since: Time, z: Zone, logRows: seq<Time>, chatRows: seq<Time>, models: seq<string>)
    requires OneDateEach(z, since)
    requires Groups(logRows, TimesOf(d.calls), since, z) && Groups(chatRows, d.messages, since, z)
    requires IsUsage(usage, d, since, z, logRows, chatRows)
    requires Distinct(models) && Covers(d.calls, since, (c: Call) => c.model, models)
    ensures var byModel := SumGroups(d.calls, d.prices, d.defaults, since, (c: Call) => c.model, models);
      && byModel == UsageTotals(d.calls, d.prices, d.defaults, since)
      && SumUsage(usage) == byModel.(messages := MessagesSince(d.messages, since))
  {
    hide SumUsage, SumGroups, UsageTotals, MessagesSince, IsUsage, Groups, OneDateEach;
    UsageAddsUp(usage, d, since, z, logRows, chatRows);
    GroupsAddUp(d.calls, d.prices, d.defaults, since, (c: Call) => c.model, models);
  }

  /** Two messages whose midnights share a date; only the row of the second is shown. */
  function Clashing(t: Time, u: Time): Data {
    Data([], [t, u], map[], Price(0.0, 0.0))
  }

  function OneShown(z: Zone, u: Time): seq<DailyUsage> {
    [DailyUsage(z.date(z.midnight(u)), ZERO.(messages := 1))]
  }

  lemma TwoMessages(t: Time, u: Time, since: Time, z: Zone)
    requires since <= t && since <= u && z.midnight(t) != z.midnight(u)
    ensures MessagesSince([t, u], since) == 2 && CountUnder([t, u], since, z.midnight, z.midnight(u)) == 1
  {
    assert [t, u][..1] == [t] && [t][..0] == [];
    assert MessagesSince([], since) == 0 && MessagesSince([t], since) == 1;
    assert CountUnder([], since, z.midnight, z.midnight(u)) == 0 && CountUnder([t], since, z.midnight, z.midnight(u)) == 0;
  }

  lemma TwoFiled(a: Time, b: Time, z: Zone)
    requires z.date(a) == z.date(b)
    ensures ByDate([a, b], z) == map[z.date(b) := b] && ByDate([], z) == map[]
  {
    assert [a, b][..1] == [a] && [a][..0] == [];
    assert ByDate([], z) == map[];
    assert ByDate([a], z) == map[z.date(a) := a];
  }

  lemma OneIsShown(t: Time, u: Time, since: Time, z: Zone)
    requires since <= t && since <= u && z.midnight(t) != z.midnight(u) && z.date(z.midnight(t)) == z.date(z.midnight(u))
    ensures IsUsage(OneShown(z, u), Clashing(t, u), since, z, [], [z.midnight(t), z.midnight(u)])
  {
    hide CountUnder, ByDate;
    TwoMessages(t, u, since, z);
    TwoFiled(z.midnight(t), z.midnight(u), z);
    var usage := OneShown(z, u);
    assert usage[0] in usage && DaysOf(usage) == {z.date(z.midnight(u))};
  }

  lemma TwoGroups(t: Time, u: Time, since: Time, z: Zone)
    requires since <= t && since <= u && z.midnight(t) != z.midnight(u)
    ensures Groups([], TimesOf([]), since, z) && Groups([z.midnight(t), z.midnight(u)], [t, u], since, z)
  {
    var times := [t, u];
    assert times[0] == t && times[1] == u;
  }

  lemma ClashLoses(t: Time, u: Time, since: Time, z: Zone)
    requires since <= t && since <= u && z.midnight(t) != z.midnight(u)
    ensures !AddsUp(OneShown(z, u), Clashing(t, u), since)
  {
    TwoMessages(t, u, since, z);
    hide MessagesSince, UsageTotals, CountUnder;
    assert OneShown(z, u)[..0] == [] && SumUsage([]) == ZERO;
  }

  /**
   Whatever the data and the order of the groups, the listed days add up to the totals
   if and only if no two midnights of the period come back with one date.
   */
  lemma UsageAddsUpIff(z: Zone, since: Time)
    ensures OneDateEach(z, since) <==>
      forall usage, d: Data, logRows, chatRows
        | Groups(logRows, TimesOf(d.calls), since, z) && Groups(chatRows, d.messages, since, z) && IsUsage(usage, d, since, z, logRows, chatRows)
        :: AddsUp(usage, d, since)
  {
    hide Groups, IsUsage, AddsUp;
    forall usage, d: Data, logRows, chatRows
      | OneDateEach(z, since)
        && Groups(logRows, TimesOf(d.calls), since, z) && Groups(chatRows, d.messages, since, z) && IsUsage(usage, d, since, z, logRows, chatRows)
      ensures AddsUp(usage, d, since)
    {
      UsageAddsUp(usage, d, since, z, logRows, chatRows);
    }
    if !OneDateEach(z, since) {
      var t, u :| since <= t && since <= u && z.date(z.midnight(t)) == z.date(z.midnight(u)) && z.midnight(t) != z.midnight(u);
      TwoGroups(t, u, since, z);
      OneIsShown(t, u, since, z);
      ClashLoses(t, u, since, z);
    }
  }

  // ---- which zones are so ------------------------------------------------------------------------------

  const HOUR: Time := 3600 * 1000000

  /** A zone at a fixed distance from UTC; the driver hands instants back in UTC. */
  function FixedOffset(offset: Time): Zone {
    Zone((t: Time) => DayOf(t + offset) * DAY - offset, (t: Time) => DayOf(t))
  }

  lemma FixedOffsetsAddUp(offset: Time, since: Time)
    ensures OneDateEach(FixedOffset(offset), since)
  {
    var z := FixedOffset(offset);
    forall t: Time ensures z.date(z.midnight(t)) == DayOf(t + offset) + DayOf(-offset) {
      DaysApart(DayOf(t + offset), -offset);
    }
  }

  lemma DaysApart(day: Day, t: Time)
    ensures DayOf(day * DAY + t) == day + DayOf(t)
  {
    var rest := t - DayOf(t) * DAY;
    assert day * DAY + t == (day + DayOf(t)) * DAY + rest;
    EveryInstantHasOneDay(day * DAY + t, day + DayOf(t));
  }

  /** A zone at UTC whose clocks go forward by an hour one hour into day 0. */
  function SpringForward(): Zone {
    Zone((t: Time) => var local := DayOf(if t < HOUR then t else t + HOUR); if local <= 0 then local * DAY else local * DAY - HOUR,
         (t: Time) => DayOf(t))
  }

  lemma SpringMidnight(t: Time)
    ensures var z := SpringForward();
      && (t < DAY - HOUR ==> z.date(z.midnight(t)) == DayOf(t) && z.midnight(t) == DayOf(t) * DAY)
      && (t >= DAY - HOUR ==> z.date(z.midnight(t)) == DayOf(t + HOUR) - 1 && z.midnight(t) == DayOf(t + HOUR) * DAY - HOUR)
  {
    if t >= DAY - HOUR {
      DaysApart(DayOf(t + HOUR), -HOUR);
    } else {
      DaysApart(DayOf(t), 0);
    }
  }

  /** There the day of the change is lost from the figures exactly when the period takes in any of it. */
  lemma SpringForwardIff(since: Time)
    ensures OneDateEach(SpringForward(), since) <==> since >= DAY - HOUR
  {
    var z := SpringForward();
    if since < DAY - HOUR {
      var t := DAY - HOUR - 1;
      SpringMidnight(t);
      SpringMidnight(DAY - HOUR);
    } else {
      forall t | since <= t ensures z.midnight(t) == (z.date(z.midnight(t)) + 1) * DAY - HOUR {
        SpringMidnight(t);
      }
    }
  }

  // ---- a session at UTC ---------------------------------------------------------------------------------

  function Later(a: Time, b: Time): Time {
    if a < b then b else a
  }

  /** There a date's figures are the live sums over that day's part of the period, as the rollup takes them. */
  lemma {:induction false} DayGroupIsInterval(calls: seq<Call>, prices: Prices, defaults: Price, since: Time, day: Day)
    ensures Group(calls, prices, defaults, since, FiledUnder(FixedOffset(0)), day)
         == SumCalls(calls, prices, defaults, Later(since, DayBounds(day).0), DayBounds(day).1)
  {
    hide RowOf, Plus;
    if calls != [] {
      DayGroupIsInterval(calls[..|calls| - 1], prices, defaults, since, day);
      var t := calls[|calls| - 1].at;
      EveryInstantHasOneDay(t, day);
      DaysApart(DayOf(t), 0);
    }
  }
}
