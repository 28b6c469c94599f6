/**
 The daily spend breaker (app/core/quota.py, _check_spend and record_usage): a
 counter per UTC day that is read before a completion and written after it,
 with other calls in flight in between.  Costs are real numbers.
 */
module SpendGuard {
  type Day = int

  datatype Settings = Settings(
    enabled: bool, dailySpendLimit: real, dailyTokenLimit: int, inputPrice: real, outputPrice: real)

  datatype Verdict = Allowed | AiDisabled | SpendExceeded | TokensExceeded

  datatype Counters = Counters(spend: map<Day, real>, tokens: map<Day, int>)

  function SpendOn(c: Counters, day: Day): real {
    if day in c.spend then c.spend[day] else 0.0
  }

  function TokensOn(c: Counters, day: Day): int {
    if day in c.tokens then c.tokens[day] else 0
  }

  function Judge(c: Counters, killed: bool, st: Settings, day: Day): Verdict {
    if killed then AiDisabled
    else if SpendOn(c, day) >= st.dailySpendLimit then SpendExceeded
    else if TokensOn(c, day) >= st.dailyTokenLimit then TokensExceeded
    else Allowed
  }

  function AtLeastZero(n: int): nat {
    if n < 0 then 0 else n
  }

  function TotalTokens(promptTokens: int, completionTokens: int): nat {
    AtLeastZero(promptTokens) + AtLeastZero(completionTokens)
  }

  function Cost(st: Settings, promptTokens: int, completionTokens: int): real {
    (promptTokens as real * st.inputPrice + completionTokens as real * st.outputPrice) / 1000000.0
  }

  function Added(c: Counters, day: Day, cost: real, tokens: nat): Counters {
    Counters(c.spend[day := SpendOn(c, day) + cost], c.tokens[day := TokensOn(c, day) + tokens])
  }

  // ---- calls in flight -----------------------------------------------------------------

  /**
   A call reads the clock, reads the counters of that day, generates, reads the
   clock again and writes; midnight may fall between any two of these.
   */
  datatype Call =
    | Checking(day: Day)
    | Passed(day: Day)
    | Recording(day: Day, cost: real, tokens: nat)

  datatype State = State(today: Day, killed: bool, counters: Counters, calls: map<nat, Call>)

  datatype Step =
    | Begin(id: nat)
    | Read(id: nat)
    | Complete(id: nat, promptTokens: int, completionTokens: int)
    | Write(id: nat)
    | Drop(id: nat)
    | Midnight
    | Kill(on: bool)
    | Expire(day: Day)

  /** At most `inFlight` calls at a time, each of at most `cost` and `tokens`. */
  datatype Load = Load(inFlight: nat, cost: real, tokens: nat)

  function Init(today: Day): State {
    State(today, false, Counters(map[], map[]), map[])
  }

  function Apply(s: State, st: Settings, load: Load, step: Step): State {
    match step
    case Begin(id) =>
      if id in s.calls || |s.calls| >= load.inFlight then s else s.(calls := s.calls[id := Checking(s.today)])
    case Read(id) =>
      if id !in s.calls || !s.calls[id].Checking? then s
      else if Judge(s.counters, s.killed, st, s.calls[id].day) == Allowed then s.(calls := s.calls[id := Passed(s.calls[id].day)])
      else s.(calls := s.calls - {id})
    case Complete(id, promptTokens, completionTokens) =>
      var cost, tokens := Cost(st, promptTokens, completionTokens), TotalTokens(promptTokens, completionTokens);
      if id !in s.calls || !s.calls[id].Passed? || cost > load.cost || tokens > load.tokens then s
      else if tokens == 0 then s.(calls := s.calls - {id})
      else s.(calls := s.calls[id := Recording(s.today, cost, tokens)])
    case Write(id) =>
      if id !in s.calls || !s.calls[id].Recording? then s
      else s.(counters := Added(s.counters, s.calls[id].day, s.calls[id].cost, s.calls[id].tokens), calls := s.calls - {id})
    case Drop(id) => s.(calls := s.calls - {id})
    case Midnight => s.(today := s.today + 1)
    case Kill(on) => s.(killed := on)
    case Expire(day) =>
      if day >= s.today then s
      else s.(counters := Counters(s.counters.spend - {day}, s.counters.tokens - {day}))
  }

  function Run(s: State, st: Settings, load: Load, steps: seq<Step>): State {
    if steps == [] then s else Apply(Run(s, st, load, steps[..|steps| - 1]), st, load, steps[|steps| - 1])
  }

  // ---- the bound ------------------------------------------------------------------------

  /** Calls that may still add to that day without looking at its counters again. */
  predicate MayAdd(c: Call, day: Day) {
    match c
    case Checking(d) => d < day
    case Passed(d) => d <= day
    case Recording(d, _, _) => d == day
  }

  ghost function Pending(calls: map<nat, Call>, day: Day): set<nat> {
    set id | id in calls && MayAdd(calls[id], day)
  }

  function Ceiling(limit: real): real {
    if limit < 0.0 then 0.0 else limit
  }

  /** What is written and what is still allowed to be written stay under the ceiling together. */
  ghost predicate Covered(amount: real, pending: nat, limit: real, load: nat, each: real) {
    amount + pending as real * each <= Ceiling(limit) + load as real * each
  }

  ghost predicate DayCovered(s: State, st: Settings, load: Load, day: Day) {
    var n := |Pending(s.calls, day)|;
    && Covered(SpendOn(s.counters, day), n, st.dailySpendLimit, load.inFlight, load.cost)
    && Covered(TokensOn(s.counters, day) as real, n, st.dailyTokenLimit as real, load.inFlight, load.tokens as real)
  }

  ghost predicate CallsSane(s: State, load: Load) {
    && |s.calls| <= load.inFlight
    && forall id :: id in s.calls ==>
         && s.calls[id].day <= s.today
         && (s.calls[id].Recording? ==> s.calls[id].cost <= load.cost && s.calls[id].tokens <= load.tokens)
  }

  ghost predicate Inv(s: State, st: Settings, load: Load) {
    && CallsSane(s, load)
    && (forall d :: d in s.counters.spend || d in s.counters.tokens ==> d <= s.today)
    && forall d :: DayCovered(s, st, load, d)
  }

  lemma PendingBounded(calls: map<nat, Call>, day: Day)
    ensures |Pending(calls, day)| <= |calls|
  {
    Subset(Pending(calls, day), calls.Keys);
  }

  lemma {:induction false} Subset(a: set<nat>, b: set<nat>)
    requires a <= b
    ensures |a| <= |b|
  {
    assert b == a + (b - a);
  }

  lemma PendingMove(calls: map<nat, Call>, id: nat, c: Call, day: Day)
    ensures id in calls && (MayAdd(c, day) ==> MayAdd(calls[id], day)) ==>
      |Pending(calls[id := c], day)| <= |Pending(calls, day)|
    ensures id in calls ==> |calls[id := c]| == |calls|
  {
    if id in calls && (MayAdd(c, day) ==> MayAdd(calls[id], day)) {
      Subset(Pending(calls[id := c], day), Pending(calls, day));
    }
    if id in calls {
      assert calls[id := c].Keys == calls.Keys;
    }
  }

  lemma PendingDrop(calls: map<nat, Call>, id: nat, day: Day)
    ensures |Pending(calls - {id}, day)| <= |Pending(calls, day)| && |calls - {id}| <= |calls|
    ensures id in calls && MayAdd(calls[id], day) ==> |Pending(calls - {id}, day)| == |Pending(calls, day)| - 1
  {
    Subset(Pending(calls - {id}, day), Pending(calls, day));
    Subset((calls - {id}).Keys, calls.Keys);
    if id in calls && MayAdd(calls[id], day) {
      assert Pending(calls - {id}, day) == Pending(calls, day) - {id};
    }
  }

  /** A day nobody has pushed over its limit has room for every call there can be. */
  lemma RoomForAll(amount: real, n: nat, limit: real, load: nat, each: real)
    requires (amount < limit || amount <= 0.0) && n <= load && each >= 0.0
    ensures Covered(amount, n, limit, load, each)
  {
  }

  lemma Uncover(amount: real, n: nat, limit: real, load: nat, each: real)
    requires Covered(amount, n, limit, load, each) && each >= 0.0
    ensures Under(amount, limit, load, each)
  {
  }

  lemma OneWritten(amount: real, more: real, n: nat, limit: real, load: nat, each: real)
    requires Covered(amount, n, limit, load, each) && n >= 1 && more <= each && each >= 0.0
    ensures Covered(amount + more, n - 1, limit, load, each)
  {
  }

  // ---- every step keeps it --------------------------------------------------------------

  lemma DayFewer(s: State, s': State, st: Settings, load: Load, day: Day)
    requires load.cost >= 0.0 && DayCovered(s, st, load, day) && s'.counters == s.counters
    requires |Pending(s'.calls, day)| <= |Pending(s.calls, day)|
    ensures DayCovered(s', st, load, day)
  {
  }

  lemma DayRoom(s: State, st: Settings, load: Load, day: Day)
    requires load.cost >= 0.0 && |s.calls| <= load.inFlight
    requires SpendOn(s.counters, day) < st.dailySpendLimit || SpendOn(s.counters, day) <= 0.0
    requires TokensOn(s.counters, day) < st.dailyTokenLimit || TokensOn(s.counters, day) <= 0
    ensures DayCovered(s, st, load, day)
  {
    PendingBounded(s.calls, day);
    var n := |Pending(s.calls, day)|;
    RoomForAll(SpendOn(s.counters, day), n, st.dailySpendLimit, load.inFlight, load.cost);
    RoomForAll(TokensOn(s.counters, day) as real, n, st.dailyTokenLimit as real, load.inFlight, load.tokens as real);
  }

  lemma BeginKeeps(s: State, st: Settings, load: Load, id: nat)
    requires Inv(s, st, load) && load.cost >= 0.0
    ensures Inv(Apply(s, st, load, Begin(id)), st, load)
  {
    var s' := Apply(s, st, load, Begin(id));
    if s' != s {
      assert s'.calls.Keys == s.calls.Keys + {id};
      assert |s'.calls.Keys| == |s.calls.Keys| + 1;
      forall d ensures DayCovered(s', st, load, d) {
        if d > s.today {
          DayRoom(s', st, load, d);
        } else {
          assert DayCovered(s, st, load, d);
          assert Pending(s'.calls, d) == Pending(s.calls, d);
        }
      }
    }
  }

  /** A call that passes has just seen its day under both limits; later days already counted it. */
  lemma ReadKeeps(s: State, st: Settings, load: Load, id: nat)
    requires Inv(s, st, load) && load.cost >= 0.0
    ensures Inv(Apply(s, st, load, Read(id)), st, load)
  {
    var s' := Apply(s, st, load, Read(id));
    if s' != s && id in s'.calls {
      var c := Passed(s.calls[id].day);
      PendingMove(s.calls, id, c, 0);
      forall d ensures DayCovered(s', st, load, d) {
        if d == c.day {
          DayRoom(s', st, load, d);
        } else {
          assert DayCovered(s, st, load, d);
          PendingMove(s.calls, id, c, d);
          DayFewer(s, s', st, load, d);
        }
      }
    } else if s' != s {
      DropKeeps(s, st, load, id);
    }
  }

  lemma DropKeeps(s: State, st: Settings, load: Load, id: nat)
    requires Inv(s, st, load) && load.cost >= 0.0
    ensures Inv(s.(calls := s.calls - {id}), st, load)
  {
    PendingDrop(s.calls, id, 0);
    forall d ensures DayCovered(s.(calls := s.calls - {id}), st, load, d) {
      assert DayCovered(s, st, load, d);
      PendingDrop(s.calls, id, d);
      DayFewer(s, s.(calls := s.calls - {id}), st, load, d);
    }
  }

  lemma CompleteKeeps(s: State, st: Settings, load: Load, id: nat, promptTokens: int, completionTokens: int)
    requires Inv(s, st, load) && load.cost >= 0.0
    ensures Inv(Apply(s, st, load, Complete(id, promptTokens, completionTokens)), st, load)
  {
    var s' := Apply(s, st, load, Complete(id, promptTokens, completionTokens));
    if s' != s && id in s'.calls {
      var c := s'.calls[id];
      PendingMove(s.calls, id, c, 0);
      forall d ensures DayCovered(s', st, load, d) {
        assert DayCovered(s, st, load, d);
        PendingMove(s.calls, id, c, d);
        DayFewer(s, s', st, load, d);
      }
    } else if s' != s {
      DropKeeps(s, st, load, id);
    }
  }

  lemma WrittenDay(s: State, s': State, st: Settings, load: Load, c: Call)
    requires load.cost >= 0.0 && c.Recording? && c.cost <= load.cost && c.tokens <= load.tokens
    requires DayCovered(s, st, load, c.day) && s'.counters == Added(s.counters, c.day, c.cost, c.tokens)
    requires |Pending(s'.calls, c.day)| == |Pending(s.calls, c.day)| - 1
    ensures DayCovered(s', st, load, c.day)
  {
    hide Covered;
    var n := |Pending(s.calls, c.day)|;
    OneWritten(SpendOn(s.counters, c.day), c.cost, n, st.dailySpendLimit, load.inFlight, load.cost);
    OneWritten(TokensOn(s.counters, c.day) as real, c.tokens as real, n, st.dailyTokenLimit as real, load.inFlight,
               load.tokens as real);
    assert TokensOn(s'.counters, c.day) as real == TokensOn(s.counters, c.day) as real + c.tokens as real;
  }

  lemma WriteKeeps(s: State, st: Settings, load: Load, id: nat)
    requires Inv(s, st, load) && load.cost >= 0.0
    ensures Inv(Apply(s, st, load, Write(id)), st, load)
  {
    var s' := Apply(s, st, load, Write(id));
    if id in s.calls && s.calls[id].Recording? {
      var c := s.calls[id];
      DropKeeps(s, st, load, id);
      forall d ensures DayCovered(s', st, load, d) {
        assert DayCovered(s, st, load, d);
        assert DayCovered(s.(calls := s.calls - {id}), st, load, d);
        if d == c.day {
          PendingDrop(s.calls, id, d);
          WrittenDay(s, s', st, load, c);
        }
      }
    }
  }

  lemma ExpireKeeps(s: State, st: Settings, load: Load, day: Day)
    requires Inv(s, st, load) && load.cost >= 0.0
    ensures Inv(Apply(s, st, load, Expire(day)), st, load)
  {
    var s' := Apply(s, st, load, Expire(day));
    forall d ensures DayCovered(s', st, load, d) {
      assert DayCovered(s, st, load, d);
      if s' != s && d == day {
        DayRoom(s', st, load, d);
      }
    }
  }

  lemma SameCover(s: State, s': State, st: Settings, load: Load)
    requires Inv(s, st, load) && s'.counters == s.counters && s'.calls == s.calls && s.today <= s'.today
    ensures Inv(s', st, load)
  {
    forall d ensures DayCovered(s', st, load, d) {
      assert DayCovered(s, st, load, d);
    }
  }

  lemma StepKeeps(s: State, st: Settings, load: Load, step: Step)
    requires Inv(s, st, load) && load.cost >= 0.0
    ensures Inv(Apply(s, st, load, step), st, load)
  {
    match step
    case Begin(id) => hide Inv; BeginKeeps(s, st, load, id);
    case Read(id) => hide Inv; ReadKeeps(s, st, load, id);
    case Complete(id, promptTokens, completionTokens) => hide Inv; CompleteKeeps(s, st, load, id, promptTokens, completionTokens);
    case Write(id) => hide Inv; WriteKeeps(s, st, load, id);
    case Drop(id) => hide Inv; DropKeeps(s, st, load, id);
    case Expire(day) => hide Inv; ExpireKeeps(s, st, load, day);
    case Midnight => SameCover(s, s.(today := s.today + 1), st, load);
    case Kill(on) => SameCover(s, s.(killed := on), st, load);
  }

  lemma {:induction false} Reachable(today: Day, st: Settings, load: Load, steps: seq<Step>)
    requires load.cost >= 0.0
    ensures Inv(Run(Init(today), st, load, steps), st, load)
  {
    if steps == [] {
      forall d ensures DayCovered(Init(today), st, load, d) {
        DayRoom(Init(today), st, load, d);
      }
    } else {
      hide Inv;
      Reachable(today, st, load, steps[..|steps| - 1]);
      StepKeeps(Run(Init(today), st, load, steps[..|steps| - 1]), st, load, steps[|steps| - 1]);
    }
  }

  /** At most the limit plus what `inFlight` calls can add. */
  ghost predicate Under(amount: real, limit: real, inFlight: nat, each: real) {
    amount <= Ceiling(limit) + inFlight as real * each
  }

  /**
   On every day of every run, midnight wherever it falls, what was recorded is at
   most the limit plus what the calls in flight can cost; likewise for tokens.
   */
  lemma SpendBounded(today: Day, st: Settings, load: Load, steps: seq<Step>, day: Day)
    requires load.cost >= 0.0
    ensures var c := Run(Init(today), st, load, steps).counters;
      && Under(SpendOn(c, day), st.dailySpendLimit, load.inFlight, load.cost)
      && Under(TokensOn(c, day) as real, st.dailyTokenLimit as real, load.inFlight, load.tokens as real)
  {
    hide Covered, Under;
    Reachable(today, st, load, steps);
    var s := Run(Init(today), st, load, steps);
    assert DayCovered(s, st, load, day);
    var n := |Pending(s.calls, day)|;
    Uncover(SpendOn(s.counters, day), n, st.dailySpendLimit, load.inFlight, load.cost);
    Uncover(TokensOn(s.counters, day) as real, n, st.dailyTokenLimit as real, load.inFlight, load.tokens as real);
  }

  /** A call is let through exactly if, when it looks, the switch is off and its day is under both limits. */
  lemma PassesIff(s: State, st: Settings, load: Load, id: nat)
    requires id in s.calls && s.calls[id].Checking?
    ensures var s' := Apply(s, st, load, Read(id));
      && s'.counters == s.counters
      && (id in s'.calls <==>
            !s.killed && SpendOn(s.counters, s.calls[id].day) < st.dailySpendLimit && TokensOn(s.counters, s.calls[id].day) < st.dailyTokenLimit)
      && (id in s'.calls ==> s'.calls[id] == Passed(s.calls[id].day))
  {
  }

  /** Past its check, generating or about to be written down. */
  ghost predicate LetThrough(s: State, id: nat) {
    id in s.calls && !s.calls[id].Checking?
  }

  /** From the moment the switch is thrown until it is released, no call is let through that was not before. */
  lemma {:induction false} KillHolds(s: State, st: Settings, load: Load, steps: seq<Step>, id: nat)
    requires forall k :: 0 <= k < |steps| ==> steps[k] != Kill(false)
    ensures var s' := Run(Apply(s, st, load, Kill(true)), st, load, steps);
      s'.killed && (LetThrough(s', id) ==> LetThrough(s, id))
  {
    if steps != [] {
      hide Cost;
      KillHolds(s, st, load, steps[..|steps| - 1], id);
    }
  }

  /** A call that completes and is written down costs its day what its tokens of each kind cost, and no other day anything. */
  lemma CompletionCosts(s: State, st: Settings, load: Load, id: nat, promptTokens: nat, completionTokens: nat, day: Day)
    requires id in s.calls && s.calls[id].Passed? && promptTokens + completionTokens > 0
    requires promptTokens as real * st.inputPrice + completionTokens as real * st.outputPrice <= load.cost * 1000000.0
    requires promptTokens + completionTokens <= load.tokens
    ensures var s' := Apply(Apply(s, st, load, Complete(id, promptTokens, completionTokens)), st, load, Write(id));
      && (SpendOn(s'.counters, day) - SpendOn(s.counters, day)) * 1000000.0
         == (if day == s.today then promptTokens as real * st.inputPrice + completionTokens as real * st.outputPrice else 0.0)
      && TokensOn(s'.counters, day) - TokensOn(s.counters, day) == (if day == s.today then promptTokens + completionTokens else 0)
      && s'.calls == s.calls - {id}
  {
    hide Cost;
    CostIs(st, promptTokens, completionTokens, load.cost);
    var mid := Apply(s, st, load, Complete(id, promptTokens, completionTokens));
    assert mid == s.(calls := s.calls[id := Recording(s.today, Cost(st, promptTokens, completionTokens), promptTokens + completionTokens)]);
    assert mid.calls - {id} == s.calls - {id};
    AddedOnDay(s.counters, s.today, Cost(st, promptTokens, completionTokens), promptTokens + completionTokens, day);
  }

  lemma CostIs(st: Settings, promptTokens: int, completionTokens: int, limit: real)
    ensures var due := promptTokens as real * st.inputPrice + completionTokens as real * st.outputPrice;
      Cost(st, promptTokens, completionTokens) * 1000000.0 == due && (Cost(st, promptTokens, completionTokens) <= limit <==> due <= limit * 1000000.0)
  {
    Scaled(promptTokens as real * st.inputPrice + completionTokens as real * st.outputPrice, limit);
  }

  lemma Scaled(x: real, limit: real)
    ensures x / 1000000.0 * 1000000.0 == x && (x / 1000000.0 <= limit <==> x <= limit * 1000000.0)
  {
  }

  lemma AddedOnDay(c: Counters, today: Day, cost: real, tokens: nat, day: Day)
    ensures SpendOn(Added(c, today, cost, tokens), day) == SpendOn(c, day) + (if day == today then cost else 0.0)
    ensures TokensOn(Added(c, today, cost, tokens), day) == TokensOn(c, day) + (if day == today then tokens else 0)
  {
  }

  // ---- the counters in place ----------------------------------------------------------------

  class SpendCounters {
    var killed: bool
    var spend: map<Day, real>
    var tokens: map<Day, int>

    ghost function Contents(): Counters
      reads this
    {
      Counters(spend, tokens)
    }

    constructor ()
      ensures Contents() == Counters(map[], map[]) && !killed
    {
      killed, spend, tokens := false, map[], map[];
    }

    method CheckSpend(st: Settings, day: Day) returns (v: Verdict)
      ensures v == Judge(Contents(), killed, st, day)
      ensures v == AiDisabled <==> killed
      ensures v == SpendExceeded <==> !killed && SpendOn(Contents(), day) >= st.dailySpendLimit
      ensures v == TokensExceeded <==>
        !killed && SpendOn(Contents(), day) < st.dailySpendLimit && TokensOn(Contents(), day) >= st.dailyTokenLimit
      ensures v == Allowed <==> !killed && SpendOn(Contents(), day) < st.dailySpendLimit && TokensOn(Contents(), day) < st.dailyTokenLimit
    {
      if killed {
        return AiDisabled;
      }
      var spent := if day in spend then spend[day] else 0.0;
      var used := if day in tokens then tokens[day] else 0;
      if spent >= st.dailySpendLimit {
        return SpendExceeded;
      }
      if used >= st.dailyTokenLimit {
        return TokensExceeded;
      }
      return Allowed;
    }

    method RecordUsage(st: Settings, promptTokens: int, completionTokens: int, day: Day)
      modifies this
      ensures killed == old(killed)
      ensures Contents() ==
        if st.enabled && TotalTokens(promptTokens, completionTokens) > 0
        then Added(old(Contents()), day, Cost(st, promptTokens, completionTokens), TotalTokens(promptTokens, completionTokens))
        else old(Contents())
      ensures var (p, q) := (if promptTokens < 0 then 0 else promptTokens, if completionTokens < 0 then 0 else completionTokens);
        if st.enabled && p + q > 0 then
          && (SpendOn(Contents(), day) - SpendOn(old(Contents()), day)) * 1000000.0
             == promptTokens as real * st.inputPrice + completionTokens as real * st.outputPrice
          && TokensOn(Contents(), day) == TokensOn(old(Contents()), day) + p + q
        else Contents() == old(Contents())
      ensures forall other :: other != day ==>
        SpendOn(Contents(), other) == SpendOn(old(Contents()), other) && TokensOn(Contents(), other) == TokensOn(old(Contents()), other)
    {
      if !st.enabled {
        return;
      }
      var total := AtLeastZero(promptTokens) + AtLeastZero(completionTokens);
      if total == 0 {
        return;
      }
      var cost := Cost(st, promptTokens, completionTokens);
      spend := spend[day := (if day in spend then spend[day] else 0.0) + cost];
      tokens := tokens[day := (if day in tokens then tokens[day] else 0) + total];
    }
  }
}
