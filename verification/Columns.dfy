/**
 What the aggregated columns are (app/repositories/analytics.py, app/repositories/analytics_rollup.py):
 how many calls and messages there were, what each counted, and what each cost.
 */
module Columns {
  import opened Common
  import opened Pricing
  import opened Rollup

  // ---- one call ---------------------------------------------------------------------------------

  /** The price of a call: of the period in force for its model when it was made, or the default if there was none. */
  ghost predicate IsPriceOf(price: Price, c: Call, prices: Prices, defaults: Price) {
    || (exists s :: InForce(prices, c.model, c.at, s) && prices[s] == price)
    || ((forall s :: s in prices && s.model == c.model ==> s.from > c.at) && price == defaults)
  }

  lemma PriceIs(price: Price, c: Call, prices: Prices, defaults: Price)
    ensures IsPriceOf(price, c, prices, defaults) <==> price == PriceAt(prices, defaults, c.model, c.at)
  {
    PeriodOfIs(prices, c.model, c.at, Slot(c.model, c.at));
    var s := PeriodOf(prices, c.model, c.at);
    if s.Some? {
      PeriodOfIs(prices, c.model, c.at, s.value);
      assert InForce(prices, c.model, c.at, s.value);
      forall o | InForce(prices, c.model, c.at, o) ensures o == s.value {
        PeriodOfIs(prices, c.model, c.at, o);
      }
    } else {
      forall o | o in prices && o.model == c.model ensures o.from > c.at {
        assert !Eligible(prices, c.model, c.at, o);
      }
    }
  }

  /** A single call in the interval shows as itself, at its own price per million tokens of each kind. */
  lemma OneCallShows(c: Call, messages: seq<Time>, prices: Prices, defaults: Price, price: Price, from: Time, to: Time)
    requires from <= c.at < to && IsPriceOf(price, c, prices, defaults)
    ensures var t := Live(Data([c], messages, prices, defaults), from, to);
      && t.requests == 1 && t.errors == (if c.failed then 1 else 0)
      && t.promptTokens == c.promptTokens && t.completionTokens == c.completionTokens && t.totalTokens == c.totalTokens
      && t.latencyMs == c.latencyMs
      && t.inputCost * 1000000.0 == c.promptTokens as real * price.input
      && t.outputCost * 1000000.0 == c.completionTokens as real * price.output
  {
    PriceIs(price, c, prices, defaults);
    hide PriceAt, IsPriceOf;
    assert [c][..0] == [] && SumCalls([], prices, defaults, from, to) == ZERO;
  }

  // ---- any number of calls -----------------------------------------------------------------------

  /** A column added up over the calls of an interval, whatever is in it. */
  ghost function SumOver(calls: seq<Call>, from: Time, to: Time, column: Call -> real): real {
    if calls == [] then 0.0
    else SumOver(calls[1..], from, to, column) + (if from <= calls[0].at < to then column(calls[0]) else 0.0)
  }

  lemma {:induction false} SumLast(calls: seq<Call>, c: Call, from: Time, to: Time, column: Call -> real)
    ensures SumOver(calls + [c], from, to, column)
         == SumOver(calls, from, to, column) + (if from <= c.at < to then column(c) else 0.0)
  {
    if calls != [] {
      assert (calls + [c])[1..] == calls[1..] + [c];
      SumLast(calls[1..], c, from, to, column);
    } else {
      assert ([] + [c])[1..] == [];
    }
  }

  /** A column whose rows add up shows the sum of what its calls show. */
  lemma {:induction false} ColumnAddsUp(calls: seq<Call>, prices: Prices, defaults: Price, from: Time, to: Time, shown: Totals -> real, column: Call -> real)
    requires shown(ZERO) == 0.0 && (forall a, b :: shown(Plus(a, b)) == shown(a) + shown(b))
    requires forall c :: shown(RowOf(c, prices, defaults)) == column(c)
    ensures shown(SumCalls(calls, prices, defaults, from, to)) == SumOver(calls, from, to, column)
  {
    hide Plus, RowOf;
    if calls != [] {
      var n := |calls| - 1;
      ColumnAddsUp(calls[..n], prices, defaults, from, to, shown, column);
      assert calls == calls[..n] + [calls[n]];
      SumLast(calls[..n], calls[n], from, to, column);
    }
  }

  ghost function InputDue(prices: Prices, defaults: Price): Call -> real {
    (c: Call) => c.promptTokens as real * PriceAt(prices, defaults, c.model, c.at).input
  }

  ghost function OutputDue(prices: Prices, defaults: Price): Call -> real {
    (c: Call) => c.completionTokens as real * PriceAt(prices, defaults, c.model, c.at).output
  }

  /** Calls and failures are counted, and tokens and latencies added up, over the calls of the interval. */
  lemma CountsAddUp(d: Data, from: Time, to: Time)
    ensures var t := Live(d, from, to);
      && t.requests as real == SumOver(d.calls, from, to, (c: Call) => 1.0)
      && t.errors as real == SumOver(d.calls, from, to, (c: Call) => if c.failed then 1.0 else 0.0)
      && t.promptTokens as real == SumOver(d.calls, from, to, (c: Call) => c.promptTokens as real)
      && t.completionTokens as real == SumOver(d.calls, from, to, (c: Call) => c.completionTokens as real)
      && t.totalTokens as real == SumOver(d.calls, from, to, (c: Call) => c.totalTokens as real)
      && t.latencyMs as real == SumOver(d.calls, from, to, (c: Call) => c.latencyMs as real)
  {
    hide PriceAt, SumCalls, SumOver, CountMessages;
    ColumnAddsUp(d.calls, d.prices, d.defaults, from, to, (t: Totals) => t.requests as real, (c: Call) => 1.0);
    ColumnAddsUp(d.calls, d.prices, d.defaults, from, to, (t: Totals) => t.errors as real, (c: Call) => if c.failed then 1.0 else 0.0);
    ColumnAddsUp(d.calls, d.prices, d.defaults, from, to, (t: Totals) => t.promptTokens as real, (c: Call) => c.promptTokens as real);
    ColumnAddsUp(d.calls, d.prices, d.defaults, from, to, (t: Totals) => t.completionTokens as real, (c: Call) => c.completionTokens as real);
    ColumnAddsUp(d.calls, d.prices, d.defaults, from, to, (t: Totals) => t.totalTokens as real, (c: Call) => c.totalTokens as real);
    ColumnAddsUp(d.calls, d.prices, d.defaults, from, to, (t: Totals) => t.latencyMs as real, (c: Call) => c.latencyMs as real);
  }

  /** A million times each cost is the sum, over the calls, of the tokens of that kind times their price as of the call. */
  lemma CostsAddUp(d: Data, from: Time, to: Time)
    ensures var t := Live(d, from, to);
      && t.inputCost * 1000000.0 == SumOver(d.calls, from, to, InputDue(d.prices, d.defaults))
      && t.outputCost * 1000000.0 == SumOver(d.calls, from, to, OutputDue(d.prices, d.defaults))
  {
    hide PriceAt, SumCalls, SumOver, CountMessages;
    ColumnAddsUp(d.calls, d.prices, d.defaults, from, to, (t: Totals) => t.inputCost * 1000000.0, InputDue(d.prices, d.defaults));
    ColumnAddsUp(d.calls, d.prices, d.defaults, from, to, (t: Totals) => t.outputCost * 1000000.0, OutputDue(d.prices, d.defaults));
  }

  /** The messages of an interval, its start included and its end not. */
  ghost function Falling(messages: seq<Time>, from: Time, to: Time): set<nat> {
    set i | 0 <= i < |messages| && from <= messages[i] < to
  }

  lemma FallingLast(messages: seq<Time>, m: Time, from: Time, to: Time)
    ensures Falling(messages + [m], from, to) == Falling(messages, from, to) + (if from <= m < to then {|messages|} else {})
    ensures |messages| !in Falling(messages, from, to)
  {
  }

  /** A message counts on exactly the intervals it falls in. */
  lemma {:induction false} MessagesCounted(messages: seq<Time>, from: Time, to: Time)
    ensures CountMessages(messages, from, to) == |Falling(messages, from, to)|
  {
    if messages == [] {
      assert Falling(messages, from, to) == {};
    } else {
      hide Falling;
      var n := |messages| - 1;
      MessagesCounted(messages[..n], from, to);
      FallingLast(messages[..n], messages[n], from, to);
      assert messages == messages[..n] + [messages[n]];
    }
  }
}
