/**
 As-of pricing (app/repositories/analytics.py, app/models/model_pricing.py,
 app/services/pricing_service.py): every logged call is costed at the price of
 its model that was in force when it was made.
 */
module Pricing {
  import opened Common

  type Time = int   // microseconds since the epoch

  /** Unique per model and instant (uq_model_pricing_period), so a slot names its row. */
  datatype Slot = Slot(model: string, from: Time)
  datatype Price = Price(input: real, output: real)   // per million tokens

  type Prices = map<Slot, Price>

  predicate Eligible(t: Prices, model: string, at: Time, s: Slot) {
    s in t && s.model == model && s.from <= at
  }

  /** WHERE model AND effective_from <= created_at ORDER BY effective_from DESC LIMIT 1 */
  ghost predicate InForce(t: Prices, model: string, at: Time, s: Slot) {
    Eligible(t, model, at, s) && forall o :: Eligible(t, model, at, o) ==> o.from <= s.from
  }

  ghost function PeriodOf(t: Prices, model: string, at: Time): Option<Slot> {
    if exists s :: InForce(t, model, at, s) then
      var s :| InForce(t, model, at, s);
      Some(s)
    else None
  }

  /** There is a period in force exactly when the model had any price by then, and it is the only one. */
  lemma PeriodOfIs(t: Prices, model: string, at: Time, s: Slot)
    ensures PeriodOf(t, model, at) == Some(s) <==> InForce(t, model, at, s)
    ensures PeriodOf(t, model, at).None? <==> forall o :: !Eligible(t, model, at, o)
  {
    if o :| Eligible(t, model, at, o) {
      LatestExists(t, model, at, (set e | e in t && Eligible(t, model, at, e)), o);
    }
  }

  lemma {:induction false} LatestExists(t: Prices, model: string, at: Time, left: set<Slot>, best: Slot)
    requires Eligible(t, model, at, best)
    requires forall o :: Eligible(t, model, at, o) ==> o in left || o.from <= best.from
    ensures exists s :: InForce(t, model, at, s)
    decreases |left|
  {
    if o :| o in left && Eligible(t, model, at, o) && o.from > best.from {
      LatestExists(t, model, at, left - {o}, o);
    } else {
      assert InForce(t, model, at, best);
    }
  }

  // ---- changing the table ---------------------------------------------------------------

  /** A repeated (model, instant) is refused by the unique constraint. */
  function Add(t: Prices, s: Slot, p: Price): Option<Prices> {
    if s in t then None else Some(t[s := p])
  }

  /** From the new period on, up to the model's next one. */
  predicate Affected(t: Prices, s: Slot, model: string, at: Time) {
    model == s.model && s.from <= at && !exists o :: o in t && o.model == model && s.from < o.from <= at
  }

  /** A new period takes over exactly the calls it affects; every other call keeps the period it had. */
  lemma AddMovesExactly(t: Prices, s: Slot, p: Price, model: string, at: Time)
    requires s !in t
    ensures PeriodOf(t[s := p], model, at) == if Affected(t, s, model, at) then Some(s) else PeriodOf(t, model, at)
    ensures PeriodOf(t[s := p], model, at) != PeriodOf(t, model, at) <==> Affected(t, s, model, at)
  {
    var t' := t[s := p];
    assert forall o :: Eligible(t', model, at, o) <==> Eligible(t, model, at, o) || (o == s && model == s.model && s.from <= at);
    PeriodOfIs(t, model, at, s);
    PeriodOfIs(t', model, at, s);
    if Affected(t, s, model, at) {
      assert InForce(t', model, at, s);
    } else {
      forall o ensures InForce(t', model, at, o) <==> InForce(t, model, at, o) {
        if model == s.model && s.from <= at {
          var next :| next in t && next.model == model && s.from < next.from <= at;
          assert Eligible(t, model, at, next) && Eligible(t', model, at, next);
        }
      }
      SamePeriod(t, t', model, at);
    }
  }

  lemma SamePeriod(t: Prices, t': Prices, model: string, at: Time)
    requires forall o :: InForce(t', model, at, o) <==> InForce(t, model, at, o)
    ensures PeriodOf(t', model, at) == PeriodOf(t, model, at)
  {
  }

  /** Deleting a period moves exactly the calls it was in force for. */
  lemma DeleteMovesExactly(t: Prices, s: Slot, model: string, at: Time)
    requires s in t
    ensures PeriodOf(t - {s}, model, at) != PeriodOf(t, model, at) <==> PeriodOf(t, model, at) == Some(s)
  {
    var t' := t - {s};
    assert t == t'[s := t[s]];
    AddMovesExactly(t', s, t[s], model, at);
  }

  // ---- costs ------------------------------------------------------------------------------------

  const MILLION := 1000000.0

  ghost function PriceAt(t: Prices, defaults: Price, model: string, at: Time): Price {
    var s := PeriodOf(t, model, at);
    if s.Some? && s.value in t then t[s.value] else defaults
  }

  function InputCost(tokens: int, p: Price): real {
    tokens as real / MILLION * p.input
  }

  function OutputCost(tokens: int, p: Price): real {
    tokens as real / MILLION * p.output
  }

  /** Adding a period and then deleting it restores the price of every call; meanwhile only affected calls changed. */
  lemma AddThenDelete(t: Prices, s: Slot, p: Price, defaults: Price, model: string, at: Time)
    requires s !in t
    ensures Add(t, s, p).Some? && Add(Add(t, s, p).value, s, p).None?
    ensures var t' := Add(t, s, p).value;
      && PriceAt(t', defaults, model, at) == (if Affected(t, s, model, at) then p else PriceAt(t, defaults, model, at))
      && PriceAt(t' - {s}, defaults, model, at) == PriceAt(t, defaults, model, at)
  {
    AddMovesExactly(t, s, p, model, at);
    var before := PeriodOf(t, model, at);
    if before.Some? {
      PeriodOfIs(t, model, at, before.value);
    }
    assert t[s := p] - {s} == t;
  }

  /** The lateral join, evaluated. */
  method Lookup(t: Prices, defaults: Price, model: string, at: Time) returns (p: Price)
    ensures p == PriceAt(t, defaults, model, at)
  {
    var left := t.Keys;
    var best: Option<Slot> := None;
    while left != {}
      invariant left <= t.Keys
      invariant best.None? ==> forall o :: Eligible(t, model, at, o) ==> o in left
      invariant best.Some? ==> Eligible(t, model, at, best.value)
      invariant best.Some? ==> forall o :: Eligible(t, model, at, o) ==> o in left || o.from <= best.value.from
      decreases left
    {
      var s :| s in left;
      if s.model == model && s.from <= at && (best.None? || s.from > best.value.from) {
        best := Some(s);
      }
      left := left - {s};
    }
    if best.None? {
      PeriodOfIs(t, model, at, Slot(model, at));
      return defaults;
    }
    PeriodOfIs(t, model, at, best.value);
    return t[best.value];
  }
}
