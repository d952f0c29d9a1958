/** The closed profit formula and the target price at fixed logistics
    (backend/economics/workspace.py), and why a goal once met stays met at higher prices. */
module Workspace {
  import opened Wrappers
  import opened UnitEconomics
  import opened Money

  datatype Goal = Margin | Roi

  /** `_profit_at_price`. */
  function ProfitAtPrice(price: real, cost: real, logistics: real, commissionRate: real, s: Settings, drr: real): real
    requires ValidSettings(s)
  {
    var realization := Part(price, 1.0 - s.coInvest);
    var vat := Part(realization, s.vat) / (1.0 + s.vat);
    var payout := Part(price, 1.0 - commissionRate - s.acquiring - drr) - logistics;
    var taxBase := if s.taxSystem.UsnIncome? then realization - vat else payout - cost - vat;
    payout - vat - IncomeTax(taxBase, s.incomeTax) - cost
  }

  function Required(goal: Goal, margin: real, roi: real, price: real, cost: real): real {
    if goal.Margin? then Part(price, margin) else Part(cost, roi)
  }

  /** The short formula of the workspace is the profit line of the full calculation. */
  lemma FormulaIsTheProfitLine(p: Product, tariff: real, s: Settings)
    requires ValidSettings(s) && Supported(s.taxSystem)
    requires p.price.Some? && p.cost.Some? && p.commissionRate.Some?
    ensures LineItems(p, Some(tariff), s).profit ==
      Some(ProfitAtPrice(p.price.value, p.cost.value, DeliveryCost(tariff, s.fixedFee, s.buyout), p.commissionRate.value, s, s.advertising))
  {
    LinesFromRates(p, tariff, s);
    ProfitFromAmounts(p, tariff, s);
    ProfitFromLines(p.price.value, p.cost.value, DeliveryCost(tariff, s.fixedFee, s.buyout), p.commissionRate.value, s, s.advertising);
  }

  function PayoutLine(price: real, commissionRate: real, acquiring: real, logistics: real, drr: real): real {
    price - (Part(price, commissionRate) + Part(price, acquiring) + logistics + Part(price, drr))
  }

  function ProfitFrom(payout: real, realization: real, vat: real, cost: real, s: Settings): real {
    payout - vat - IncomeTax(if s.taxSystem.UsnIncome? then realization - vat else payout - cost - vat, s.incomeTax) - cost
  }

  lemma LinesFromRates(p: Product, tariff: real, s: Settings)
    requires ValidSettings(s) && Supported(s.taxSystem)
    requires p.price.Some? && p.cost.Some? && p.commissionRate.Some?
    ensures var a := LineItems(p, Some(tariff), s);
      && a.realization == Some(Realization(p.price.value, s.coInvest))
      && a.vat == Some(Vat(Realization(p.price.value, s.coInvest), s.vat))
      && a.payout == Some(PayoutLine(p.price.value, p.commissionRate.value, s.acquiring, DeliveryCost(tariff, s.fixedFee, s.buyout), s.advertising))
  {
  }

  lemma ProfitFromAmounts(p: Product, tariff: real, s: Settings)
    requires ValidSettings(s) && Supported(s.taxSystem)
    requires p.price.Some? && p.cost.Some? && p.commissionRate.Some?
    ensures var a := LineItems(p, Some(tariff), s);
      && a.realization.Some? && a.vat.Some? && a.payout.Some?
      && a.profit == Some(ProfitFrom(a.payout.value, a.realization.value, a.vat.value, p.cost.value, s))
  {
  }

  lemma ProfitFromLines(price: real, cost: real, l: real, c: real, s: Settings, drr: real)
    requires ValidSettings(s)
    ensures var realization := Realization(price, s.coInvest);
      ProfitAtPrice(price, cost, l, c, s, drr) ==
        ProfitFrom(PayoutLine(price, c, s.acquiring, l, drr), realization, Vat(realization, s.vat), cost, s)
  {
    PayoutFormula(price, c, s.acquiring, drr, l);
    RealizationFormula(price, s.coInvest);
    VatFormula(Realization(price, s.coInvest), s.vat);
  }

  lemma PayoutFormula(price: real, a: real, b: real, c: real, l: real)
    ensures PayoutLine(price, a, b, l, c) == Part(price, 1.0 - a - b - c) - l
  {
  }

  lemma RealizationFormula(price: real, coInvest: real)
    ensures Realization(price, coInvest) == Part(price, 1.0 - coInvest)
  {
  }

  lemma VatFormula(realization: real, rate: real)
    requires 0.0 <= rate
    ensures Vat(realization, rate) == Part(realization, rate) / (1.0 + rate)
  {
    if rate == 0.0 {
      assert realization * rate == 0.0;
    }
  }

  // ---- a goal once met stays met ----

  /** The part of a rate that remains after dividing by one and the VAT. */
  function Fraction(r: real, vat: real): real
    requires 0.0 <= vat
  {
    r * vat / (1.0 + vat)
  }

  /** The share of the price that leaves as VAT. */
  function VatShare(s: Settings): real
    requires ValidSettings(s)
  {
    Fraction(1.0 - s.coInvest, s.vat)
  }

  /** What a rouble of price adds to the payout before tax. */
  function PayoutShare(c: real, s: Settings, drr: real): real {
    1.0 - c - s.acquiring - drr
  }

  lemma DivideProduct(x: real, y: real, z: real)
    requires z > 0.0
    ensures x * y / z == x * (y / z)
  {
    var k := y / z;
    assert x * y == x * (k * z) == (x * k) * z;
  }

  lemma PartOfFraction(price: real, r: real, vat: real)
    requires 0.0 <= vat
    ensures Part(Part(price, r), vat) / (1.0 + vat) == price * Fraction(r, vat)
  {
    assert price * r * vat == price * (r * vat);
    DivideProduct(price, r * vat, 1.0 + vat);
  }

  lemma VatIsAShare(price: real, s: Settings)
    requires ValidSettings(s)
    ensures Part(Part(price, 1.0 - s.coInvest), s.vat) / (1.0 + s.vat) == price * VatShare(s)
  {
    PartOfFraction(price, 1.0 - s.coInvest, s.vat);
  }

  lemma FractionBounds(r: real, vat: real)
    requires 0.0 <= r && 0.0 <= vat
    ensures 0.0 <= Fraction(r, vat) <= r
  {
    DivideProduct(r, vat, 1.0 + vat);
    var k := vat / (1.0 + vat);
    assert 0.0 <= k <= 1.0;
    assert 0.0 <= r * k;
    assert 0.0 <= r * (1.0 - k);
  }

  lemma VatShareBounds(s: Settings)
    requires ValidSettings(s)
    ensures 0.0 <= VatShare(s) <= 1.0 - s.coInvest
  {
    FractionBounds(1.0 - s.coInvest, s.vat);
  }

  lemma ShareOfShare(price: real, a: real, b: real, t: real)
    requires 0.0 <= price && b <= a && 0.0 <= t
    ensures Max0((price * a - price * b) * t) == price * (t * (a - b))
  {
    assert price * a - price * b == price * (a - b);
    assert 0.0 <= price * (a - b);
    assert price * (a - b) * t == price * (t * (a - b));
    assert 0.0 <= t * (a - b);
    assert 0.0 <= price * (t * (a - b));
  }

  /** The share of the price that leaves as income tax. */
  function TaxShare(s: Settings): real
    requires ValidSettings(s)
  {
    s.incomeTax * (1.0 - s.coInvest - VatShare(s))
  }

  /** A profit that is linear in the price. */
  function LinearProfit(price: real, a: real, v: real, t: real, fixed: real): real {
    price * a - price * v - price * t - fixed
  }

  lemma TaxOnIncome(price: real, s: Settings)
    requires ValidSettings(s) && 0.0 <= price
    ensures var realization := Part(price, 1.0 - s.coInvest);
      IncomeTax(realization - Part(realization, s.vat) / (1.0 + s.vat), s.incomeTax) == price * TaxShare(s)
  {
    VatIsAShare(price, s);
    VatShareBounds(s);
    ShareOfShare(price, 1.0 - s.coInvest, VatShare(s), s.incomeTax);
  }

  /** Under the income tax the profit is linear in the price. */
  lemma IncomeTaxProfit(price: real, cost: real, l: real, c: real, s: Settings, drr: real)
    requires ValidSettings(s) && s.taxSystem.UsnIncome? && 0.0 <= price
    ensures ProfitAtPrice(price, cost, l, c, s, drr) == LinearProfit(price, PayoutShare(c, s, drr), VatShare(s), TaxShare(s), l + cost)
  {
    VatIsAShare(price, s);
    TaxOnIncome(price, s);
  }

  /** Under the tax on income minus expenses a loss is untaxed and a gain is taxed in full. */
  lemma ExpensesTaxProfit(price: real, cost: real, l: real, c: real, s: Settings, drr: real)
    requires ValidSettings(s) && !s.taxSystem.UsnIncome?
    ensures var gain := price * PayoutShare(c, s, drr) - price * VatShare(s) - (l + cost);
      ProfitAtPrice(price, cost, l, c, s, drr) == gain - Max0(gain * s.incomeTax)
  {
    VatIsAShare(price, s);
  }

  lemma LinearStays(a: real, b: real, p: real, q: real)
    requires 0.0 < p <= q && 0.0 <= b <= p * a
    ensures b <= q * a
    ensures p * a <= q * a
  {
    assert 0.0 <= a;
    assert q * a == p * a + (q - p) * a;
  }

  lemma Distribute(p: real, a: real, v: real, t: real, m: real)
    ensures p * (a - v - t - m) == p * a - p * v - p * t - m * p
  {
  }

  lemma LinearGoal(p: real, q: real, a: real, v: real, t: real, m: real, b: real)
    requires 0.0 < p <= q && 0.0 <= b
    requires m * p + b <= p * a - p * v - p * t
    ensures m * q + b <= q * a - q * v - q * t
  {
    Distribute(p, a, v, t, m);
    Distribute(q, a, v, t, m);
    LinearStays(a - v - t - m, b, p, q);
  }

  /** A profit that is linear in the price, above a required amount that is linear or constant. */
  lemma LinearProfitStays(p: real, q: real, a: real, v: real, t: real, fixed: real, goal: Goal, margin: real, roi: real, cost: real)
    requires 0.0 < p <= q && 0.0 <= fixed && 0.0 <= cost && 0.0 <= roi
    requires Required(goal, margin, roi, p, cost) <= LinearProfit(p, a, v, t, fixed)
    ensures Required(goal, margin, roi, q, cost) <= LinearProfit(q, a, v, t, fixed)
  {
    if goal.Margin? {
      LinearGoal(p, q, a, v, t, margin, fixed);
    } else {
      assert 0.0 <= cost * roi;
      LinearGoal(p, q, a, v, t, 0.0, fixed + cost * roi);
    }
  }

  lemma GoalStaysMetOnIncome(p: real, q: real, cost: real, l: real, c: real, s: Settings, drr: real, goal: Goal, margin: real, roi: real)
    requires ValidSettings(s) && s.taxSystem.UsnIncome?
    requires 0.0 < p <= q && 0.0 <= cost && 0.0 <= l && 0.0 <= margin && 0.0 <= roi
    requires Required(goal, margin, roi, p, cost) <= ProfitAtPrice(p, cost, l, c, s, drr)
    ensures Required(goal, margin, roi, q, cost) <= ProfitAtPrice(q, cost, l, c, s, drr)
  {
    IncomeTaxProfit(p, cost, l, c, s, drr);
    IncomeTaxProfit(q, cost, l, c, s, drr);
    LinearProfitStays(p, q, PayoutShare(c, s, drr), VatShare(s), TaxShare(s), l + cost, goal, margin, roi, cost);
  }

  /** A gain after a tax that is clipped at zero. */
  function Net(gain: real, t: real): real {
    gain - Max0(gain * t)
  }

  lemma NetOfGain(gain: real, t: real)
    requires 0.0 <= t <= 1.0
    ensures 0.0 <= gain ==> Net(gain, t) == (1.0 - t) * gain
    ensures gain < 0.0 ==> Net(gain, t) < 0.0
  {
    assert 0.0 <= gain ==> 0.0 <= gain * t;
    assert gain < 0.0 ==> gain * t <= 0.0;
  }

  lemma Scale(k: real, p: real, g: real, b: real, m: real)
    ensures k * (p * g - b) - m * p == p * (k * g - m) - k * b
  {
  }

  function Gain(price: real, g: real, b: real): real {
    price * g - b
  }

  lemma ScaledStays(p: real, q: real, g: real, b: real, k: real, m: real)
    requires 0.0 < p <= q && 0.0 <= b && 0.0 <= k && Part(p, m) <= k * Gain(p, g, b)
    ensures Part(q, m) <= k * Gain(q, g, b)
  {
    Scale(k, p, g, b, m);
    Scale(k, q, g, b, m);
    assert 0.0 <= k * b;
    LinearStays(k * g - m, k * b, p, q);
  }

  lemma NetMarginStaysMet(p: real, q: real, g: real, b: real, t: real, m: real)
    requires 0.0 < p <= q && 0.0 <= b && 0.0 <= t <= 1.0 && 0.0 <= m
    requires Part(p, m) <= Net(Gain(p, g, b), t)
    ensures Part(q, m) <= Net(Gain(q, g, b), t)
  {
    assert 0.0 <= Part(p, m);
    NetOfGain(Gain(p, g, b), t);
    LinearStays(g, b, p, q);
    NetOfGain(Gain(q, g, b), t);
    ScaledStays(p, q, g, b, 1.0 - t, m);
  }

  lemma NetAmountStaysMet(p: real, q: real, g: real, b: real, t: real, required: real)
    requires 0.0 < p <= q && 0.0 <= b && 0.0 <= t <= 1.0 && 0.0 <= required
    requires required <= Net(Gain(p, g, b), t)
    ensures required <= Net(Gain(q, g, b), t)
  {
    NetOfGain(p * g - b, t);
    NetOfGain(q * g - b, t);
    LinearStays(g, b, p, q);
    MonotoneProduct(1.0 - t, p * g - b, q * g - b);
  }

  lemma MonotoneProduct(k: real, x: real, y: real)
    requires 0.0 <= k && x <= y
    ensures k * x <= k * y
  {
    assert 0.0 <= k * (y - x);
  }

  lemma ExpensesProfitIsNetGain(p: real, cost: real, l: real, c: real, s: Settings, drr: real)
    requires ValidSettings(s) && !s.taxSystem.UsnIncome?
    ensures ProfitAtPrice(p, cost, l, c, s, drr) ==
      Net(Gain(p, PayoutShare(c, s, drr) - VatShare(s), l + cost), s.incomeTax)
  {
    ExpensesTaxProfit(p, cost, l, c, s, drr);
    Distribute(p, PayoutShare(c, s, drr), VatShare(s), 0.0, 0.0);
    var gain := p * PayoutShare(c, s, drr) - p * VatShare(s) - (l + cost);
    assert gain == p * (PayoutShare(c, s, drr) - VatShare(s)) - (l + cost);
  }

  lemma GoalStaysMetOnExpenses(p: real, q: real, cost: real, l: real, c: real, s: Settings, drr: real, goal: Goal, margin: real, roi: real)
    requires ValidSettings(s) && !s.taxSystem.UsnIncome?
    requires 0.0 < p <= q && 0.0 <= cost && 0.0 <= l && 0.0 <= margin && 0.0 <= roi
    requires Required(goal, margin, roi, p, cost) <= ProfitAtPrice(p, cost, l, c, s, drr)
    ensures Required(goal, margin, roi, q, cost) <= ProfitAtPrice(q, cost, l, c, s, drr)
  {
    ExpensesProfitIsNetGain(p, cost, l, c, s, drr);
    ExpensesProfitIsNetGain(q, cost, l, c, s, drr);
    var g := PayoutShare(c, s, drr) - VatShare(s);
    if goal.Margin? {
      NetMarginStaysMet(p, q, g, l + cost, s.incomeTax, margin);
    } else {
      assert 0.0 <= Part(cost, roi);
      NetAmountStaysMet(p, q, g, l + cost, s.incomeTax, Part(cost, roi));
    }
  }

  /** At fixed logistics a price that meets the goal is met by every higher price, although the
      tax on income minus expenses is clipped at zero. */
  lemma GoalStaysMet(p: real, q: real, cost: real, l: real, c: real, s: Settings, drr: real, goal: Goal, margin: real, roi: real)
    requires ValidSettings(s)
    requires 0.0 < p <= q && 0.0 <= cost && 0.0 <= l && 0.0 <= margin && 0.0 <= roi
    requires Required(goal, margin, roi, p, cost) <= ProfitAtPrice(p, cost, l, c, s, drr)
    ensures Required(goal, margin, roi, q, cost) <= ProfitAtPrice(q, cost, l, c, s, drr)
  {
    if s.taxSystem.UsnIncome? {
      GoalStaysMetOnIncome(p, q, cost, l, c, s, drr, goal, margin, roi);
    } else {
      GoalStaysMetOnExpenses(p, q, cost, l, c, s, drr, goal, margin, roi);
    }
  }

  // ---- the search ----

  datatype Ask = Ask(
    cost: real, logistics: real, commissionRate: real, settings: Settings, drr: real,
    goal: Goal, margin: real, roi: real)

  predicate ValidAsk(a: Ask) {
    && ValidSettings(a.settings) && 0.0 <= a.cost && 0.0 <= a.logistics && 0.0 <= a.margin && 0.0 <= a.roi
  }

  /** `deficit(price) >= 0` at a whole number of kopeks. */
  predicate Reaches(a: Ask, n: int)
    requires ValidSettings(a.settings)
  {
    var price := Kopeks(n);
    Required(a.goal, a.margin, a.roi, price, a.cost)
      <= ProfitAtPrice(price, a.cost, a.logistics, a.commissionRate, a.settings, a.drr)
  }

  lemma ReachesStays(a: Ask, m: int, n: int)
    requires ValidAsk(a) && 1 <= m <= n && Reaches(a, m)
    ensures Reaches(a, n)
  {
    GoalStaysMet(Kopeks(m), Kopeks(n), a.cost, a.logistics, a.commissionRate, a.settings, a.drr, a.goal, a.margin, a.roi);
  }

  ghost predicate LeastReaching(a: Ask, n: int)
    requires ValidSettings(a.settings)
  {
    1 <= n && Reaches(a, n) && forall m :: 1 <= m < n ==> !Reaches(a, m)
  }

  lemma NoneReachBelow(a: Ask, n: int)
    requires ValidAsk(a) && !Reaches(a, n)
    ensures forall m :: 1 <= m <= n ==> !Reaches(a, m)
  {
    forall m | 1 <= m <= n ensures !Reaches(a, m) {
      if Reaches(a, m) {
        ReachesStays(a, m, n);
      }
    }
  }

  method Double(a: Ask, start: int) returns (upper: int, reached: bool)
    requires ValidAsk(a) && 1 <= start
    ensures start <= upper <= Doubled(start, 40) && reached == Reaches(a, upper)
    ensures !reached ==> upper == Doubled(start, 40)
  {
    upper := start;
    reached := Reaches(a, upper);
    var k := 0;
    while !reached && k < 40
      invariant 0 <= k <= 40 && upper == Doubled(start, k) && reached == Reaches(a, upper)
    {
      upper, k := upper * 2, k + 1;
      reached := Reaches(a, upper);
    }
    DoubledGrows(start, k, 40);
  }

  method Bisect(a: Ask, top: int) returns (upper: int)
    requires ValidAsk(a) && 1 <= top && Reaches(a, top)
    ensures upper <= top && LeastReaching(a, upper)
  {
    var lower := 1;
    upper := top;
    while lower < upper
      invariant 1 <= lower <= upper <= top && Reaches(a, upper)
      invariant forall m :: 1 <= m < lower ==> !Reaches(a, m)
    {
      var mid := (lower + upper) / 2;
      if Reaches(a, mid) {
        upper := mid;
      } else {
        NoneReachBelow(a, mid);
        lower := mid + 1;
      }
    }
  }

  /** At n kopeks the profit is at least the asked share of the price, or of the cost. */
  predicate EarnsRate(a: Ask, n: int)
    requires ValidSettings(a.settings) && 1 <= n && 0.0 < a.cost
  {
    var price := Kopeks(n);
    var profit := ProfitAtPrice(price, a.cost, a.logistics, a.commissionRate, a.settings, a.drr);
    match a.goal
    case Margin => a.margin <= profit / price
    case Roi => a.roi <= profit / a.cost
  }

  lemma RateAndAmount(rate: real, base: real, profit: real)
    requires 0.0 < base
    ensures rate <= profit / base <==> base * rate <= profit
  {
    var x := profit / base;
    assert x * base == profit;
    if rate <= x {
      assert 0.0 <= (x - rate) * base;
    } else {
      assert 0.0 < (rate - x) * base;
    }
  }

  lemma ReachesMeansRate(a: Ask, n: int)
    requires ValidAsk(a) && 1 <= n && 0.0 < a.cost
    ensures Reaches(a, n) <==> EarnsRate(a, n)
  {
    var profit := ProfitAtPrice(Kopeks(n), a.cost, a.logistics, a.commissionRate, a.settings, a.drr);
    match a.goal
    case Margin => RateAndAmount(a.margin, Kopeks(n), profit);
    case Roi => RateAndAmount(a.roi, a.cost, profit);
  }

  /** The least price in kopeks at which the rate is earned. */
  ghost predicate LeastEarning(a: Ask, n: int)
    requires ValidSettings(a.settings) && 0.0 < a.cost
  {
    1 <= n && EarnsRate(a, n) && forall m :: 1 <= m < n ==> !EarnsRate(a, m)
  }

  lemma ReachingIsEarning(a: Ask)
    requires ValidAsk(a) && 0.0 < a.cost
    ensures forall n :: 1 <= n ==> (Reaches(a, n) <==> EarnsRate(a, n))
    ensures forall n :: LeastReaching(a, n) <==> LeastEarning(a, n)
  {
    forall n | 1 <= n ensures Reaches(a, n) <==> EarnsRate(a, n) {
      ReachesMeansRate(a, n);
    }
  }

  /** `_target_price`: the least positive whole-kopek price at unchanged rates and logistics.
      It is found exactly when some price up to 2^40 times the current one reaches the goal. */
  method TargetPrice(currentPrice: Option<real>, cost: Option<real>, logistics: Option<real>, commissionRate: real,
                     s: Settings, drr: real, margin: real, roi: real, goal: Goal)
    returns (r: Option<real>)
    requires ValidSettings(s) && 0.0 <= margin && 0.0 <= roi
    requires logistics.Some? ==> 0.0 <= logistics.value
    ensures currentPrice.None? || cost.None? || logistics.None? || cost.value <= 0.0 || !Supported(s.taxSystem) ==> r.None?
    ensures currentPrice.Some? && cost.Some? && logistics.Some? && 0.0 < cost.value && Supported(s.taxSystem) ==>
      var a := Ask(cost.value, logistics.value, commissionRate, s, drr, goal, margin, roi);
      var limit := Doubled(MaxInt(1, Cents(currentPrice.value)), 40);
      && (r.None? <==> forall n :: 1 <= n <= limit ==> !EarnsRate(a, n))
      && (r.Some? ==> exists n :: n <= limit && LeastEarning(a, n) && r.value == Kopeks(n))
  {
    if currentPrice.None? || cost.None? || logistics.None? || cost.value <= 0.0 || !Supported(s.taxSystem) {
      return None;
    }
    var a := Ask(cost.value, logistics.value, commissionRate, s, drr, goal, margin, roi);
    var start := MaxInt(1, Cents(currentPrice.value));
    ghost var limit := Doubled(start, 40);
    DoubledGrows(start, 0, 40);
    ReachingIsEarning(a);
    if Reaches(a, 1) {
      assert 1 <= limit && LeastReaching(a, 1);
      return Some(Kopeks(1));
    }
    var upper, reached := Double(a, start);
    if !reached {
      NoneReachBelow(a, upper);
      return None;
    }
    upper := Bisect(a, upper);
    assert upper <= limit && LeastReaching(a, upper);
    return Some(Kopeks(upper));
  }
}
