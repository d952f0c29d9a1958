/** Unit economics of one product on one placement (backend/economics/unit.py), over exact
    reals instead of 40-digit decimals. */
module UnitEconomics {
  import opened Wrappers
  import opened Text
  import opened Tariffs

  datatype TaxSystem = UsnIncome | UsnIncomeMinusExpenses | Osno | ManualTax

  datatype Settings = Settings(
    acquiring: real, advertising: real, buyout: real, fixedFee: real,
    taxSystem: TaxSystem, incomeTax: real, vat: real, coInvest: real)

  datatype Product = Product(
    sku: string, article: string, cost: Option<real>, available: Option<int>,
    price: Option<real>, commissionRate: Option<real>, volume: Option<real>)

  datatype Blocker = MissingPrice | MissingCost | MissingCommissionRate | IncompleteLogistics | UnsupportedTax

  /** The amounts of the result; a Python `None` amount is `None`. */
  datatype Amounts = Amounts(
    price: Option<real>, commission: Option<real>, acquiring: Option<real>, deliveryTariff: Option<real>,
    logistics: Option<real>, advertising: Option<real>, withholdings: Option<real>, payout: Option<real>,
    coInvest: Option<real>, realization: Option<real>, vat: Option<real>, incomeTax: Option<real>,
    tax: Option<real>, cost: Option<real>, profit: Option<real>, margin: Option<real>, roi: Option<real>)

  datatype Unit = Unit(sku: string, placement: string, amounts: Amounts, blockers: seq<Blocker>)

  datatype UnitError = BlankSku | BlankPlacement | SkuMismatch | PlacementMismatch | BadNumber | FeeContradiction

  predicate Rate(x: real) {
    0.0 <= x <= 1.0
  }

  /** The settings `calculate_unit_economics` does not reject; advertising may exceed 100%. */
  predicate ValidSettings(s: Settings) {
    && Rate(s.acquiring) && 0.0 <= s.advertising && Rate(s.buyout) && s.buyout > 0.0 && 0.0 <= s.fixedFee
    && Rate(s.incomeTax) && Rate(s.vat) && Rate(s.coInvest)
  }

  predicate ValidProduct(p: Product) {
    && (p.price.Some? ==> 0.0 <= p.price.value)
    && (p.cost.Some? ==> 0.0 <= p.cost.value)
    && (p.commissionRate.Some? ==> Rate(p.commissionRate.value))
  }

  predicate Supported(t: TaxSystem) {
    t.UsnIncome? || t.UsnIncomeMinusExpenses?
  }

  function Blockers(p: Product, s: Settings, complete: bool): seq<Blocker> {
    (if p.price.None? then [MissingPrice] else []) +
    (if p.cost.None? then [MissingCost] else []) +
    (if p.commissionRate.None? then [MissingCommissionRate] else []) +
    (if complete then [] else [IncompleteLogistics]) +
    (if Supported(s.taxSystem) then [] else [UnsupportedTax])
  }

  function Max0(x: real): real {
    if x > 0.0 then x else 0.0
  }

  function DeliveryCost(tariff: real, fixedFee: real, buyout: real): real
    requires buyout != 0.0
  {
    (tariff + fixedFee) / buyout + (1.0 / buyout - 1.0) * tariff
  }

  function Vat(realization: real, rate: real): real
    requires rate != -1.0
  {
    if rate != 0.0 then Part(realization, rate) / (1.0 + rate) else 0.0
  }

  /** A rate of an amount. Naming the product keeps it one term for the verifier. */
  function Part(amount: real, rate: real): real {
    amount * rate
  }

  function Realization(price: real, coInvest: real): real {
    price - Part(price, coInvest)
  }

  function IncomeTax(taxBase: real, rate: real): real {
    Max0(taxBase * rate)
  }

  function Mul(x: Option<real>, rate: real): Option<real> {
    if x.None? then None else Some(Part(x.value, rate))
  }

  function Quotient(x: Option<real>, y: Option<real>): Option<real> {
    if x.Some? && y.Some? && y.value != 0.0 then Some(x.value / y.value) else None
  }

  function LineItems(p: Product, tariff: Option<real>, s: Settings): (a: Amounts)
    requires s.buyout != 0.0 && s.vat != -1.0
  {
    var price, cost := p.price, p.cost;
    var commission := if price.Some? && p.commissionRate.Some? then Some(Part(price.value, p.commissionRate.value)) else None;
    var acquiring := Mul(price, s.acquiring);
    var logistics := if tariff.Some? then Some(DeliveryCost(tariff.value, s.fixedFee, s.buyout)) else None;
    var advertising := Mul(price, s.advertising);
    var withholdings :=
      if commission.Some? && acquiring.Some? && logistics.Some? && advertising.Some? then
        Some(commission.value + acquiring.value + logistics.value + advertising.value) else None;
    var payout := if price.Some? && withholdings.Some? then Some(price.value - withholdings.value) else None;
    var coInvest := Mul(price, s.coInvest);
    var realization := if price.Some? && coInvest.Some? then Some(Realization(price.value, s.coInvest)) else None;
    var vat := if realization.Some? then Some(Vat(realization.value, s.vat)) else None;
    var taxBase :=
      if s.taxSystem.UsnIncome? && realization.Some? && vat.Some? then Some(realization.value - vat.value)
      else if s.taxSystem.UsnIncomeMinusExpenses? && payout.Some? && cost.Some? && vat.Some? then
        Some(payout.value - cost.value - vat.value)
      else None;
    var incomeTax := if taxBase.Some? then Some(IncomeTax(taxBase.value, s.incomeTax)) else None;
    var tax := if incomeTax.Some? && vat.Some? then Some(incomeTax.value + vat.value) else None;
    var complete := Blockers(p, s, tariff.Some?) == [];
    var profit :=
      if complete && payout.Some? && tax.Some? && cost.Some? then Some(payout.value - tax.value - cost.value) else None;
    Amounts(price, commission, acquiring, tariff, logistics, advertising, withholdings, payout, coInvest, realization,
            vat, incomeTax, tax, cost, profit, Quotient(profit, price), Quotient(profit, cost))
  }

  /** The profit is known exactly when nothing blocks the calculation, and then every rouble of
      the price is accounted for: withheld, taxed, spent on the goods or left as profit. */
  function CalculateUnitEconomics(p: Product, placement: string, l: Logistics, s: Settings): (r: Result<Unit, UnitError>)
    ensures r.Ok? ==> var a := r.value.amounts;
      && (a.profit.Some? <==> r.value.blockers == [])
      && (a.profit.Some? <==>
           && p.price.Some? && p.cost.Some? && p.commissionRate.Some?
           && l.expectedFee.Some? && Supported(s.taxSystem))
    ensures r.Ok? && r.value.amounts.profit.Some? ==> var a := r.value.amounts;
      && a.commission.Some? && a.acquiring.Some? && a.logistics.Some? && a.advertising.Some?
      && a.vat.Some? && a.incomeTax.Some? && 0.0 <= a.incomeTax.value
      && p.price.value == a.commission.value + a.acquiring.value + a.logistics.value + a.advertising.value
                          + a.vat.value + a.incomeTax.value + p.cost.value + a.profit.value
  {
    if Blank(p.sku) then Err(BlankSku)
    else if Blank(placement) then Err(BlankPlacement)
    else if l.sku != p.sku then Err(SkuMismatch)
    else if l.origin != placement then Err(PlacementMismatch)
    else if !ValidProduct(p) || !ValidSettings(s) then Err(BadNumber)
    else if l.coverage.Complete? != l.expectedFee.Some? then Err(FeeContradiction)
    else if l.expectedFee.Some? && l.expectedFee.value < 0.0 then Err(BadNumber)
    else Ok(Unit(p.sku, placement, LineItems(p, l.expectedFee, s), Blockers(p, s, l.coverage.Complete?)))
  }

  // ---- what the lines mean ----

  /** Of every unit shipped the bought-out share pays for the way there, with the fixed fee, and for
      the way back of the rest: the delivery cost of a sold unit covers all shipments behind it. */
  lemma DeliveryCoversReturns(tariff: real, fixedFee: real, buyout: real)
    requires 0.0 < buyout
    ensures buyout * DeliveryCost(tariff, fixedFee, buyout) == tariff + fixedFee + (1.0 - buyout) * tariff
  {
    var a, b := (tariff + fixedFee) / buyout, 1.0 / buyout;
    assert buyout * a == tariff + fixedFee && buyout * b == 1.0;
    assert buyout * ((b - 1.0) * tariff) == (buyout * b) * tariff - buyout * tariff;
  }

  /** The VAT is the rate on what is left of the realization without it. */
  lemma VatIsIncluded(realization: real, rate: real)
    requires 0.0 <= rate
    ensures Vat(realization, rate) == rate * (realization - Vat(realization, rate))
  {
    if rate != 0.0 {
      var v := Vat(realization, rate);
      assert v * (1.0 + rate) == realization * rate;
      assert v + v * rate == realization * rate;
    }
  }

  lemma TaxSign(base: real, rate: real)
    requires 0.0 <= rate
    ensures 0.0 <= base ==> IncomeTax(base, rate) == rate * base
    ensures base < 0.0 ==> IncomeTax(base, rate) == 0.0
  {
    if 0.0 <= base {
      assert 0.0 <= base * rate;
    } else {
      assert base * rate <= 0.0;
    }
  }

  /** Commission, acquiring and advertising are rates of the price; delivery covers returns. */
  ghost predicate CostsAreRight(p: Product, tariff: real, s: Settings, a: Amounts)
    requires p.price.Some? && p.commissionRate.Some?
  {
    && a.commission.Some? && a.commission.value == p.price.value * p.commissionRate.value
    && a.acquiring.Some? && a.acquiring.value == p.price.value * s.acquiring
    && a.advertising.Some? && a.advertising.value == p.price.value * s.advertising
    && a.logistics.Some? && s.buyout * a.logistics.value == tariff + s.fixedFee + (1.0 - s.buyout) * tariff
  }

  /** VAT is included in the realization, and the tax takes its rate of the tax base unless that is
      a loss. */
  ghost predicate TaxesAreRight(p: Product, s: Settings, a: Amounts)
    requires p.price.Some? && p.cost.Some?
  {
    && a.realization.Some? && a.realization.value + p.price.value * s.coInvest == p.price.value
    && a.vat.Some? && a.vat.value == s.vat * (a.realization.value - a.vat.value)
    && a.payout.Some? && a.incomeTax.Some?
    && var base := if s.taxSystem.UsnIncome? then a.realization.value - a.vat.value else a.payout.value - p.cost.value - a.vat.value;
      && (0.0 <= base ==> a.incomeTax.value == s.incomeTax * base) && (base < 0.0 ==> a.incomeTax.value == 0.0)
  }

  /** Margin and ROI are the profit per rouble of price and of cost. */
  ghost predicate ReturnsAreRight(p: Product, a: Amounts)
    requires p.price.Some? && p.cost.Some?
  {
    && a.profit.Some?
    && (0.0 < p.price.value ==> a.margin == Some(a.profit.value / p.price.value))
    && (0.0 < p.cost.value ==> a.roi == Some(a.profit.value / p.cost.value))
  }

  lemma CostLines(p: Product, tariff: real, s: Settings)
    requires ValidSettings(s) && p.price.Some? && p.commissionRate.Some?
    ensures var a := LineItems(p, Some(tariff), s);
      && a.commission == Some(Part(p.price.value, p.commissionRate.value))
      && a.acquiring == Some(Part(p.price.value, s.acquiring)) && a.advertising == Some(Part(p.price.value, s.advertising))
      && a.logistics == Some(DeliveryCost(tariff, s.fixedFee, s.buyout))
  {
  }

  lemma CoversReturns(l: real, tariff: real, fixedFee: real, buyout: real)
    requires 0.0 < buyout && l == DeliveryCost(tariff, fixedFee, buyout)
    ensures buyout * l == tariff + fixedFee + (1.0 - buyout) * tariff
  {
    DeliveryCoversReturns(tariff, fixedFee, buyout);
  }

  lemma CostsFromLines(p: Product, tariff: real, s: Settings, a: Amounts)
    requires 0.0 < s.buyout && p.price.Some? && p.commissionRate.Some?
    requires a.commission == Some(Part(p.price.value, p.commissionRate.value))
    requires a.acquiring == Some(Part(p.price.value, s.acquiring)) && a.advertising == Some(Part(p.price.value, s.advertising))
    requires a.logistics == Some(DeliveryCost(tariff, s.fixedFee, s.buyout))
    ensures CostsAreRight(p, tariff, s, a)
  {
    CoversReturns(a.logistics.value, tariff, s.fixedFee, s.buyout);
  }

  lemma CostsMean(p: Product, tariff: real, s: Settings)
    requires ValidSettings(s) && p.price.Some? && p.commissionRate.Some?
    ensures CostsAreRight(p, tariff, s, LineItems(p, Some(tariff), s))
  {
    CostLines(p, tariff, s);
    CostsFromLines(p, tariff, s, LineItems(p, Some(tariff), s));
  }

  lemma TaxedLines(p: Product, tariff: real, s: Settings)
    requires ValidSettings(s) && Supported(s.taxSystem)
    requires p.price.Some? && p.cost.Some? && p.commissionRate.Some?
    ensures var a := LineItems(p, Some(tariff), s);
      && a.realization == Some(Realization(p.price.value, s.coInvest)) && a.vat == Some(Vat(a.realization.value, s.vat))
      && a.payout.Some?
      && a.incomeTax == Some(IncomeTax(if s.taxSystem.UsnIncome? then a.realization.value - a.vat.value
                                       else a.payout.value - p.cost.value - a.vat.value, s.incomeTax))
  {
  }

  lemma TaxesFromLines(p: Product, s: Settings, a: Amounts)
    requires ValidSettings(s) && p.price.Some? && p.cost.Some? && a.payout.Some?
    requires a.realization == Some(Realization(p.price.value, s.coInvest)) && a.vat == Some(Vat(a.realization.value, s.vat))
    requires a.incomeTax == Some(IncomeTax(if s.taxSystem.UsnIncome? then a.realization.value - a.vat.value
                                           else a.payout.value - p.cost.value - a.vat.value, s.incomeTax))
    ensures TaxesAreRight(p, s, a)
  {
    VatIsIncluded(a.realization.value, s.vat);
    TaxSign(if s.taxSystem.UsnIncome? then a.realization.value - a.vat.value else a.payout.value - p.cost.value - a.vat.value, s.incomeTax);
  }

  lemma TaxesMean(p: Product, tariff: real, s: Settings)
    requires ValidSettings(s) && Supported(s.taxSystem)
    requires p.price.Some? && p.cost.Some? && p.commissionRate.Some?
    ensures TaxesAreRight(p, s, LineItems(p, Some(tariff), s))
  {
    TaxedLines(p, tariff, s);
    TaxesFromLines(p, s, LineItems(p, Some(tariff), s));
  }

  lemma ReturnsMean(p: Product, tariff: real, s: Settings)
    requires ValidSettings(s) && Supported(s.taxSystem)
    requires p.price.Some? && p.cost.Some? && p.commissionRate.Some?
    ensures ReturnsAreRight(p, LineItems(p, Some(tariff), s))
  {
  }

  /** The lines of a complete calculation against what tariffs, rates and taxes say. */
  lemma LinesMean(p: Product, tariff: real, s: Settings)
    requires ValidSettings(s) && Supported(s.taxSystem)
    requires p.price.Some? && p.cost.Some? && p.commissionRate.Some?
    ensures var a := LineItems(p, Some(tariff), s);
      CostsAreRight(p, tariff, s, a) && TaxesAreRight(p, s, a) && ReturnsAreRight(p, a)
  {
    CostsMean(p, tariff, s);
    TaxesMean(p, tariff, s);
    ReturnsMean(p, tariff, s);
  }
}
