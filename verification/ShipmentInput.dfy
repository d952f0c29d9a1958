/** From the working plan to shipment candidates (backend/shipment/working_input.py), and what
    the working plan guarantees along the way. */
module ShipmentInput {
  import opened Wrappers
  import opened Sequences
  import opened Sums
  import W = WorkingPlan
  import opened Candidates
  import opened CandidateBudget
  import opened CandidateBuild

  /** `build_shipment_input`, line by line; `oversized` holds the rows whose zones are for bulky goods. */
  function InputOf(w: W.WorkingLine, oversized: set<W.Key>): InputLine {
    InputLine(w.line.key.sku, w.line.key.cluster, w.working, w.line.pack, w.line.unitVolume, w.totalVolume,
              w.line.rank, w.line.zoned, w.line.key in oversized, w.status.Blocked?)
  }

  function InputLines(ws: seq<W.WorkingLine>, oversized: set<W.Key>): (ls: seq<InputLine>)
    ensures |ls| == |ws| && forall i :: 0 <= i < |ws| ==> ls[i] == InputOf(ws[i], oversized)
  {
    seq(|ws|, i requires 0 <= i < |ws| => InputOf(ws[i], oversized))
  }

  lemma VolumeCommutes(q: nat, v: real)
    ensures q as real * v == v * q as real
  {
  }

  lemma PlanLineIsPacked(l: W.Line, c: W.Choices, working: Option<nat>, total: nat, oversized: set<W.Key>)
    requires W.ValidLine(l) && (l.key in c.selected ==> l.key in c.ozon && l.pack.Some?)
    ensures Packed(InputOf(W.WorkingLineOf(l, c, working, W.Exceeds(total, l.stock)), oversized))
  {
    W.BlockedMeansUnshippable(l, c, working, total);
    if working.Some? && l.unitVolume.Some? {
      VolumeCommutes(working.value, l.unitVolume.value);
    }
  }

  /** Lines of a working plan meet what `_assignment` takes for granted. */
  lemma PlanLinesArePacked(lines: seq<W.Line>, c: W.Choices, ws: seq<W.WorkingLine>, oversized: set<W.Key>)
    requires W.ValidInput(lines, c) && W.IsWorkingPlan(lines, c, ws)
    ensures forall l <- InputLines(ws, oversized) :: Packed(l)
  {
    W.LinesAreReady(lines, c);
    forall i | 0 <= i < |ws| ensures Packed(InputOf(ws[i], oversized)) {
      assert lines[i] in lines && W.LineReady(c, lines[i]);
      PlanLineIsPacked(lines[i], c, W.Working(lines, c, lines[i]), W.Total(lines, c, lines[i].key.sku), oversized);
    }
  }

  lemma {:induction false} PositiveAmong(ls: seq<InputLine>, selected: set<string>)
    ensures multiset(Positive(ls, selected)) <= multiset(ls)
  {
    if |ls| > 0 {
      HeadTail(ls);
      PositiveAmong(ls[1..], selected);
    }
  }

  /** Working lines carry the given plan lines and their working quantities. */
  ghost predicate Carries(some: seq<W.Line>, lines: seq<W.Line>, c: W.Choices, ws: seq<W.WorkingLine>)
    requires W.ValidInput(lines, c)
  {
    |ws| == |some| && forall i :: 0 <= i < |some| ==> ws[i].line == some[i] && ws[i].working == W.Working(lines, c, some[i])
  }

  lemma {:induction false} InputTotals(some: seq<W.Line>, lines: seq<W.Line>, c: W.Choices, ws: seq<W.WorkingLine>, oversized: set<W.Key>, sku: string)
    requires W.ValidInput(lines, c) && Carries(some, lines, c, ws)
    ensures SumBy(InputLines(ws, oversized), LineWeight(sku, None)) == W.SumWorking(W.LinesOf(some, sku), lines, c)
  {
    if |some| > 0 {
      InputTotals(some[1..], lines, c, ws[1..], oversized, sku);
      assert InputLines(ws, oversized)[1..] == InputLines(ws[1..], oversized);
      var rest := W.LinesOf(some[1..], sku);
      assert some[0].key.sku == sku ==> ([some[0]] + rest)[1..] == rest;
    }
  }

  /** In an unblocked scope the units of a SKU stay within its known stock. */
  lemma ScopeWithinStock(lines: seq<W.Line>, c: W.Choices, ws: seq<W.WorkingLine>, oversized: set<W.Key>, selected: set<string>, i: nat)
    requires W.ValidInput(lines, c) && W.IsWorkingPlan(lines, c, ws) && i < |lines|
    requires lines[i].stock.Some? && !ws[i].status.Blocked?
    ensures SumBy(Positive(InputLines(ws, oversized), selected), LineWeight(lines[i].key.sku, None)) <= lines[i].stock.value
  {
    var l := lines[i];
    W.LinesAreReady(lines, c);
    assert l in lines && W.LineReady(c, l);
    W.BlockedMeansUnshippable(l, c, W.Working(lines, c, l), W.Total(lines, c, l.key.sku));
    var input := InputLines(ws, oversized);
    PositiveAmong(input, selected);
    SumAmong(Positive(input, selected), input, LineWeight(l.key.sku, None));
    InputTotals(lines, lines, c, ws, oversized, l.key.sku);
  }

  lemma LineOfScope(lines: seq<W.Line>, c: W.Choices, ws: seq<W.WorkingLine>, oversized: set<W.Key>, selected: set<string>, l: InputLine)
    returns (j: nat)
    requires W.ValidInput(lines, c) && W.IsWorkingPlan(lines, c, ws) && l in Positive(InputLines(ws, oversized), selected)
    ensures j < |lines| && |ws| == |lines|
    ensures ws[j].line == lines[j] && lines[j].key.sku == l.sku && l.blocked == ws[j].status.Blocked?
  {
    var input := InputLines(ws, oversized);
    j :| 0 <= j < |input| && input[j] == l;
    W.FlagsAreRight(lines, c, ws, j);
  }

  /** A SKU of the scope has an unblocked line in the plan, so the bound holds for every SKU. */
  lemma EverySkuWithinStock(lines: seq<W.Line>, c: W.Choices, ws: seq<W.WorkingLine>, oversized: set<W.Key>, selected: set<string>, i: nat)
    requires W.ValidInput(lines, c) && W.IsWorkingPlan(lines, c, ws) && i < |lines| && lines[i].stock.Some?
    requires forall l <- Positive(InputLines(ws, oversized), selected) :: !l.blocked
    ensures SumBy(Positive(InputLines(ws, oversized), selected), LineWeight(lines[i].key.sku, None)) <= lines[i].stock.value
  {
    var scope, sku := Positive(InputLines(ws, oversized), selected), lines[i].key.sku;
    if l :| l in scope && l.sku == sku {
      var j := LineOfScope(lines, c, ws, oversized, selected, l);
      assert lines[j] in lines && lines[i] in lines;
      ScopeWithinStock(lines, c, ws, oversized, selected, j);
    } else {
      SumZero(scope, LineWeight(sku, None));
    }
  }

  /** From the working plan to the selected candidates: for one method and one handoff point the
      candidates together never ship more of a SKU than its known seller stock. */
  lemma ShippedWithinStock(lines: seq<W.Line>, c: W.Choices, ws: seq<W.WorkingLine>, oversized: set<W.Key>,
                           s: Scenario, warehouses: seq<Warehouse>, store: map<nat, bool>, max: nat,
                           m: Method, to: Option<nat>, i: nat)
    requires W.ValidInput(lines, c) && W.IsWorkingPlan(lines, c, ws) && ValidScenario(s)
    requires i < |lines| && lines[i].stock.Some?
    requires SelectScope(InputLines(ws, oversized), s.selected).Ok?
    ensures var scope := Positive(InputLines(ws, oversized), s.selected);
      && ValidScope(scope)
      && SumBy(Select(Viable(FullLists(scope, s, s.methods, warehouses, store)), max), ShippedBy(m, to, lines[i].key.sku, None))
           <= lines[i].stock.value
  {
    PlanLinesArePacked(lines, c, ws, oversized);
    var scope := SelectScope(InputLines(ws, oversized), s.selected).value;
    EverySkuWithinStock(lines, c, ws, oversized, s.selected, i);
    NothingIsShippedTwice(scope, s, warehouses, store, max, m, to, lines[i].key.sku, None);
  }
}
