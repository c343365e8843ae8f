/** The what-if simulator: the selected material with the simulated profit
    center and valuation class merged in, and the chart data derived from it. */
module WhatIf {
  import opened JsValues
  import opened MasterData
  import opened Sankey

  /** `{ ...selected, profitCenter: simPc || selected.profitCenter,
      valuationClass: simVc || selected.valuationClass }`: a copy of the
      record in which each simulated value that is not the empty string
      replaces the stored one. */
  function ApplyOverrides(selected: Material, simProfitCenter: string, simValuationClass: string): (r: Material)
    ensures simProfitCenter == "" ==> r.profitCenter == selected.profitCenter
    ensures simProfitCenter != "" ==> r.profitCenter == simProfitCenter
    ensures simValuationClass == "" ==> r.valuationClass == selected.valuationClass
    ensures simValuationClass != "" ==> r.valuationClass == simValuationClass
    ensures r.(profitCenter := selected.profitCenter, valuationClass := selected.valuationClass) == selected
  {
    selected.(profitCenter := OrElse(simProfitCenter, selected.profitCenter),
              valuationClass := OrElse(simValuationClass, selected.valuationClass))
  }

  /** The chart data the component computes on each render. */
  function SimulatedChart(selected: Material, simProfitCenter: string, simValuationClass: string): Result<SankeyData>
  {
    Derive(ApplyOverrides(selected, simProfitCenter, simValuationClass))
  }

  lemma EmptyOverridesKeepRecord(m: Material)
    ensures ApplyOverrides(m, "", "") == m
  {
  }

  lemma OverridesIdempotent(m: Material, pc: string, vc: string)
    ensures ApplyOverrides(ApplyOverrides(m, pc, vc), pc, vc) == ApplyOverrides(m, pc, vc)
  {
  }

  /** Over the fixture records, the simulated chart exists exactly when the
      simulated valuation class is left empty or is a key of the GL table;
      anything else, a partly typed class included, makes the lookup fail. */
  lemma SimulatedChartDefinedIff(i: nat, pc: string, vc: string)
    requires i < |Materials|
    ensures SimulatedChart(Materials[i], pc, vc).Ok? <==> vc == "" || vc in GlMapping
    ensures SimulatedChart(Materials[i], pc, vc).Err? ==>
      SimulatedChart(Materials[i], pc, vc).error == UnmappedValuationClass(vc)
  {
    FixturesConsistent();
    DefinedIff(ApplyOverrides(Materials[i], pc, vc));
  }

  /** Simulating another valuation class relabels the Inventory and COGS nodes
      and nothing else: the node count, the other labels and every link stay. */
  lemma ValuationClassOverrideOnlyRelabels(m: Material, pc: string, vc: string)
    requires m.valuationClass in GlMapping
    requires vc == "" || vc in GlMapping
    ensures var before := SimulatedChart(m, pc, "");
      var after := SimulatedChart(m, pc, vc);
      && before.Ok? && after.Ok?
      && |after.value.nodes| == |before.value.nodes|
      && after.value.links == before.value.links
      && (forall k | 0 <= k < |before.value.nodes| && k != 2 && k != 3 ::
            after.value.nodes[k] == before.value.nodes[k])
      && (vc != "" ==>
            && after.value.nodes[2].name == "Inventory: " + GlMapping[vc].inventory
            && after.value.nodes[3].name == "COGS: " + GlMapping[vc].cogs)
  {
  }

  /** Simulating a valuation class the GL table does not have, such as "9999",
      yields no chart for the initially selected material. */
  lemma UnknownSimulatedClassFails()
    ensures SimulatedChart(Materials[0], "", "9999") == Err(UnmappedValuationClass("9999"))
  {
  }

  /** Steel Rod re-valued from class 7920 to 7960 posts to accounts 300003 and
      500003, with the same weights. */
  lemma SteelRodRevalued()
    ensures var g := SimulatedChart(Materials[0], "", "7960");
      && g.Ok?
      && g.value.nodes == [Node("M-10001"), Node("PC1000"), Node("Inventory: 300003"),
                           Node("COGS: 500003"), Node("Revenue: 400010")]
      && g.value.links == [Link(0, 1, 10), Link(1, 2, 6), Link(1, 3, 4), Link(1, 4, 8)]
  {
    assert InventoryLabel("300003") == "Inventory: 300003";
    assert CogsLabel("500003") == "COGS: 500003";
    assert RevenueLabel("MG01") == "Revenue: 400010";
  }

  /** The simulated valuation class typed one character at a time towards
      "7960": every proper, non-empty prefix is a class the GL table lacks, so
      each keystroke before the last finds no Inventory/COGS pair. The
      component as written derives its chart during render, so the first
      keystroke, "7", already throws and unmounts it; the later states are
      reached only when the class is pasted in whole, or in `ChartPanel`. */
  lemma TypingClassHitsUnmappedPrefixes()
    ensures forall k | 1 <= k < |"7960"| ::
      SimulatedChart(Materials[0], "", "7960"[..k]) == Err(UnmappedValuationClass("7960"[..k]))
    ensures SimulatedChart(Materials[0], "", "7960").Ok?
  {
    assert "7960"[..1] == "7" && "7960"[..2] == "79" && "7960"[..3] == "796";
  }

  /** What the chart panel shows: the flow graph, or a notice that the flow of
      the given valuation class cannot be determined. */
  datatype Panel = Chart(data: SankeyData) | NoFlow(valuationClass: string)

  /** The chart panel for any simulator input: an unmapped valuation class
      yields the notice instead of an exception, and the graph otherwise. */
  function ChartPanel(selected: Material, simProfitCenter: string, simValuationClass: string): (p: Panel)
    ensures var merged := ApplyOverrides(selected, simProfitCenter, simValuationClass);
      && (p.Chart? <==> merged.valuationClass in GlMapping)
      && (p.Chart? ==> Ok(p.data) == Derive(merged))
      && (p.NoFlow? ==> p.valuationClass == merged.valuationClass)
  {
    match SimulatedChart(selected, simProfitCenter, simValuationClass)
    case Ok(g) => Chart(g)
    case Err(UnmappedValuationClass(vc)) => NoFlow(vc)
  }

  /** Typing "7960" into the simulator: each partial class shows the notice for
      that partial class, and the completed class shows the re-valued chart. */
  lemma TypingClassShowsNoticeThenChart()
    ensures forall k | 1 <= k < |"7960"| ::
      ChartPanel(Materials[0], "", "7960"[..k]) == NoFlow("7960"[..k])
    ensures ChartPanel(Materials[0], "", "7960").Chart?
  {
    TypingClassHitsUnmappedPrefixes();
  }
}
