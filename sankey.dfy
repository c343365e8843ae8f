/** The GL-flow derivation: from one material record to the node and link lists
    of a Sankey chart (material -> profit center -> Inventory, COGS and,
    for a revenue-generating material, Revenue). */
module Sankey {
  import opened JsValues
  import opened MasterData

  datatype Node = Node(name: string)

  /** A flow of weight `value` from node index `source` to node index `target`. */
  datatype Link = Link(source: nat, target: nat, value: nat)

  datatype SankeyData = SankeyData(nodes: seq<Node>, links: seq<Link>)

  /** A valuation class with no entry in the GL table: reading `.inventory` of
      `undefined` throws, so no chart data is produced. */
  datatype DeriveError = UnmappedValuationClass(valuationClass: string)

  datatype Result<T> = Ok(value: T) | Err(error: DeriveError)

  /** The links every chart starts with: 10 from the material into its profit
      center, 6 on to Inventory, 4 on to COGS. */
  const BaseLinks: seq<Link> := [Link(0, 1, 10), Link(1, 2, 6), Link(1, 3, 4)]

  /** The link added for a revenue-generating material. */
  const RevenueLink: Link := Link(1, 4, 8)

  function InventoryLabel(gl: string): string { "Inventory: " + gl }
  function CogsLabel(gl: string): string { "COGS: " + gl }
  function RevenueLabel(group: string): string { "Revenue: " + Interpolate(RevenueLookup(group)) }

  /** The chart data derived for `m`, as a value. */
  function Derive(m: Material): Result<SankeyData>
  {
    if m.valuationClass !in GlMapping then
      Err(UnmappedValuationClass(m.valuationClass))
    else
      var gl := GlMapping[m.valuationClass];
      var nodes := [Node(m.id), Node(m.profitCenter), Node(InventoryLabel(gl.inventory)), Node(CogsLabel(gl.cogs))];
      Ok(SankeyData(
        if m.revenue then nodes + [Node(RevenueLabel(m.materialGroup))] else nodes,
        if m.revenue then BaseLinks + [RevenueLink] else BaseLinks))
  }

  /** Builds the node and link lists as the chart code does: four nodes and three
      links, then one more of each when the material generates revenue. */
  method GenerateSankeyData(material: Material) returns (r: Result<SankeyData>)
    ensures r == Derive(material)
  {
    if material.valuationClass !in GlMapping {
      return Err(UnmappedValuationClass(material.valuationClass));
    }
    var gl := GlMapping[material.valuationClass];
    var nodes := [Node(material.id), Node(material.profitCenter),
                  Node(InventoryLabel(gl.inventory)), Node(CogsLabel(gl.cogs))];
    if material.revenue {
      nodes := nodes + [Node(RevenueLabel(material.materialGroup))];
    }
    var links := BaseLinks;
    if material.revenue {
      links := links + [RevenueLink];
    }
    r := Ok(SankeyData(nodes, links));
  }

  /** The graph shape the chart relies on, independent of how it was built:
      every link joins two existing nodes, runs forward (so the graph is
      acyclic) and carries a positive weight. */
  predicate WellFormed(g: SankeyData)
  {
    forall k | 0 <= k < |g.links| ::
      g.links[k].source < g.links[k].target < |g.nodes| && g.links[k].value > 0
  }

  lemma DefinedIff(m: Material)
    ensures Derive(m).Ok? <==> m.valuationClass in GlMapping
    ensures Derive(m).Err? ==> Derive(m).error == UnmappedValuationClass(m.valuationClass)
  {
  }

  lemma NodeCount(m: Material)
    requires m.valuationClass in GlMapping
    ensures |Derive(m).value.nodes| == if m.revenue then 5 else 4
  {
  }

  lemma LinkList(m: Material)
    requires m.valuationClass in GlMapping
    ensures var links := Derive(m).value.links;
      && links[..3] == [Link(0, 1, 10), Link(1, 2, 6), Link(1, 3, 4)]
      && (|links| == 4 <==> m.revenue)
      && (|links| == 3 <==> !m.revenue)
      && (m.revenue ==> links[3] == Link(1, 4, 8))
  {
  }

  lemma NodeLabels(m: Material)
    requires m.valuationClass in GlMapping
    ensures var nodes := Derive(m).value.nodes;
      && nodes[0].name == m.id
      && nodes[1].name == m.profitCenter
      && nodes[2].name == "Inventory: " + GlMapping[m.valuationClass].inventory
      && nodes[3].name == "COGS: " + GlMapping[m.valuationClass].cogs
      && (m.revenue ==> nodes[4].name == "Revenue: " + Interpolate(RevenueLookup(m.materialGroup)))
  {
  }

  lemma DeriveWellFormed(m: Material)
    requires m.valuationClass in GlMapping
    ensures WellFormed(Derive(m).value)
  {
  }

  /** The links that end at node `n`, in order. */
  function Incoming(links: seq<Link>, n: nat): seq<Link>
  {
    if links == [] then []
    else (if links[0].target == n then [links[0]] else []) + Incoming(links[1..], n)
  }

  /** The links that start at node `n`, in order. */
  function Outgoing(links: seq<Link>, n: nat): seq<Link>
  {
    if links == [] then []
    else (if links[0].source == n then [links[0]] else []) + Outgoing(links[1..], n)
  }

  /** The summed weight of some links. */
  function TotalValue(links: seq<Link>): nat
  {
    if links == [] then 0 else links[0].value + TotalValue(links[1..])
  }

  lemma {:induction false} IncomingAppend(a: seq<Link>, b: seq<Link>, n: nat)
    ensures Incoming(a + b, n) == Incoming(a, n) + Incoming(b, n)
  {
    if a == [] {
      assert a + b == b;
    } else {
      assert (a + b)[1..] == a[1..] + b;
      IncomingAppend(a[1..], b, n);
    }
  }

  lemma {:induction false} OutgoingAppend(a: seq<Link>, b: seq<Link>, n: nat)
    ensures Outgoing(a + b, n) == Outgoing(a, n) + Outgoing(b, n)
  {
    if a == [] {
      assert a + b == b;
    } else {
      assert (a + b)[1..] == a[1..] + b;
      OutgoingAppend(a[1..], b, n);
    }
  }

  lemma {:induction false} TotalValueAppend(a: seq<Link>, b: seq<Link>)
    ensures TotalValue(a + b) == TotalValue(a) + TotalValue(b)
  {
    if a == [] {
      assert a + b == b;
    } else {
      assert (a + b)[1..] == a[1..] + b;
      TotalValueAppend(a[1..], b);
    }
  }

  /** The chart's topology: the material node is the only source, the profit
      center is the only branch point, and every account node is a sink fed
      by exactly one link. */
  lemma Degrees(m: Material)
    requires m.valuationClass in GlMapping
    ensures var g := Derive(m).value;
      && |Incoming(g.links, 0)| == 0 && |Outgoing(g.links, 0)| == 1
      && |Incoming(g.links, 1)| == 1 && |Outgoing(g.links, 1)| == (if m.revenue then 3 else 2)
      && forall n | 2 <= n < |g.nodes| :: |Incoming(g.links, n)| == 1 && |Outgoing(g.links, n)| == 0
  {
  }

  /** The weights through the profit center: 10 flows in; 6 + 4 = 10 flows out
      to Inventory and COGS, and with the revenue link 18 flows out in all. */
  lemma ProfitCenterFlow(m: Material)
    requires m.valuationClass in GlMapping
    ensures var g := Derive(m).value;
      && TotalValue(Incoming(g.links, 1)) == 10
      && TotalValue(Outgoing(g.links, 1)) == (if m.revenue then 18 else 10)
  {
    assert Incoming(BaseLinks, 1) == [Link(0, 1, 10)];
    assert Outgoing(BaseLinks, 1) == [Link(1, 2, 6), Link(1, 3, 4)];
    if m.revenue {
      IncomingAppend(BaseLinks, [RevenueLink], 1);
      OutgoingAppend(BaseLinks, [RevenueLink], 1);
      TotalValueAppend(Outgoing(BaseLinks, 1), Outgoing([RevenueLink], 1));
    }
  }

  /** What the description and plant of a record are: display data only. */
  lemma DeriveIgnoresDescriptionAndPlant(m: Material, description: string, plant: string)
    ensures Derive(m.(description := description, plant := plant)) == Derive(m)
  {
  }

  /** The fifth node follows the record's `revenue` flag, not the revenue
      table: a flagged record whose group maps to `null` is labelled
      "Revenue: null", one whose group is missing "Revenue: undefined", and an
      unflagged record gets no revenue node even when its group has an
      account. */
  lemma RevenueFlagDecides(m: Material)
    requires m.valuationClass in GlMapping
    ensures var g := Derive(m).value;
      m.revenue && m.materialGroup in RevenueMapping && RevenueMapping[m.materialGroup].None? ==>
        g.nodes[4].name == "Revenue: null"
    ensures var g := Derive(m).value;
      m.revenue && m.materialGroup !in RevenueMapping ==> g.nodes[4].name == "Revenue: undefined"
    ensures var g := Derive(m).value;
      !m.revenue ==> |g.nodes| == 4 && |g.links| == 3
  {
    NodeLabels(m);
    LinkList(m);
  }

  /** Every fixture record yields a chart, and a revenue-generating one names
      its group's revenue account, so no stored record is labelled
      "Revenue: null" or "Revenue: undefined". */
  lemma FixtureCharts(i: nat)
    requires i < |Materials|
    ensures var m := Materials[i];
      var g := Derive(m);
      && g.Ok?
      && |g.value.nodes| == (if RevenueMapping[m.materialGroup].Some? then 5 else 4)
      && (m.revenue ==> RevenueLookup(m.materialGroup) == JsString(RevenueMapping[m.materialGroup].value))
      && (m.revenue ==> g.value.nodes[4].name == "Revenue: " + RevenueMapping[m.materialGroup].value)
  {
    FixturesConsistent();
  }
}
