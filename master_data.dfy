/** The constant fixture tables of the visualizer: the material master records,
    the valuation-class to Inventory/COGS account table and the material-group
    to Revenue account table. */
module MasterData {
  import opened JsValues

  /** A material master record. `revenue` says whether the material generates revenue. */
  datatype Material = Material(
    id: string,
    description: string,
    plant: string,
    profitCenter: string,
    valuationClass: string,
    materialGroup: string,
    revenue: bool)

  /** The Inventory and COGS general-ledger accounts of one valuation class. */
  datatype GlPair = GlPair(inventory: string, cogs: string)

  const Materials: seq<Material> := [
    Material("M-10001", "Steel Rod", "P001", "PC1000", "7920", "MG01", true),
    Material("M-20002", "Plastic Cap", "P002", "PC2000", "7940", "MG02", false),
    Material("M-30003", "Aluminum Pipe", "P003", "PC3000", "7960", "MG03", true)
  ]

  const GlMapping: map<string, GlPair> := map[
    "7920" := GlPair("300001", "500001"),
    "7940" := GlPair("300002", "500002"),
    "7960" := GlPair("300003", "500003")
  ]

  /** `None` is the table's literal `null`: the group has no revenue account. */
  const RevenueMapping: map<string, Option<string>> := map[
    "MG01" := Some("400010"),
    "MG02" := None,
    "MG03" := Some("400030")
  ]

  datatype Option<T> = None | Some(value: T)

  /** `revenueMapping[group]`: a missing key reads as `undefined`. */
  function RevenueLookup(group: string): JsValue
  {
    if group !in RevenueMapping then JsUndefined
    else match RevenueMapping[group]
      case Some(gl) => JsString(gl)
      case None => JsNull
  }

  /** The consistency the fixture data keeps: every record's valuation class has
      an Inventory/COGS pair, every material group is in the revenue table, and a
      record is flagged revenue-generating exactly when its group has a
      (non-null) revenue account. */
  predicate ConsistentRecord(m: Material)
  {
    && m.valuationClass in GlMapping
    && m.materialGroup in RevenueMapping
    && (m.revenue <==> RevenueMapping[m.materialGroup].Some?)
  }

  lemma FixturesConsistent()
    ensures forall i | 0 <= i < |Materials| :: ConsistentRecord(Materials[i])
  {
  }

  lemma FixtureIdsDistinct()
    ensures forall i, j | 0 <= i < j < |Materials| :: Materials[i].id != Materials[j].id
  {
  }
}
