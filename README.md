# SAP Material Impact Visualizer — GL-flow derivation

A Dafny model of the logic behind the visualizer's "GL Account Flow" chart.
For one material master record, the app builds a small Sankey graph. Value
flows from the material into its profit center. From there it flows to the
Inventory and COGS general-ledger accounts for the material's valuation class.
A revenue-generating material also gets a flow to the Revenue account for its
material group. The model covers:

- the three constant fixture tables: materials, valuation class to
  Inventory/COGS pair, and material group to Revenue account or `null`
  (`master_data.dfy`);
- the chart-data derivation `generateSankeyData`. `Sankey.Derive` states it as
  a value. `Sankey.GenerateSankeyData` builds the node and link lists step by
  step, the way the code does, and is proved equal to it (`sankey.dfy`);
- the what-if merge, which applies the simulated profit center and valuation
  class to the selected record, and the chart derived from the result
  (`what_if.dfy`);
- the few JavaScript value semantics these need (`js_values.dfy`). A missing
  key reads as `undefined`. A template literal prints `null` and `undefined`
  as those words. `a || b` on strings falls back only on `""`.

Reading `.inventory` of the `undefined` that an unknown valuation class looks
up throws a TypeError. The model returns this as
`Err(UnmappedValuationClass(vc))` instead of excluding such inputs.

The revenue node and link are added exactly when the record's `revenue` flag
is set (src/App.jsx:55, 65), whatever the revenue table holds.
`Sankey.RevenueFlagDecides` shows that a flagged record whose group maps to
`null` gets a node labelled `Revenue: null`.

## Model

| member | source | states |
|---|---|---|
| `MasterData.RevenueLookup` | src/App.jsx:41-45 | `revenueMapping[group]` as a value: the account, the table's `null`, or `undefined` for a missing group; its consequences are proved by `FixtureCharts` and `RevenueFlagDecides` |
| `MasterData.FixturesConsistent` | src/App.jsx:5-45 | every fixture record's valuation class is in the GL table and its material group is in the revenue table; its `revenue` flag is true exactly when the group maps to a non-null account |
| `MasterData.FixtureIdsDistinct` | src/App.jsx:5-33 | the fixture records have pairwise distinct material ids |
| `Sankey.GenerateSankeyData` | src/App.jsx:47-70 | building four nodes and three links, then pushing the revenue node and link under the same `revenue` guard, gives exactly the chart data `Derive` specifies, or the error for an unmapped valuation class |
| `Sankey.DefinedIff` | src/App.jsx:51-52 | a chart is derived if and only if the valuation class is a key of the GL table; otherwise the error names that valuation class |
| `Sankey.NodeCount` | src/App.jsx:48-57 | the chart has 5 nodes when the material generates revenue and 4 otherwise |
| `Sankey.LinkList` | src/App.jsx:59-67 | the links begin with exactly (0→1, 10), (1→2, 6), (1→3, 4); there are 4 links if and only if the material generates revenue, and then the fourth is (1→4, 8) |
| `Sankey.NodeLabels` | src/App.jsx:48-56 | in order, the node labels are the material id, the profit center, `Inventory: ` plus the class's inventory account, `COGS: ` plus its COGS account, and, when present, `Revenue: ` plus the interpolated revenue lookup |
| `Sankey.DeriveWellFormed` | src/App.jsx:55-67 | every link's source and target index an existing node; every link runs forward, so the graph is acyclic; every weight is positive |
| `Sankey.Degrees` | src/App.jsx:59-67 | the material node has no incoming link and one outgoing link; the profit center has one incoming link and 2 outgoing links, or 3 for a revenue-generating material; every account node has exactly one incoming link and none outgoing |
| `Sankey.ProfitCenterFlow` | src/App.jsx:59-67 | a total weight of 10 flows into the profit center; 10 flows out of it, or 18 when the revenue link is present |
| `Sankey.DeriveIgnoresDescriptionAndPlant` | src/App.jsx:47-70 | a record's description and plant do not affect the chart |
| `Sankey.RevenueFlagDecides` | src/App.jsx:55-56 | for every record with a mapped valuation class, the revenue node follows the `revenue` flag and not the table: a flagged record whose group maps to `null` gets `Revenue: null`, a flagged record whose group is missing gets `Revenue: undefined`, and an unflagged record gets 4 nodes and 3 links whatever its group |
| `Sankey.FixtureCharts` | src/App.jsx:5-57 | every fixture record yields a chart; it has 5 nodes exactly when the group has a revenue account; a revenue-generating record's fifth label names that account, so no stored record shows `Revenue: null` |
| `WhatIf.ApplyOverrides` | src/App.jsx:77-81 | an empty simulated profit center or valuation class keeps the stored value; a non-empty one replaces it; every other field is unchanged |
| `WhatIf.EmptyOverridesKeepRecord` | src/App.jsx:77-81 | with both simulated fields empty, the merge gives a record equal, field for field, to the selected one |
| `WhatIf.OverridesIdempotent` | src/App.jsx:77-81 | merging the same simulated values a second time changes nothing |
| `WhatIf.SimulatedChartDefinedIff` | src/App.jsx:77-83 | for every fixture record, the simulated chart exists if and only if the simulated valuation class is empty or a key of the GL table; otherwise the error names the simulated class |
| `WhatIf.ValuationClassOverrideOnlyRelabels` | src/App.jsx:47-83 | simulating a valuation class keeps the node count, every link and the labels of nodes 0, 1 and 4; nodes 2 and 3 take the simulated class's Inventory and COGS accounts |
| `WhatIf.UnknownSimulatedClassFails` | src/App.jsx:77-83 | simulating class `9999` on the initially selected material yields no chart, only the unmapped-class error |
| `WhatIf.SteelRodRevalued` | src/App.jsx:77-83 | Steel Rod re-valued to class 7960 gives the nodes M-10001, PC1000, `Inventory: 300003`, `COGS: 500003`, `Revenue: 400010` and the links 10/6/4/8 |
| `JsValues.Interpolate` | src/App.jsx:51-56 | the text a value contributes to a template literal; its consequences for the node labels are proved by `NodeLabels` and `RevenueFlagDecides` |
| `JsValues.OrElse` | src/App.jsx:79-80 | JavaScript's logical or on two strings; its consequences for the merge are proved by `ApplyOverrides` and `EmptyOverridesKeepRecord` |
| `Sankey.Derive` | src/App.jsx:47-70 | the chart data of a record, as a value; its properties are proved by `DefinedIff`, `NodeCount`, `LinkList`, `NodeLabels`, `DeriveWellFormed`, `Degrees` and `ProfitCenterFlow` |
| `WhatIf.SimulatedChart` | src/App.jsx:83 | the chart of the merged record; its properties are proved by `SimulatedChartDefinedIff`, `ValuationClassOverrideOnlyRelabels` and `TypingClassHitsUnmappedPrefixes` |
| `WhatIf.TypingClassHitsUnmappedPrefixes` | src/App.jsx:125-131 | the partial classes `7`, `79` and `796` on the way to `7960` have no GL pair, so the lookup fails for each; `7960` gives a chart. As written, the first keystroke already throws and unmounts the component, so the later states arise only when the class is pasted in whole |
| `WhatIf.ChartPanel` | src/App.jsx:77-83 | (corrected behaviour; the source throws at line 51) for any simulator input, the panel shows the chart exactly when the merged class is in the GL table, and that chart is the derived one; otherwise it shows a notice naming the merged class |
| `WhatIf.TypingClassShowsNoticeThenChart` | src/App.jsx:125-131 | with the panel, each partial class of `7960` shows the notice for that class, and the completed class shows the chart |

## Left out

- The React component (src/App.jsx:72-76, 85-148) is not modelled: its state hooks, the `<select>` and `<input>` handlers and the JSX layout are UI plumbing. This includes the lookup of the chosen material by id in the select handler. `MasterData.FixtureIdsDistinct` records the fact that lookup relies on.
- The `recharts` `Sankey` and `ResponsiveContainer` rendering is not modelled. It is a foreign library and presentation only.
- JavaScript prototype-chain keys are not modelled. A valuation class or material group such as `toString` or `__proto__` would find an inherited property rather than `undefined`. The model treats every key that is not in a table as missing.
- Truthiness of a non-boolean `revenue` field is not modelled. Every record in the code carries a boolean, and the model types the field as `bool`.
- The exception for an unmapped valuation class is modelled as an error value. What React does after the throw, which is unmounting the component, is not modelled.

## Findings

| source | as written | input that shows it | evidently intended | confidence | as-written member | corrected member |
|---|---|---|---|---|---|---|
| src/App.jsx:51 | the chart is derived during every render, and the valuation class input (src/App.jsx:131) re-renders on each keystroke; an unmapped class makes `glMapping[...]` `undefined`, so `.inventory` throws, and there is no error boundary to catch it | typing `7960` into "Change Valuation Class" passes through `7`, which has no GL entry | the input's placeholder "e.g., 7960" (src/App.jsx:128) invites typing a class, which can only pass through `7`, `79` and `796`; those intermediate inputs should show that no flow can be derived, and the chart should appear once the class is complete | not executed | `WhatIf.TypingClassHitsUnmappedPrefixes` | `WhatIf.ChartPanel` |
