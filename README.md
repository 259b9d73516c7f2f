# Telemetry dashboard front end: throttling, map geometry and change detection

This project models the decision and arithmetic logic inside four React components of the Substrate telemetry front end. It is written in Dafny. The components are the chain selector bar (`Chains`), the world map (`Map`), the chain header (`Header`) and the transactions-in-queue list column (`TxsColumn`). Browser inputs are parameters:

- the clock (`performance.now()`) is an integer `now` in milliseconds;
- the viewport size and the map container's geometry (`clientWidth`, `clientHeight`, bounding-rect `left`) are reals;
- the connection is a log of the chains it was asked to subscribe to.

Files, one module each:

- `common.dfy` (`Common`): the `Maybe` wrapper (`Option`) and the node record (id, optional latitude and longitude, queue length).
- `chains.dfy` (`Chains`): the visible-chain cap (16), the all-chains link, the selected-link class, and the render throttle (1000 ms) with click de-duplication. The throttle is a pure state machine (`GateState`, `Event`, `Apply`, `Run`) with lemmas over whole event traces. Class `ChainsView` holds the component's fields (`props`, `display`, `lastRender`, `clicked` and the subscription log). Its methods are proved against `Apply` and `View`. React replaces the props even when `shouldComponentUpdate` refuses an update, so `ReceiveProps` always stores the new props, and the "previous subscribed" is the last value received. A `setState` from `SetDisplay` reaches the same gate with the props unchanged. That is the `Received(subscribed, now)` case with the current selection, so it renders only once the throttle window has passed.
- `map.dfy` (`Map`): `Math.round` as `Round(x) = (x + 0.5).Floor`. The projector `PixelPosition` uses a fixed vertical offset of 40 and a 2-bit `quarter`. `Markers` selects markers. `Fit` is the viewport sizer. Class `MapView` holds the state (`filter`, `width`, `height`, `top`, `left`) and the methods `OnResize`, `OnFilterChange` and `Render`. In JavaScript, `width / height` is +Infinity when the effective height is 0, which takes the wide branch. A negative height gives a negative ratio, which takes the narrow branch. `WideRatio` models both cases.
- `header.dfy` (`Header`): the five-prop update predicate and the tiles. The tiles read their values from `appState`, not from the five watched props, exactly as `render` does.
- `txs_column.dfy` (`TxsColumn`): the static descriptor, the sort key, and class `TxsCell` with its `data` field. `Deliver` models a stream of deliveries, and lemmas state which deliveries render.

Notes on `frontend/src/components/Map/Map.tsx`:

- The projector adds a constant 40 to `top`.
- The 1350-pixel width floor is applied before the ratio test. So an 800 by 1200 viewport is laid out as 1350 by 1052, which takes the wide branch (`FitNarrowViewportExample`).
- A 2000 by 1000 viewport gives width `Math.round(949.37…) = 949` and left `525.5` (`FitWideViewportExample`). `left` and `top` are not rounded.

## Model

| member | source | states |
|---|---|---|
| `Chains.Visible` | frontend/src/components/Chains.tsx:98-100 | the rendered chains are the first min(16, n) chains, in their original order |
| `Chains.AllChainsHref` | frontend/src/components/Chains.tsx:79-81 | the link is `#all-chains/<subscribed>` when the selection is truthy (set and non-empty), `#all-chains` otherwise |
| `Chains.HrefRoundTrip` | frontend/src/components/Chains.tsx:79-81 | reading the chain back out of the link gives the selection when it is truthy and nothing otherwise |
| `Chains.HrefInjective` | frontend/src/components/Chains.tsx:79-81 | two different truthy selections give different links |
| `Chains.ChainClass` | frontend/src/components/Chains.tsx:136-140 | a link's class is `Chains-chain Chains-chain-selected` iff its genesis hash is the selection, else `Chains-chain` |
| `Chains.View` | frontend/src/components/Chains.tsx:76-131 | render shows one entry per visible chain (key, class, label, node count), the all-chains link, and the sidebar iff `display` |
| `Chains.SelectedEntry` | frontend/src/components/Chains.tsx:133-154 | with distinct genesis hashes, entry i is selected iff its hash is the selection, and then no other entry is |
| `Chains.Allowed` | frontend/src/components/Chains.tsx:70-73 | a changed selection is always allowed; an unchanged one iff strictly more than 1000 ms passed (exactly 1000 is refused) |
| `Chains.Entry` | frontend/src/components/Chains.tsx:133-154 | an entry carries the chain's genesis hash as key, its label and node count, and the selected class iff its hash is the selection |
| `Chains.Apply` | frontend/src/components/Chains.tsx:65-77 | after any event `clicked` is the incoming selection; `lastRender` moves only with a render, to its time; a click on the clicked chain does nothing, any other click subscribes once; an update renders once at its time iff `Allowed` |
| `Chains.Run` | frontend/src/components/Chains.tsx:65-165 | a trace yields at most one output per event, nothing for no events, and only renders when it holds no clicks |
| `Chains.ThrottleSpacing` | frontend/src/components/Chains.tsx:70-77 | while the selection is unchanged, all outputs are renders, each more than 1000 ms after the previous one |
| `Chains.LastRenderTracksRenders` | frontend/src/components/Chains.tsx:62-77 | after any trace `lastRender` is the time of the last render, or the initial time if none ran |
| `Chains.ClickedIsLatest` | frontend/src/components/Chains.tsx:65-68 | after any non-empty trace `clicked` holds the latest event's selection, allowed or not |
| `Chains.RepeatedClicksSubscribeOnce` | frontend/src/components/Chains.tsx:156-165 | n ≥ 1 clicks on one chain subscribe exactly once, or never if it was already clicked |
| `Chains.ThrottleExample` | frontend/src/components/Chains.tsx:70-73 | updates at 1001, 1501, 2101 ms after a render at 0 render at 1001 and 2101; a changed selection 10 ms after a dropped update renders |
| `Chains.ChainsView.constructor` | frontend/src/components/Chains.tsx:54-63 | the sidebar starts closed, `lastRender` is the creation time, nothing is clicked or subscribed |
| `Chains.ChainsView.ShouldComponentUpdate` | frontend/src/components/Chains.tsx:65-74 | sets `clicked` to the incoming selection and returns `Allowed` of the last received selection |
| `Chains.ChainsView.Render` | frontend/src/components/Chains.tsx:76-81 | stamps `lastRender` with the render time and returns `View` |
| `Chains.ChainsView.ReceiveProps` | frontend/src/components/Chains.tsx:65-77 | stores the new props regardless, moves the gate state as `Apply` does, and renders iff allowed |
| `Chains.ChainsView.Subscribe` | frontend/src/components/Chains.tsx:156-165 | a click on the clicked chain changes nothing; otherwise `clicked` becomes it and one subscribe is logged |
| `Chains.ChainsView.SetDisplay` | frontend/src/components/Chains.tsx:166-168 | `display` becomes the negation of the argument |
| `Map.Round` | frontend/src/components/Map/Map.tsx:115-116 | `Math.round`: the unique integer r with x − 0.5 < r ≤ x + 0.5 |
| `Map.Quarter` | frontend/src/components/Map/Map.tsx:128-136 | bit 0 is set iff lon > 0 and bit 1 iff lat < 0 |
| `Map.PixelPosition` | frontend/src/components/Map/Map.tsx:101-139 | lon −180 and 180 map to `Round(L)` and `Round(W + L)`; lat 90 and −90 map to 40 and `Round(H + 40)`; longitude 0 maps to `Round(W/2 + L)` and latitude 0 to `Round(H/2 + 40)`, the middle of the container; the quarter is `Quarter(lat, lon)` |
| `Map.LeftMonotone` | frontend/src/components/Map/Map.tsx:115 | at any latitude, for a non-negative container width, `left` never decreases as longitude grows |
| `Map.TopAntitone` | frontend/src/components/Map/Map.tsx:116 | at any longitude, for a non-negative container height, `top` never increases as latitude grows |
| `Map.QuarterIgnoresContainer` | frontend/src/components/Map/Map.tsx:128-136 | the quarter is below 4 and the same for every container geometry |
| `Map.Focused` | frontend/src/components/Map/Map.tsx:76 | with no filter every node is focused; otherwise focus is the filter's verdict |
| `Map.Located` | frontend/src/components/Map/Map.tsx:78-81 | keeps exactly the nodes with both coordinates |
| `Map.Markers` | frontend/src/components/Map/Map.tsx:73-93 | every marker is for a located node of the input, projected from its coordinates, with its focus |
| `Map.MarkersAreLocatedNodes` | frontend/src/components/Map/Map.tsx:73-93 | the markers are one per located node, in node order, unfocused ones included |
| `Map.MarkersAppend` | frontend/src/components/Map/Map.tsx:73-93 | the markers of a concatenation are the concatenated markers, so selection is node by node and keeps order |
| `Map.EffectiveWidth` | frontend/src/components/Map/Map.tsx:144 | the width used is the larger of 1350 and the viewport width |
| `Map.WideRatio` | frontend/src/components/Map/Map.tsx:147-154 | for a positive height, wide iff width ≥ height × 390/350; a zero height (ratio +Infinity) is wide and a negative one narrow |
| `Map.Fit` | frontend/src/components/Map/Map.tsx:141-165 | wide: top 0, the map centred horizontally, height the rounded effective height and width its rounded 390/350 multiple; narrow: left 0, centred vertically, width the rounded effective width and height its rounded 350/390 multiple |
| `Map.FitFits` | frontend/src/components/Map/Map.tsx:141-165 | for whole-pixel viewports taller than 148, `left` ≥ 0, `top` ≥ 0, and the map is no larger than the effective viewport |
| `Map.FitKeepsRatio` | frontend/src/components/Map/Map.tsx:141-165 | one side fills the effective viewport with zero offset; the other keeps the 390/350 ratio to within half a pixel |
| `Map.FitNarrowViewportExample` | frontend/src/components/Map/Map.tsx:144-157 | 800 by 1200 is widened to 1350 and takes the wide branch: 1172 by 1052 at left 89 |
| `Map.FitWideViewportExample` | frontend/src/components/Map/Map.tsx:154-157 | 2000 by 1000 gives 949 by 852 at left 525.5, top 0 |
| `Map.MapView.constructor` | frontend/src/components/Map/Map.tsx:46-52 | no filter, and a zero rectangle |
| `Map.MapView.OnResize` | frontend/src/components/Map/Map.tsx:141-165 | the stored rectangle becomes `Fit` of the viewport; the filter is untouched |
| `Map.MapView.OnFilterChange` | frontend/src/components/Map/Map.tsx:167-169 | replaces the filter and nothing else |
| `Map.MapView.Render` | frontend/src/components/Map/Map.tsx:64-99 | returns the markers of the sorted nodes under the current filter, all against one container geometry |
| `Header.ShouldComponentUpdate` | frontend/src/components/Chain/Header.tsx:51-59 | re-render iff one of best, finalized, blockTimestamp, blockAverage, currentTab differs |
| `Header.UnwatchedChangesIgnored` | frontend/src/components/Chain/Header.tsx:51-59 | with those five equal there is no update, whatever `appState` and `setDisplay` are |
| `Header.ShouldComponentUpdateSymmetric` | frontend/src/components/Chain/Header.tsx:52-58 | the predicate is symmetric and false for identical props |
| `Header.AverageTimeTile` | frontend/src/components/Chain/Header.tsx:76-78 | the tile shows `-` exactly when the average is null, else the average divided by 1000 |
| `Header.Render` | frontend/src/components/Chain/Header.tsx:61-83 | the tiles show the application state's best, finalized and last-block values, and the average-time tile of its average (`-` iff null) |
| `TxsColumn.SortBy` | frontend/src/components/List/Column/TxsColumn.tsx:27 | the sort key is the node's queue length |
| `TxsColumn.DescriptorConstants` | frontend/src/components/List/Column/TxsColumn.tsx:23-27 | label `Transactions in Queue`, width 26, setting `txs`; nodes with equal queue length get equal keys, whatever else differs |
| `TxsColumn.TxsCell.constructor` | frontend/src/components/List/Column/TxsColumn.tsx:29 | `data` is 0 before the first render |
| `TxsColumn.TxsCell.ShouldComponentUpdate` | frontend/src/components/List/Column/TxsColumn.tsx:31-33 | update iff the next node's queue length differs from `data` |
| `TxsColumn.TxsCell.Render` | frontend/src/components/List/Column/TxsColumn.tsx:35-41 | `data` becomes the node's queue length, and the cell shows that value |
| `TxsColumn.TxsCell.Receive` | frontend/src/components/List/Column/TxsColumn.tsx:31-41 | renders iff the value changed, and always ends holding the delivered value |
| `TxsColumn.Deliver` | frontend/src/components/List/Column/TxsColumn.tsx:31-41 | a stream renders at most once per delivery, nothing when empty, and only values that were delivered |
| `TxsColumn.DeliverHoldsLast` | frontend/src/components/List/Column/TxsColumn.tsx:31-41 | after a stream of deliveries the cell holds the last one |
| `TxsColumn.DeliverRendersChangesOnly` | frontend/src/components/List/Column/TxsColumn.tsx:31-33 | no render repeats the value shown before it, so re-delivering a value never re-renders |
| `TxsColumn.DeliverRendersEveryChange` | frontend/src/components/List/Column/TxsColumn.tsx:31-33 | the number of renders equals the number of deliveries that differ from the value before them |

## Left out

- JSX and DOM output, CSS, icons and the child components (`Tab`, `Settings`, `Icon`, `Tile`, `Ago`, `Location`, `Filter`): presentation whose sources are not part of this model. Only the values passed to them are modelled.
- The `Connection` promise and the `await` in `subscribe`: network I/O. A subscription is logged at the click. The delay before `connection.subscribe` runs is not modelled.
- `performance.now()`: replaced by the `now` parameter, a whole number of milliseconds, whereas `performance.now()` returns fractional milliseconds. The 1000 ms comparison is the same on either; no proved property depends on whole numbers. `ReceiveProps` uses one `now` for `shouldComponentUpdate` and the render that follows it.
- The DOM queries in `pixelPosition`: `getElementById` with its non-null assertion, `getBoundingClientRect`, `clientWidth` and `clientHeight`. They are replaced by the `Container` parameter. `topSet` only feeds `console.log`, which is left out.
- `viewport()` from the utilities: the viewport width and height are inputs.
- The resize listener registration and removal (`componentDidMount`, `componentWillUnmount`): browser event plumbing.
- IEEE-754 doubles: the arithmetic is over exact reals. Results within a rounding error of a half-pixel boundary may differ, and NaN and infinite viewport sizes are not modelled. Division by a zero or negative effective height is modelled through `WideRatio`.
- The unused constants `MAP_HEIGHT_ADJUST` and `MAP_WIDTH_ADJUST`.
- `formatNumber` and `secondsWithPrecision`: utilities outside this model. The tiles carry the numbers they would format.
- `appState.nodes.sorted()` and the list's sorting algorithm and stability: the sorted nodes are an input.
- The JavaScript distinction between `null` and `undefined`: `clicked` starts `undefined` in the source. Both are `None` here. Since `shouldComponentUpdate` always leaves `clicked` equal to the incoming selection, this affects no outcome.
- Node fields other than id, location and queue length, and the `settings` and `connection` props of the chains bar.
