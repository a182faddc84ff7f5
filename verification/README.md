# Resizable layout panel-state engine, in Dafny

This project models the logic of the `resizable-layout` component family of a
React component showcase: the provider that stores which named side panels are
open, the layout group that hands an initial size vector to its children by
position, the panel controller that reconciles the stored open flag with the
resizable-panels widget, and the trigger/open/close controls.

Everything is a pure function over small records:

- `PanelStore` (`store.dfy`): `ResizableLayoutProvider`. A `Store` holds the
  panel map (`map<string, bool>`), the log of effects issued so far, and whether
  a `document` exists. `SetPanelState`, `TogglePanel`, `OpenPanel` and
  `ClosePanel` return the next store; each write appends one
  `PersistPanel(id, isOpen)` effect when a document exists.
- `LayoutGroup` (`group.dfy`): `ResizableLayoutGroup`. Children are valid
  elements (with an optional `defaultSize`) or strings, numbers and portals; `MapChildren`
  is the `React.Children.map` pass with its running element index, and
  `HandleOnLayout` logs the forwarded size vector.
- `PanelWidget` (`widget.dfy`): the widget's imperative handle, reduced to a
  collapsed flag and a size, and the three commands `expand`, `collapse` and
  `resize`.
- `LayoutPanel` (`panel.dfy`): `ResizableLayoutPanel` and the prop defaults of
  `ResizableLayoutContent`. The reconcile effect, the dependency rule that makes
  it run only when the open flag changes, `handleResize`, `onCollapse`,
  `onExpand`, `onDragging` and the transition flag.
- `LayoutActions` (`actions.dfy`): `ResizableLayoutTrigger`,
  `ResizableLayoutOpen` and `ResizableLayoutClose` clicks.
- `Session` (`session.dfy`): a sequence of user events against one store, and
  `Replay`, which rebuilds a panel map from the logged persistence writes.
- `Effects`, `Wrappers`: the effect log entries, `Option` and `Result`.

Sizes are percentages modelled as `real`: the code only copies them and
compares them with `<`. Calls into user code (`onClick`, `onLayout`) and into
the persistence helper are recorded as log entries. A widget call is returned
to the caller, and `Perform` applies it to the handle, as the widget is
assumed to do.

A panel write persists only the changed pair `(panelId, isOpen)`, not the
whole map. `Replay` therefore folds the logged pairs over the starting map.

Only a missing `defaultLayout` entry makes a child keep its own size. A
present entry always wins, including `0`.

## Model

| member | source | states |
|---|---|---|
| PanelStore.Read | src/components/resizable-layout/index.tsx:165 | An id absent from the map reads closed; a present id reads its stored flag. |
| PanelStore.Provider | src/components/resizable-layout/index.tsx:46-47 | A provider mounted without `initialState` reads every panel closed; a given initial state is taken as is; nothing is logged at mount. |
| PanelStore.UseContext | src/components/resizable-layout/index.tsx:29-35 | Outside a provider the lookup fails with the provider-missing message; inside it yields the provider's store. |
| PanelStore.SetPanelState | src/components/resizable-layout/index.tsx:49-58 | The written key holds the new flag, every other key keeps its value, the key set only gains `id`, and one `(id, isOpen)` write is logged exactly when a document exists. |
| PanelStore.TogglePanel | src/components/resizable-layout/index.tsx:60-65 | The panel reads the negation of its previous read value (absent becomes open), other panels read unchanged, one write of the new value is logged. |
| PanelStore.OpenPanel | src/components/resizable-layout/index.tsx:67-72 | The panel reads open whatever it was, others unchanged, one `(id, true)` write logged. |
| PanelStore.ClosePanel | src/components/resizable-layout/index.tsx:74-79 | The panel reads closed whatever it was, others unchanged, one `(id, false)` write logged. |
| PanelStore.ToggleInvolution | src/components/resizable-layout/index.tsx:60-65 | Toggling twice restores every read value and logs two writes, the flipped value then the original one. |
| PanelStore.ToggleIsOpenOrClose | src/components/resizable-layout/index.tsx:60-79 | A toggle equals an open when the panel reads closed and a close when it reads open. |
| PanelStore.OpenIdempotent | src/components/resizable-layout/index.tsx:67-72 | Opening twice leaves the same map as opening once, but logs two writes. |
| PanelStore.CloseIdempotent | src/components/resizable-layout/index.tsx:74-79 | Closing twice leaves the same map as closing once, but logs two writes. |
| LayoutGroup.MapChildren | src/components/resizable-layout/index.tsx:105-128 | Output has the input's length and order; a non-element child is returned unchanged; an element child gets the layout entry at its element index, counting only elements before it, or keeps its own size when there is no such entry. |
| LayoutGroup.Kids | src/components/resizable-layout/index.tsx:105-107 | The group's rendered children: same length as its children, each cloned as `MapChildren` describes, with the element index starting at 0. |
| LayoutGroup.ElementSizesOverlay | src/components/resizable-layout/index.tsx:105-128 | Seen through element children only, the map keeps their number and gives the k-th element the layout entry `panelIndex + k` when it exists, its own size otherwise. |
| LayoutGroup.PositionalSizes | src/components/resizable-layout/index.tsx:121-125 | The k-th valid element child receives `defaultLayout[k]` when that entry exists and keeps its own `defaultSize` otherwise. |
| LayoutGroup.ThreeColumnExample | src/blocks/resizable-layout-03.tsx:19-22 | A panel/content/panel group seeded with `[30, 70, 0]` gets sizes 30, 70 and 0. |
| LayoutGroup.ShortLayoutExample | src/components/resizable-layout/index.tsx:121-124 | With `[30]` and two elements, the second keeps its own declared size. |
| LayoutGroup.NonElementExample | src/components/resizable-layout/index.tsx:108-119 | A text child between two elements is kept and does not use up a layout entry. |
| LayoutGroup.HandleOnLayout | src/components/resizable-layout/index.tsx:100-103 | The log grows by the user callback (when given) and then one persisted size vector; both carry the identical sizes, and no panel write is logged. |
| LayoutPanel.Configure | src/components/resizable-layout/index.tsx:153-158 | Omitted panel props default to minSize 20, defaultSize 25, maxSize 30, collapseOnResize and disableTransition false; given props are kept. |
| LayoutPanel.ConfigureContent | src/components/resizable-layout/index.tsx:236-241 | Omitted content props default to defaultSize 75, minSize 70, maxSize 100, disableTransition false; given props are kept. |
| LayoutPanel.Reconcile | src/components/resizable-layout/index.tsx:167-179 | No call without a ref; `expand` exactly when open and collapsed; `collapse` exactly when closed and expanded; never a resize. |
| LayoutPanel.ReconcileIssuesOnDisagreement | src/components/resizable-layout/index.tsx:172-178 | A call is issued exactly when the widget's collapsed flag equals the open flag, that is, when they disagree. |
| LayoutPanel.ReconcileConverges | src/components/resizable-layout/index.tsx:167-179 | After the widget honours the call it is collapsed iff the panel is closed, and reconciling again issues nothing. |
| LayoutPanel.Commit | src/components/resizable-layout/index.tsx:167-179 | The effect reruns only when the open flag changed since its last run, and then issues exactly `Reconcile`'s call; a rerun leaves a mounted widget collapsed iff closed; the modelled handle size is untouched; a call is only issued to a mounted widget that disagreed. |
| LayoutPanel.ExpandOnce | src/components/resizable-layout/index.tsx:167-179 | Opening a collapsed closed panel issues exactly one `expand`, and committing the same open flag again issues nothing. |
| LayoutPanel.OnDragging | src/components/resizable-layout/index.tsx:188 | The drag flag follows the handle's `onDragging` report; the ref and effect state are untouched. |
| LayoutPanel.TransitionEnabled | src/components/resizable-layout/index.tsx:207 | The animated transition is off while a drag is in progress or when disabled, and on otherwise. |
| LayoutPanel.DragSuppressesTransition | src/components/resizable-layout/index.tsx:207 | During a drag the animated transition is off; after it, the transition is on iff not disabled. |
| LayoutPanel.HandleResize | src/components/resizable-layout/index.tsx:192-197 | `resize(minSize)` is issued iff the size is below `minSize`, the ref is set, a drag is in progress and the panel does not collapse on resize; otherwise no call. |
| LayoutPanel.ResizeFloor | src/components/resizable-layout/index.tsx:192-197 | During such a drag the widget ends at the larger of the reported size and `minSize`. |
| LayoutPanel.OnCollapse | src/components/resizable-layout/index.tsx:215-217 | With collapse-on-resize the panel reads closed afterwards; the store changes iff collapse-on-resize is set and the panel was open, and then exactly as `closePanel(id)` changes it; other panels are untouched. |
| LayoutPanel.OnExpand | src/components/resizable-layout/index.tsx:218-220 | With collapse-on-resize the panel reads open afterwards; the store changes iff collapse-on-resize is set and the panel was closed, and then exactly as `openPanel(id)` changes it; other panels are untouched. |
| LayoutPanel.CollapseWriteBackIsQuiet | src/components/resizable-layout/index.tsx:215-217 | After a drag collapses a collapse-on-resize panel, the effect the write-back triggers issues no widget call. |
| LayoutPanel.ExpandWriteBackIsQuiet | src/components/resizable-layout/index.tsx:218-220 | After a drag expands a collapse-on-resize panel, the effect the write-back triggers issues no widget call. |
| LayoutActions.Dispatch | src/components/resizable-layout/index.tsx:274 | The control's store operation: its panel gets the target flag (negated for a trigger, true for open, false for close), other panels keep theirs, and one write of the target is logged when a document exists. |
| LayoutActions.Click | src/components/resizable-layout/index.tsx:265-320 | A click logs the user `onClick` first, then the panel gets its control's target (negated, true or false) and one write of it is logged; other panels keep their flags. |
| LayoutActions.ClickWithin | src/components/resizable-layout/index.tsx:29-35 | A control outside a provider fails with the provider-missing error; inside one, the result is exactly `Click` on the provider's store. |
| LayoutActions.OpenVersusTrigger | src/components/resizable-layout/index.tsx:293-306 | A force-open control leaves its panel open however often clicked; a trigger clicked twice restores it. |
| Session.ApplyRecord | src/components/resizable-layout/index.tsx:53 | A logged panel write sets that panel's flag in the record and leaves the others; any other effect leaves the record unchanged. |
| Session.ReplayLastWriteWins | src/components/resizable-layout/index.tsx:53 | Replaying a log over a record: each panel reads the flag of its last logged write, or its starting flag when the log never writes it. |
| Session.ReplayAppend | src/components/resizable-layout/index.tsx:53 | Replaying logged writes over a concatenated log equals replaying the parts in turn. |
| Session.Step | src/components/resizable-layout/index.tsx:49-57 | Each event only appends to the log, and with a document its logged writes replayed over the old map give the new map; without one it logs no panel write. A click gives its panel the control's target flag and leaves the others; a collapse or expand event is exactly `onCollapse` or `onExpand`; a settled layout leaves the panel map alone. |
| Session.WriteBackExtends | src/components/resizable-layout/index.tsx:215-220 | A collapse or expand write-back that leaves the store alone or makes one `setPanelState` write only appends to the log, and that write replays to the new map. |
| Session.RunExtends | src/components/resizable-layout/index.tsx:49-57 | A whole event sequence only appends to the log; with a document its panel writes replay over the starting map to the final map, and without one it logs no panel write. |
| Session.ReplayReproducesState | src/components/resizable-layout/index.tsx:49-57 | For any event sequence with a document, the persisted writes replayed over the starting map give exactly the final map. |
| Session.ReloadShowsSameState | src/components/resizable-layout/index.tsx:46-57 | A provider seeded with the replayed record reads every panel as the session left it. |
| Session.ServerSessionPersistsNothing | src/components/resizable-layout/index.tsx:52-54 | Without a document no panel write is ever logged. |
| Session.FreshSessionToggle | src/components/resizable-layout/index.tsx:265-275 | In a fresh session, one click on the `nav` trigger leaves `nav` open and logs exactly the write `(nav, true)`. |

## Left out

- LayoutActions.Click: the user `onClick` is logged as an entry that returns normally and does not write the store. In the code, a throwing `onClick` skips the dispatch. An `onClick` that calls a store operation itself can also change another panel, which the "other panels keep their flags" clause does not cover.
- LayoutGroup.HandleOnLayout: the user `onLayout` is logged as an entry that returns normally and does not write the store. In the code, a throwing `onLayout` skips the size write.

- PanelStore.Read: the code reads `panels[id] ?? false` on a plain object, so an absent id that names an `Object.prototype` member (`constructor`, `toString`, `valueOf`, `__proto__`) reads as open there. `!panels[id]` then writes `false` on the first toggle. The model reads every absent id as closed, because `map<string, bool>` has no prototype.
- LayoutGroup.MapChildren: `React.Children.map` drops `null`, `undefined` and boolean children from its result, and it flattens nested arrays. Only string and number children are modelled as non-elements, so the claim that the output has the input's length holds only for those.
- Session.ReloadShowsSameState: the files holding `updateResizableLayoutCookie` and `getServerSideResizableLayoutCookieData` are not part of this model. The lemma assumes the cookie merges each logged `(panelId, isOpen)` by key over the session's starting map, and that the server reader returns exactly that map as `initialState`. First paint is not modelled.
- LayoutPanel.HandleResize: the panel spreads the caller's remaining props after `onResize` (index.tsx:222), so a caller-supplied `onResize` replaces the resize floor. The model assumes no such override.
- LayoutPanel.OnCollapse: a caller-supplied `onCollapse` replaces the write-back in the same way. The model assumes no such override.
- LayoutPanel.OnExpand: a caller-supplied `onExpand` replaces the write-back in the same way. The model assumes no such override.

- Persistence encoding: `updateResizableLayoutCookie` and the server-side cookie reader are not part of this model. Only the logged `(panelId, isOpen)` pairs and size vectors are modelled.
- React machinery: context creation, hooks, `cloneElement`, `Slot`, JSX, class-name strings, icons and `data-state` attributes. The `side` prop only places borders and the handle, so it is not modelled.
- Stale closures and re-run updaters. `togglePanel` reads `panels` from the render closure. `onCollapse` and `onExpand` test the render-time `isOpen`, and `handleResize` tests the render-time `isResizing`. The model reads the current store and controller in each case. The cookie write also sits inside the `setPanels` updater, which React may call twice in development Strict Mode. The model logs one write per call.
- The widget: drag physics, size normalisation and the collapsed size are not modelled. `Perform` assumes the widget honours each command: `expand` and `collapse` set the collapsed flag and `resize` sets the size.
- `console.log` and the development-mode `console.warn` for non-element group children: side output only.
- Floating point: sizes are exact `real` values. There is no NaN or rounding.
- `ResizableLayoutContent` is modelled only by its prop defaults. Its transition class depends only on `disableTransition`.
- Layout size vectors are not checked against a floor at settle time, because the code does not check them.
