# Portfolio page: bubble-chart annotation overlay and theme toggle

This Dafny project models two pieces of a client-side portfolio page and
proves properties about them:

- **The annotation overlay** (`renderBubbleAnnotations` in `src/js/charts.js`),
  modelled in `bubble_annotations.dfy`, module `BubbleAnnotations`. It draws
  labels and connectors over a bubble chart. The wrapper element is a class,
  `Wrapper`, whose fields are the SVG overlay's children, the labels
  container's children and the resize-observer flag. The render method clears
  both containers. It then appends the arrowhead marker and loops over the
  annotations, appending a label and a connector for each one that resolves.
  Finally it sets the observer flag once. The method is proved equal to a
  pure specification, `Rendered`, and the lemmas prove the properties about
  that specification:
  - which annotations are drawn;
  - in what order;
  - where each connector starts and ends;
  - how each connector bends;
  - idempotence;
  - the early returns.
- **The theme state machine** (`initThemeToggle`, `applyTheme` and
  `updateThemeIcon` in `src/js/main.js`), modelled in `theme_toggle.dfy`,
  module `ThemeToggle`. The page is a class, `Page`, whose fields are:
  - the root `data-theme` attribute;
  - the stored `theme` preference;
  - the icon's `src`;
  - the two listener registrations;
  - a count of chart-retheme hook calls.

  Its methods (init, click, system colour-scheme change, apply, icon) are
  each proved equal to a pure transition on a `View` value. The lemmas are
  about single transitions and about `Run` over any sequence of events.

The browser is abstracted as parameters:
- The chart's value-to-pixel scales are functions in `Chart`.
- The wrapper's bounding rectangle and the presence of its containers form
  a fixed `Layout`.
- The browser's measurement of a label is the input function `measure`.
- Whether the button, the icon element and the retheme hook are present
  is given by an `Env` value.
- The system colour-scheme reading and the `matches` of change events are
  parameters.

`wrappers.dfy` holds the shared `Option` type, which stands for absent
JavaScript values.

Three details of the theme code that the model keeps:
- The retheme hook is called synchronously inside `applyTheme`
  (`src/js/main.js:68-70`).
- Any truthy stored string becomes the initial theme, not only `"light"` or
  `"dark"` (`src/js/main.js:42`).
- A toggle reads every root value other than exactly `"dark"` as light
  (`src/js/main.js:57-58`).

## Model

| member | source | states |
|---|---|---|
| BubbleAnnotations.MarkerId | src/js/charts.js:245 | The marker id is `arrowhead-` followed by the wrapper's chart name. When that name is absent or empty, `default` follows instead. |
| BubbleAnnotations.MarkerIdDistinguishesCharts | src/js/charts.js:245 | Wrappers with different non-empty chart names get different marker ids. |
| BubbleAnnotations.MarkerIdDefaultCollision | src/js/charts.js:245 | The scheme is not injective: a wrapper named `default` and one with no name, or an empty name, share the id `arrowhead-default`. |
| BubbleAnnotations.MarkerRef | src/js/charts.js:330 | The `marker-end` value `url(#id)` for a marker id; a definition without a contract, whose properties `MarkerRefNamesMarker` states. |
| BubbleAnnotations.MarkerRefNamesMarker | src/js/charts.js:330 | The `marker-end` value is `url(#`, then the marker id, then `)`, so the id can be read back from it. |
| BubbleAnnotations.ArrowMarker | src/js/charts.js:246-261 | The marker carries the id it is built with. (Its size, reference point, orientation and triangle path are set in its body; the contract states only the id.) |
| BubbleAnnotations.Resolves | src/js/charts.js:270-271 | The skip test, as a definition without a contract: an annotation is drawn exactly when its index names an existing bubble and it has a label position. `Kept` and `KeptComplete` state its consequences. |
| BubbleAnnotations.Kept | src/js/charts.js:269-273 | The drawn annotations come from the input, never outnumber it, and each names an existing bubble and has a label position. |
| BubbleAnnotations.KeptComplete | src/js/charts.js:269-273 | Every annotation that resolves is drawn. With `Kept`, an annotation is drawn exactly when it resolves. |
| BubbleAnnotations.KeptAppend | src/js/charts.js:269 | The skip rule keeps input order: the drawn annotations of a concatenation are those of each part, in order. |
| BubbleAnnotations.KeptNone | src/js/charts.js:270-273 | When no annotation resolves, nothing is drawn: bad entries are skipped, not errors. |
| BubbleAnnotations.KeptAll | src/js/charts.js:270-273 | When every annotation resolves, all are drawn, in input order. |
| BubbleAnnotations.LabelAt | src/js/charts.js:277-286 | A drawn label carries its target bubble's text. |
| BubbleAnnotations.LabelInsideWrapper | src/js/charts.js:277-278 | A label position within 0–100 % puts the label's centre inside the wrapper's width and height. |
| BubbleAnnotations.LabelCentred | src/js/charts.js:277-278 | A position of 50 % on an axis puts the label in the middle of that axis. |
| BubbleAnnotations.EdgeOf | src/js/charts.js:296-316 | Each edge is chosen if and only if the anchor is exactly `"left"`, `"right"`, `"top"` or `"bottom"`. Anything else, or no anchor, falls to the label centre. |
| BubbleAnnotations.StartPoint | src/js/charts.js:294-317 | The default case starts at the label's position. Every edge case starts at the midpoint of an edge of the measured label box. |
| BubbleAnnotations.StartPointPlacement | src/js/charts.js:294-317 | An edge anchor starts the connector at the midpoint of that edge of the measured label box, on the named side: equally far from the edge's two ends, even for a box of zero width or height. Otherwise it starts at the label's position. |
| BubbleAnnotations.StartPointOnCentredBox | src/js/charts.js:285-317 | For a label box centred on the label's position, each anchor moves the start half the box's width or height towards the named side. The start point stays inside the box. |
| BubbleAnnotations.Relative | src/js/charts.js:288-290 | The measured label box moved into wrapper coordinates; a definition without a contract, whose property `RelativeRoundTrip` states. |
| BubbleAnnotations.RelativeRoundTrip | src/js/charts.js:288-292 | Adding the wrapper's offset back gives the measured box: only the position changes, never the width or height. |
| BubbleAnnotations.BubblePixel | src/js/charts.js:275-276 | A bubble's pixel position is the chart's own x and y scales applied to its data coordinates; a definition without a contract, used by the end-point clause of `ConnectorAt`. |
| BubbleAnnotations.ControlPoint | src/js/charts.js:319-320 | The control point lies 60 % of the horizontal run from the start to the bubble, and 12 px above the chord's midpoint. |
| BubbleAnnotations.ControlPointBias | src/js/charts.js:319-320 | The control point lies horizontally between the start and the bubble, at least as close to the bubble (strictly closer when they differ in x), and strictly above the chord's midpoint. |
| BubbleAnnotations.ConnectorAt | src/js/charts.js:275-331 | A connector starts at the point its anchor selects on the measured label box, or at the label's position. It ends at the bubble's pixel position as given by the chart's own scales. Its control point is `ControlPoint` of those two points. It references the overlay's marker through `marker-end`. |
| BubbleAnnotations.LabelsFor | src/js/charts.js:269-286 | The labels drawn for a list of annotations never outnumber the annotations. `LabelsForKept` states which labels they are. |
| BubbleAnnotations.ConnectorsFor | src/js/charts.js:269-331 | The connectors drawn for a list of annotations never outnumber the annotations. `ConnectorsForKept` states which connectors they are. |
| BubbleAnnotations.LabelsForKept | src/js/charts.js:269-286 | The k-th label appended belongs to the k-th drawn annotation. There are exactly as many labels as drawn annotations. |
| BubbleAnnotations.ConnectorsForKept | src/js/charts.js:269-331 | The k-th connector appended belongs to the k-th drawn annotation. There are exactly as many connectors as drawn annotations. |
| BubbleAnnotations.Proceeds | src/js/charts.js:227-239 | The guards as one definition without a contract: the chart is present, bubbles and annotations are arrays, annotations are not empty, and both containers exist. `RenderedGuard` and `RenderedShape` state what each outcome does. |
| BubbleAnnotations.Rendered | src/js/charts.js:227-340 | When a guard fails, the state is unchanged. Otherwise the observer flag is set, the overlay starts with the marker's `defs`, and there are at most one connector and one label per annotation. |
| BubbleAnnotations.RenderedGuard | src/js/charts.js:227-239 | Any of these makes the render return at once and leave the wrapper untouched, stale content included: a missing chart, bubbles or annotations; an empty annotation list; a missing container. |
| BubbleAnnotations.RenderedShape | src/js/charts.js:241-340 | After a full render the overlay holds exactly the marker's `defs` and then one connector per drawn annotation, in order. Each connector is that annotation's `ConnectorAt`: its anchor's start point, its control point, its bubble as end point, and that marker. The labels container holds one label per drawn annotation, and the observer flag is set. |
| BubbleAnnotations.RenderedForgetsOldContent | src/js/charts.js:241-242 | The result of a full render does not depend on what the containers held before. |
| BubbleAnnotations.RenderedIdempotent | src/js/charts.js:241-340 | Rendering again with the same inputs, wrapper rectangle and label measurements changes nothing. Nothing accumulates. After a resize the rectangle differs, and `RenderedForgetsOldContent` and `RenderedShape` are the facts that hold. |
| BubbleAnnotations.RenderedObserverOnce | src/js/charts.js:334-340 | The observer flag is set by the first full render and never cleared. |
| BubbleAnnotations.Wrapper.constructor | src/js/charts.js:235-237 | A wrapper starts with the given container contents and no resize observer. |
| BubbleAnnotations.DrawAnnotation | src/js/charts.js:269-331 | For one annotation that resolves, it appends that annotation's label and connector. Otherwise it changes nothing. |
| BubbleAnnotations.RenderBubbleAnnotations | src/js/charts.js:221-341 | The wrapper's new state is `Rendered` of its old state. The loop keeps the invariant that the containers hold the labels and connectors of the annotations seen so far. A missing wrapper changes nothing. |
| ThemeToggle.Truthy | src/js/main.js:42-47 | JavaScript truthiness of the stored value, as the logical or at line 42 and the negation at line 47 test it: present and not empty. A definition without a contract; `InitialTheme` and `InitApplies` state its role. |
| ThemeToggle.InitialTheme | src/js/main.js:38-42 | A truthy stored preference is the initial theme, whatever the system prefers. Otherwise the initial theme is `"dark"` if and only if the system prefers dark, and `"light"` if not. |
| ThemeToggle.InitialThemeExamples | src/js/main.js:42 | Nothing stored and a dark system gives dark. A stored `"light"` with a dark system gives light. An empty stored string counts as nothing stored. |
| ThemeToggle.SystemTheme | src/js/main.js:50 | A system change applies `"dark"` if and only if it matches, and `"light"` otherwise. |
| ThemeToggle.CurrentTheme | src/js/main.js:57-58 | A toggle reads dark if and only if the root attribute is exactly `"dark"`. Every other value reads light. |
| ThemeToggle.Opposite | src/js/main.js:59 | The next theme is a theme name different from the current one: dark exactly when the current one is not dark. |
| ThemeToggle.OppositeInvolution | src/js/main.js:59 | For `"dark"` and `"light"`, switching twice returns the starting theme. |
| ThemeToggle.IconFor | src/js/main.js:73-78 | The icon is the brightness icon if and only if the theme is `"dark"`. It is the moon icon for every other theme. |
| ThemeToggle.HookCalls | src/js/main.js:68-70 | One apply calls the retheme hook once if it is registered, and not at all otherwise. |
| ThemeToggle.Applied | src/js/main.js:66-71 | The root attribute becomes the theme, and the hook count rises by `HookCalls`. Storage, icon and listeners are unchanged. |
| ThemeToggle.WithIcon | src/js/main.js:73-78 | Setting the icon for the theme just applied puts the icon in step with the root attribute. Nothing else changes. |
| ThemeToggle.AfterInit | src/js/main.js:31-64 | Init never writes storage. With an element missing it changes nothing. Otherwise it applies `InitialTheme`, puts the icon in step, and registers the click listener. It registers the system listener exactly when no truthy preference is stored (or one already was). |
| ThemeToggle.AfterToggle | src/js/main.js:56-63 | Without the click listener a click changes nothing. Otherwise the root attribute becomes exactly the opposite of the current theme reading, so the reading flips. Storage equals the root attribute, and the icon is in step. Listeners are unchanged. |
| ThemeToggle.AfterSystemChange | src/js/main.js:49-53 | A system change never writes storage. Without the system listener it changes nothing. Otherwise it applies the theme from `matches` and puts the icon in step. Listeners are unchanged. |
| ThemeToggle.Step | src/js/main.js:49-63 | An event goes to the listener registered for it. Only a click can write storage. No event changes the listeners, and an icon in step stays in step. |
| ThemeToggle.InitInertWithoutElements | src/js/main.js:32-36 | With the button or the icon element missing, init changes nothing: no theme, no icon, no listener. |
| ThemeToggle.InitApplies | src/js/main.js:38-63 | Init applies the initial theme and calls the hook once if a hook is registered. It leaves the icon in step with the theme and storage untouched. It registers the click listener. It registers the system listener exactly when no truthy preference was stored. |
| ThemeToggle.PreferenceIgnoresSystem | src/js/main.js:47-54 | With a stored preference no system listener is registered, so system changes never move the theme. |
| ThemeToggle.ToggleFlips | src/js/main.js:56-63 | A click sets the root attribute to exactly the opposite of the theme read from it, so the reading flips. It stores that theme, so storage equals the attribute. It calls the hook once if a hook is registered, puts the icon in step and keeps the listeners. |
| ThemeToggle.ToggleTwiceRestores | src/js/main.js:57-61 | Two clicks restore the theme reading. They restore the attribute itself when it was `"dark"` or `"light"`. They call the hook twice if a hook is registered, and not at all otherwise. |
| ThemeToggle.ToggleChoicePersists | src/js/main.js:42-60 | The theme a click stores is the one the next load applies, whatever the system prefers. |
| ThemeToggle.SystemChangeApplies | src/js/main.js:49-53 | A handled system change applies the theme from `matches` and calls the hook once if a hook is registered. It puts the icon in step and leaves storage unchanged. |
| ThemeToggle.SystemChangeKeepsStorage | src/js/main.js:49-53 | No system change writes storage, whether handled or not. |
| ThemeToggle.SystemChangesKeepStorage | src/js/main.js:49-53 | Any sequence of system changes leaves storage unchanged. |
| ThemeToggle.RunKeepsListeners | src/js/main.js:47-63 | Clicks and system changes never register or remove listeners. |
| ThemeToggle.RunRethemes | src/js/main.js:66-71 | Over any event sequence, the hook is called exactly once per event that reaches a listener, if the hook is registered, and never otherwise. |
| ThemeToggle.RunKeepsIconInSync | src/js/main.js:44-63 | Once the icon matches the theme, as init leaves it, it keeps matching through any sequence of clicks and system changes. |
| ThemeToggle.SystemChangeAfterToggle | src/js/main.js:47-63 | The system listener survives a click. On a page with no preference, a click to dark followed by a system change to light shows light while storage keeps dark. The next load then shows dark. |
| ThemeToggle.Page.constructor | src/js/main.js:31-33 | A page starts with the given attribute, storage and icon, no listeners and no hook calls. |
| ThemeToggle.Page.ApplyTheme | src/js/main.js:66-71 | It sets the root attribute and calls the hook if one is registered. |
| ThemeToggle.Page.UpdateThemeIcon | src/js/main.js:73-78 | It sets the icon for the theme. |
| ThemeToggle.Page.InitThemeToggle | src/js/main.js:31-64 | The new page state is `AfterInit` of the old one. |
| ThemeToggle.Page.Click | src/js/main.js:56-63 | The new page state is `AfterToggle` of the old one. |
| ThemeToggle.Page.SystemColorSchemeChange | src/js/main.js:49-53 | The new page state is `AfterSystemChange` of the old one. |

## Left out

- Browser rendering, fonts and timing are not modelled:
  - the `ResizeObserver` object and its callbacks (only the per-wrapper flag, and re-render idempotence, stand for them);
  - `document.fonts.ready`;
  - when the browser fires events.
- The label's measured box (`getBoundingClientRect`) is an input function, not computed from CSS. Floating-point arithmetic is modelled with exact reals.
- The textual forms are not modelled: the SVG path's `d` string, the `px` style strings and the number formatting in them. A connector is kept as its three points.
- The connector's fixed style attributes (`fill`, `stroke`, `stroke-width`), the arrowhead's `fill` and the SVG namespace are not modelled.
- Bubble arrays with `null` holes are not modelled, so a resolving index always names a real bubble. Neither is a `targetIndex` that is not an integer, nor a `labelPos` without numeric `x`/`y`.
- Annotation arrays with a `null` or `undefined` entry are not modelled. Reading `targetIndex` from such an entry throws at `src/js/charts.js:270` and stops the render part-way:
  - the overlay keeps the `defs` and the earlier connectors;
  - the labels container keeps the earlier labels;
  - the observer flag keeps its old value (unset on a first render).

  When the entry is in the first chart's list, the caller's `catch` (`src/js/charts.js:108`) also skips what follows the first render (`src/js/charts.js:70`): the `fonts.ready` re-render is never registered (`src/js/charts.js:79-98`) and the second chart's render (`src/js/charts.js:100`) does not run. When the entry is in the second chart's list, the render at `src/js/charts.js:100` is the one that throws, and nothing else is skipped. A number, string or boolean entry has no `targetIndex`, so it is skipped at `src/js/charts.js:271-272`; the model covers that case as an annotation that does not resolve.
- `BubbleAnnotations.Wrapper`: the wrapper's `data-chart` name, bounding rectangle and containers are a `const` of the wrapper. A re-render on the same wrapper reuses the old rectangle, so a resize can only be expressed as `Rendered` applied with another `Layout`.
- `ThemeToggle.Page.InitThemeToggle`: a second call on the same page does not register duplicate listeners in the model, as it would in the browser. The page calls init once, on `DOMContentLoaded`.
- `ThemeToggle.Env`: the presence of the button, the icon element and the retheme hook is taken as fixed for the page's lifetime. `applyTheme` tests `typeof window.updateChartsTheme` on every call (`src/js/main.js:68`), and the hook is defined outside these files, possibly after init. `RunRethemes` counts with the hook's presence held constant.
- `window.updateChartsTheme` is defined elsewhere and is not part of this model. Only the number of calls to it is tracked.
- `localStorage` failures (e.g. storage disabled) are not modelled.
- The rest of the page script is not part of this model: the partial include loop (`src/js/main.js:3-22`) and chart bootstrapping (`initSoftSkillBubbles`, `initHardSkillCharts`, `src/js/charts.js:1-219`).
