# Zoo gallery and feature viewer controllers, in Dafny

This project models the two client-side controllers of a static site that
shows 3D models:

- **The zoo gallery** (`statics/js/zoo.js`). It keeps `currentPage` and
  `currentFilter` and shows 8 records per page (`modelsPerPage`). It filters
  an external catalog by category ("all" means no filter), renders the cards
  of the current page, and draws the pagination label and button states. Its
  detail modal shows a record and applies one of five view-mode presets to
  the loaded model.
- **The feature section** (`statics/js/features.js`). It has tabs, content
  panels and case selectors that clicks switch on and off. It also has one
  shared viewer. `loadFeatureModel` looks a case up in `featureModels`, sets
  the viewer's `src` and swaps the viewer's single load handler.

The modules are:

- `Dom` (dom.dfy): how a handler ends (normally or with a TypeError), the
  "only the clicked element is active" class toggle, and `querySelector` over
  a list of flags.
- `JsText` (jstext.dfy): the decimal rendering of numbers in template
  literals, and `toUpperCase` on one character.
- `Viewer` (viewer.dfy): the `<model-viewer>` element. It has a `src`,
  attributes, the materials of the loaded model and a list of load listeners.
  Material calls become `Effect` values, and `Perform` runs them on a `Scene`.
  Colours are integer channels over 255, and factors are exact `real`s.
- `Paging` (paging.dfy): `getFilteredModels`, `Math.ceil(n / 8)`, the page
  slice, and the page-range invariant.
- `Zoo` (zoo.dfy): the `Gallery` and `DetailModal` classes, the view-mode
  presets, the category capitalisation and the page label.
- `Features` (features.dfy): `featureModels`, the load handler and the
  `FeatureSection` class.

Main results:

- Filtering picks exactly the records of the category, once each, in catalog
  order. The witness is the increasing list of their positions.
- The pages `1 .. ceil(n/8)` concatenate back to the filtered list.
- Every handler keeps `1 <= currentPage <= max(1, ceil(n/8))`, so the page
  on show is never empty unless the filtered list is.
- The feature viewer never has more than one load handler registered.

Some behaviour of the code is easy to misread; the model follows the code:

- The total page count is `Math.ceil(n / 8)`, not `max(1, ceil(n / 8))`.
  An empty filtered list therefore shows "Page 1 of 0", and next is not
  flagged disabled, although clicking it does nothing (`Zoo.ControlsMatchHandlers`).
- The view modes are matched exactly and case-sensitively: `"textured"`,
  `"Legacy"`, `"Normal"`, `"Gradient"`, `"Neutral"`.
- `updateModelView` has no `try`. On a model without materials, the modes
  that start with the first material throw a TypeError before anything changes.
- The modal's flat-material handler throws on the undeclared `color` right
  after setting metallic 0.0 and roughness 1.0. Its base colour and attribute
  settings never happen.
- The modal's listeners are never removed, so each opening adds one or two.

## Model

| member | source | states |
|---|---|---|
| `Dom.ActivateOnly` | statics/js/features.js:51-52 | after the click exactly the clicked element carries `active` (also the filter buttons, zoo.js:44-47, and view-mode buttons, zoo.js:94-95) |
| `Dom.FirstFlagged` | statics/js/features.js:54 | `querySelector(".feature-tab.active")`: the first flagged tab in document order, or none when no tab is flagged |
| `Dom.FirstOfExactlyOne` | statics/js/features.js:29-30 | after a click has left exactly one tab active, `querySelector` finds that tab |
| `JsText.NatToString` | statics/js/zoo.js:234 | `${n}` gives a non-empty string of decimal digits with no leading zero |
| `JsText.NatToStringRoundTrip` | statics/js/zoo.js:234 | reading the decimal rendering back gives the number |
| `JsText.NatToStringInjective` | statics/js/zoo.js:234 | different numbers render as different strings |
| `JsText.ToUpperAscii` | statics/js/zoo.js:247 | lower-case ASCII letters become upper case; every other character is unchanged |
| `Viewer.Perform` | statics/js/zoo.js:290-317 | running material and attribute effects stops (not completed) exactly when the model has no materials and an effect needs the first one; material count is preserved |
| `Viewer.Without` | statics/js/features.js:70 | `removeEventListener`: the listener is gone, every other listener keeps its membership, and removing a listener that is not registered changes nothing |
| `Viewer.WithoutConcat` | statics/js/features.js:70 | removal works piece by piece, so the remaining listeners keep their order and their count |
| `Viewer.ModelViewer.SetSrc` | statics/js/features.js:65 | `setAttribute("src", path)` sets the source and touches nothing else |
| `Viewer.ModelViewer.AddLoadListener` | statics/js/features.js:110 | `addEventListener("load", l)` appends `l` unless it is already registered |
| `Viewer.ModelViewer.RemoveLoadListener` | statics/js/features.js:70 | `removeEventListener("load", l)` removes `l` from the listener list |
| `Viewer.ModelViewer.Apply` | statics/js/zoo.js:305-310 | material calls and `setAttribute` calls on the loaded viewer change its materials and attributes as `Perform` says |
| `Paging.InCategory` | statics/js/zoo.js:129 | the filter keeps only records of the category and never grows the list |
| `Paging.FilteredModels` | statics/js/zoo.js:125-131 | "all" returns the whole catalog; any other filter returns only records of that category |
| `Paging.InCategoryIsSelection` | statics/js/zoo.js:129 | the filter's result is the catalog's records at exactly the matching positions, in increasing order |
| `Paging.SelectionStep` | statics/js/zoo.js:129 | a selection from the catalog's tail extends to the whole catalog by deciding on the first record |
| `Paging.FilteredSelectsInOrder` | statics/js/zoo.js:125-131 | for a filter other than "all", the result is exactly the catalog's records of that category, each once, in catalog order |
| `Paging.TotalPages` | statics/js/zoo.js:231 | `Math.ceil(n / 8)` is the least page count whose pages hold `n` records; it is 0 exactly for an empty list |
| `Paging.PageSlice` | statics/js/zoo.js:136-138 | page `p` is `filtered[(p-1)*8 .. min(p*8, n))`: at most 8 records, element k is record `(p-1)*8 + k`, empty when `(p-1)*8 >= n` |
| `Paging.PageInRangeNonEmpty` | statics/js/zoo.js:136-138 | a page between 1 and `ceil(n/8)` shows at least one record |
| `Paging.PagesFromReassemble` | statics/js/zoo.js:136-138 | the pages from `i + 1` on concatenate to the filtered list from record `8i` on |
| `Paging.PagesReassemble` | statics/js/zoo.js:136-138 | the pages 1 to `ceil(n/8)` concatenate to the filtered list, with no duplicates and no omissions |
| `Paging.PageSizes` | statics/js/zoo.js:136-138 | a page in range holds 1 to 8 records; a page after the last is empty |
| `Paging.TransitionsKeepPageInRange` | statics/js/zoo.js:50-77 | filter (page 1), prev and next all keep `1 <= page <= max(1, ceil(n/8))`, and a page in range of a non-empty list starts inside it |
| `Zoo.ViewModeEffects` | statics/js/zoo.js:291-351 | a mode has effects exactly when it is one of the five case-sensitive labels; only "Gradient" touches every material |
| `Zoo.GradientView` | statics/js/zoo.js:330-341 | "Gradient" never throws, clears every base-colour texture, makes every base colour white, and sets the gradient image, shadow "0.0" and exposure "1.5" |
| `Zoo.NormalView` | statics/js/zoo.js:323-328 | "Normal" leaves the materials alone and sets environment "neutral", shadow "0.5" and exposure "0.8" |
| `Zoo.GrayModeView` | statics/js/zoo.js:304-350 | "textured", "Legacy" and "Neutral" give the first material metallic 0.1, roughness 0.5 and gray (100,100,100,255), then set their attributes; with no materials they throw and change nothing |
| `Zoo.AttributesOnly` | statics/js/zoo.js:308-310 | a run of `setAttribute` calls completes, leaves materials alone and sets the attributes in order |
| `Zoo.UnknownModeView` | statics/js/zoo.js:291-351 | any other mode, such as lower-case "legacy", changes nothing and does not throw |
| `Zoo.Capitalize` | statics/js/zoo.js:246-247 | the category keeps its length and its tail, and its first character is the upper-cased first character of the category, never a lower-case letter |
| `Zoo.CapitalizeIdempotent` | statics/js/zoo.js:246-247 | capitalising twice is the same as capitalising once |
| `Zoo.LeadingDigitsOf` | statics/js/zoo.js:234 | a digit string followed by a space has exactly its own length of leading digits |
| `Zoo.SplitAtSeparator` | statics/js/zoo.js:234 | digits, then " of ", then a rest split in only one way |
| `Zoo.PageLabelInjective` | statics/js/zoo.js:234 | "Page p of t" determines both `p` and `t` |
| `Zoo.FlatMaterialStyle` | statics/js/zoo.js:180-182 | the flat-material calls set metallic 0.0 and roughness 1.0 on the first material and change nothing else; with no materials nothing changes |
| `Zoo.CardLoadStyle` | statics/js/zoo.js:175-189 | an untextured card's viewer gets metallic 0.0 and roughness 1.0 on its first material on load; a textured one is left alone; errors are swallowed |
| `Zoo.ControlsMatchHandlers` | statics/js/zoo.js:229-238 | prev is flagged disabled exactly when prev is a no-op; so is next for a non-empty list; an empty list reads "Page 1 of 0" with next not flagged |
| `Zoo.Gallery.constructor` | statics/js/zoo.js:24-27 | the page loads on filter "all", page 1, with the grid and controls drawn |
| `Zoo.Gallery.RenderModels` | statics/js/zoo.js:134-192 | the grid becomes one card per record of the current page, in order: at most 8 cards, and at least one if the filtered list is non-empty |
| `Zoo.Gallery.UpdatePagination` | statics/js/zoo.js:229-238 | the label reads "Page p of ceil(n/8)"; prev is disabled iff `p == 1`; next is disabled iff `p == ceil(n/8)` |
| `Zoo.Gallery.SelectFilter` | statics/js/zoo.js:41-56 | only the clicked button is active, the filter becomes its value, the page resets to 1, and the view is redrawn |
| `Zoo.Gallery.ClickPrev` | statics/js/zoo.js:60-66 | page minus one only when above 1, otherwise nothing changes; the filter is kept; the invariant holds |
| `Zoo.Gallery.ClickNext` | statics/js/zoo.js:68-77 | page plus one only when below `ceil(n/8)`, otherwise nothing changes; the filter is kept; the invariant holds |
| `Zoo.DetailModal.constructor` | statics/js/zoo.js:12-21 | the modal starts hidden, with a viewer that has no listeners and no model |
| `Zoo.ModalListenerStyle` | statics/js/zoo.js:258-284 | on load, the modal's flat-material listener leaves metallic 0.0 and roughness 1.0 on the first material and throws before the colour and attributes; the snapshot listener changes nothing |
| `Zoo.DetailModal.Open` | statics/js/zoo.js:242-284 | shows the modal with the capitalised category and the record's `src`; adds a flat-material listener for untextured records and always a snapshot listener, keeping the earlier ones |
| `Zoo.DetailModal.Close` | statics/js/zoo.js:80-82 | the close control hides the modal |
| `Zoo.DetailModal.ClickWindow` | statics/js/zoo.js:85-89 | a click hides the modal exactly when it lands on the backdrop |
| `Zoo.DetailModal.UpdateModelView` | statics/js/zoo.js:287-352 | without a loaded model nothing changes; otherwise the mode's effects run, ending in a TypeError where `Perform` stops |
| `Zoo.DetailModal.SelectViewMode` | statics/js/zoo.js:92-98 | only the clicked view-mode button is active, then its mode is applied |
| `Features.LookupModel` | statics/js/features.js:63-64 | `featureModels[tab][key]`, over the table's own keys, throws for an unknown tab, is undefined for an unknown key, and is otherwise a non-empty (truthy) path from the table |
| `Features.HandlerStyle` | statics/js/features.js:75-87 | the load handler sets metallic 0.1, roughness 0.7 and colour (53,54,56,255)/255 on the first material; with no materials its error is swallowed and nothing changes |
| `Features.AfterHandlersStep` | statics/js/features.js:110 | running one more registered handler applies the handler's effects once more |
| `Features.FeatureSection.AtMostOneHandler` | statics/js/features.js:60 | in every reachable state the viewer has at most one load handler |
| `Features.FeatureSection.constructor` | statics/js/features.js:115 | the script starts by loading the "detail"/"gear" case: `src` is "statics/features/tank.glb" and one handler is registered; the viewer and the flag arrays are new objects, so later clicks may change them |
| `Features.FeatureSection.LoadFeatureModel` | statics/js/features.js:62-112 | for a known case `src` becomes the table's path and the only registered handler is the new one; an unknown key changes nothing; an unknown tab throws and changes nothing |
| `Features.FeatureSection.ShowPanelsOf` | statics/js/features.js:34-37 | exactly the panels of the tab are active and not hidden; all others are hidden and not active |
| `Features.FeatureSection.ClickTab` | statics/js/features.js:26-47 | exactly the clicked tab is active and its panels shown, then its first case is loaded and made the only active case unless the tab is unknown; the viewer's loaded model and attributes are unchanged |
| `Features.FeatureSection.ClickCase` | statics/js/features.js:49-57 | exactly the clicked case is active, then it is loaded for the first active tab; with no active tab the handler throws; the viewer's loaded model and attributes are unchanged |
| `Features.FeatureSection.FinishLoad` | statics/js/features.js:75-87 | when the model loads, every registered handler runs once; since at most one is registered, the style is applied once if a handler is installed |
| `Features.TabThenCase` | statics/js/features.js:26-57 | after a tab click, a case click looks the case up under the clicked tab, whatever the tab's first case did; a known case ends with its asset in the viewer and one handler registered |
| `Features.OpenThenClickTab` | statics/js/features.js:26-47 | from the initial load, a click on the "sharp" tab loads its first case: that asset is in the viewer, one handler is registered, and the model's arrival applies the handler style once |
| `Features.TwoCasesInARow` | statics/js/features.js:49-72 | two case clicks in a row, before any load event, leave one handler registered and the second case's asset in the viewer |

## Left out

- Card markup, hover effects, smooth scrolling, the IntersectionObserver fade-in and the `setTimeout` fade trigger (zoo.js:30-38, 101-121, 141-226). They are presentation with no state the controllers read.
- The modal's title, description, polygon count, texture count and reference image. They are plain copies of record fields, so the catalog record keeps only `id`, `category`, `src` and `textured`.
- The content of the `originalMaterials` snapshot, and the commented-out restore and orbit-timer code. The snapshot only changes a property that no live code reads; the rest is dead.
- The rendering engine of `<model-viewer>`. Loading is asynchronous, and `Viewer.ModelViewer.FinishLoading` stands for its load notification. Only the feature viewer's load dispatch is modelled (`FinishLoad`). For cards and the modal, the listeners' effects are stated, but their dispatch is not.
- Features.LookupModel: the table is a plain map; inherited object properties are not modelled, so a tab or key such as "constructor" or "toString" counts as unknown here, while in the browser it finds the `Object.prototype` member.
- Viewer.ModelViewer.SetSrc: does not clear the previously loaded model, because the engine's asynchronous reload is not modelled.
- `console.error` logging in the `catch` blocks, since it is output only.
- JsText.ToUpperAscii: maps only the ASCII letters, while `toUpperCase` also maps other letters, some to two characters (such as "ß" to "SS").
- Zoo.ViewModeEffects: "Gradient" clears every texture and then colours every material, where the source does both per material in one `forEach`. The result is the same, because each call touches one field of one material.
- The catalog data file: the catalog is a constructor parameter.
- DOM traversal: the first case selector of a clicked tab is a parameter of `ClickTab`. The markup's initial class flags and the feature viewer's initial `src` are constructor parameters.
