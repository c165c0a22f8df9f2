# responsiveNav in Dafny

A model of the jQuery plugin `responsiveNav`, which turns a navigation list
into a collapsible menu on narrow windows. Below a width breakpoint the
container gets the `responsive-nav` class. A trigger element opens and closes
it. Optional toggles before nested lists open and close those lists. The
plugin drives every open and close through the elements' inline `min-height`
and `max-height`.

The DOM is abstracted into records. The container and its parent item each
carry a flag per class (`responsive-nav`, `open`, `openSub`) and a pair of
inline heights. The top-level list is the sequence of its items' outer
heights. Each nested list carries:

- its items' heights;
- the index of its parent item;
- its margins;
- the height it renders at with no inline height;
- its `open` flag and its parent's `openSub` flag;
- its inline heights.

The closure's variables are fields of the same state: `isInitialized`,
`isMobile`, the cached `topLevelNavHeight` and whether `$subNavTrigger` is
set. Bound event handlers are counted.

The project has four modules:

- `Heights` (heights.dfy): inline heights, and the `setHeight`, `addHeight`
  and `removeHeight` helpers. It also holds `getNavHeight` as a loop proved
  equal to a sum.
- `NavSpec` (nav_spec.dfy): every handler as a pure function from the state
  before it runs to the state after it. These are the reference definitions.
  They follow the code, and each states what one call does.
  `Defaults` holds the default options of responsiveNav.js:12-23.
- `NavProperties` (nav_properties.dfy): lemmas that prove what those
  functions promise, over one call and over several. These cover:
  - auto-collapse;
  - the toggle;
  - opening and then closing a menu;
  - resize idempotence;
  - the start-up paths;
  - an invariant that every event keeps.

  The invariant is that min-height equals max-height on every element and
  neither is below 0, and that every handler is bound the expected number of
  times.
- `Nav` (responsive_nav.dfy): the class `ResponsiveNav`. Its fields are the
  state above. Its methods follow the plugin's functions statement by
  statement, with loops for the jQuery `each` loops. Each method is proved to
  leave the object as the matching `NavSpec` function says. A click or a
  resize runs every handler bound at that moment, in turn. These events
  require and keep the invariant.

Inline heights are written as jQuery writes them. `setHeight` writes a
number; `addHeight` and `removeHeight` write `+=` and `-=` relative values.
A write that would leave a negative `min-height` or `max-height` is invalid
CSS. The page drops it, so the element keeps the value it had.
`Heights.Write` and `Heights.Shifted` model this. A close that would take the
container below 0 therefore leaves its heights as they were.

Four behaviours of the code are easy to miss:

- `destroy` does not remove the trigger's `active` class or any `openSub`
  class (responsiveNav.js:242-252). `NavProperties.DestroyBreaksStep` states
  this.
- Starting above the breakpoint inserts the sub-nav toggles even when
  `hasSubnav` is false (responsiveNav.js:347).
- `closeMenu` on a nested list subtracts the list's margins, which the
  matching `openMenu` never added. `NavProperties.SubOpenCloseDrift` states
  the resulting drift, so a repeated open and close of a nested list leaves
  the container lower each time. Once the container is lower than the
  margins, the close is dropped and the container keeps the list's height
  as well.
- With `autoCollapse` on (the default), each open of a nested list also
  closes every list under another parent index. Each of those closes
  subtracts that list's rendered height and margins, including for lists
  that were already closed at 0 (their margins only).
  `NavProperties.CollapseOthersDrains` states this loss, one close at a time.

## Model

| member | source | states |
|---|---|---|
| Heights.SetHeight | responsiveNav.js:305-310 | a write of a height of at least 0 pins the element: min-height and max-height both equal it. A negative write is dropped and the element is unchanged. Balanced and non-negative boxes stay so |
| Heights.AddHeight | responsiveNav.js:312-317 | each height grows by the delta, counting from 0 when unset; a height the write would take below 0 keeps its value. Balanced and non-negative boxes stay so |
| Heights.RemoveHeight | responsiveNav.js:319-324 | each height shrinks by the delta, counting from 0 when unset; a height smaller than the delta keeps its value. Balanced and non-negative boxes stay so |
| Heights.GetNavHeight | responsiveNav.js:281-289 | the accumulating loop returns the sum of the items' outer heights |
| Heights.SumBoundsItems | responsiveNav.js:281-289 | every item's height is at most the list's total |
| NavSpec.ScrollTargetOf | responsiveNav.js:47-63 | each case of the switch, in both directions: `navTop` gives the container; no setting or `trigger` gives the trigger; any other string is a selector for itself |
| NavSpec.Initial | responsiveNav.js:26-35 | before the plugin runs: no classes on the container, its parent or the trigger; no inline heights; no cached height; nothing bound; not initialised, not mobile, no scroll; one closed, unmarked, unset record per nested list |
| NavSpec.CloseMenu | responsiveNav.js:167-190 | the target loses `open` and its parent loses `openSub`, and no other flag changes. The target is pinned to 0. Closing a nested list applies `removeHeight` to the container with that list's rendered height plus its margins, so the container never goes below 0. With `subnavExpanded` every nested list is pinned to 0; otherwise no other list changes |
| NavSpec.CollapseOthers | responsiveNav.js:121-129 | the auto-collapse loop keeps the lists' shapes, the container's classes and the cached height |
| NavSpec.CloseSub | responsiveNav.js:167-177 | closing a nested list keeps the lists' shapes, the container's classes and the cached height |
| NavSpec.ExpandNested | responsiveNav.js:143-151 | the `subnavExpanded` loop changes only the nested lists' heights |
| NavSpec.OpenTop | responsiveNav.js:132-154 | opening the container gives `open` and `openSub`. It caches the top-level items' sum plus `verticalPadding`. It pins the container to that sum plus the nested heights under `subnavExpanded`, and a negative total leaves the container unchanged. The nested lists are expanded exactly under `subnavExpanded` |
| NavSpec.MarkOpen | responsiveNav.js:115-116 | the nested list gains `open` and its parent gains `openSub`; nothing else changes |
| NavSpec.ExpandInto | responsiveNav.js:153-159 | the nested list is pinned to `menuHeight`. A non-negative container grows by the same amount. No class changes, and no other list changes |
| NavSpec.AutoCollapse | responsiveNav.js:121-130 | the collapse step keeps the shapes, the container's classes and the cached height |
| NavSpec.OpenSub | responsiveNav.js:112-160 | opening a nested list keeps the shapes, the container's classes and the cached height |
| NavSpec.OpenMenu | responsiveNav.js:112-160 | openMenu keeps the nested lists' shapes |
| NavSpec.HandleClick | responsiveNav.js:268-279 | only the menu and the scroll requests change; a scroll is requested exactly when the container is opened with `scrollTo` |
| NavSpec.TriggerHandler | responsiveNav.js:75-82 | the trigger's `active` flips |
| NavSpec.ToggleHandler | responsiveNav.js:91-95 | the toggle handler does nothing unless `isMobile` holds |
| NavSpec.AddSubNavTrigger | responsiveNav.js:258-261 | `$subNavTrigger` is set, one more set of toggles is inserted, and no handler is bound |
| NavSpec.BindInit | responsiveNav.js:74-98 | init binds the trigger's click and one resize handler. When nested lists are toggled it also binds the toggles' click, and inserts the toggles only if they are not there yet |
| NavSpec.Init | responsiveNav.js:65-100 | init sets `responsive-nav` and `isInitialized` and binds what `BindInit` says; the menu, the trigger and `isMobile` stay |
| NavSpec.Dismantle | responsiveNav.js:242-252 | the container loses `open` and its inline heights; with `hasSubnav` every nested list does too; `openSub` classes stay |
| NavSpec.Destroy | responsiveNav.js:242-252 | destroy removes `responsive-nav` and dismantles the menu; bindings, flags and the trigger's `active` stay |
| NavSpec.HandleResize | responsiveNav.js:215-230 | all four cases: at or below the breakpoint it sets `isMobile` and runs init the first time and create after that; above it clears `isMobile` and destroys only when initialised; `isInitialized` is never reset |
| NavSpec.Start | responsiveNav.js:343-349 | start-up binds one resize handler and initialises exactly at or below the breakpoint. Above it, it inserts the toggles, keeps `responsive-nav` and binds no click |
| NavSpec.RunTriggerHandlers | responsiveNav.js:75-82 | running the trigger's bound handlers in turn keeps the shapes |
| NavSpec.RunToggleHandlers | responsiveNav.js:91-95 | running a toggle's bound handlers in turn keeps the shapes |
| NavSpec.RunResizeHandlers | responsiveNav.js:206-208 | running the bound resize handlers in turn keeps the shapes |
| NavProperties.CollapseOthersFlags | responsiveNav.js:121-129 | the loop clears `open` and `openSub` exactly on the lists whose parent index differs |
| NavProperties.CollapseOthersLayout | responsiveNav.js:121-129 | without `subnavExpanded`, each list whose parent index differs is closed and pinned to 0, and every other list is untouched |
| NavProperties.CollapseOthersUntouched | responsiveNav.js:121-129 | without `subnavExpanded`, the loop over the first lists leaves every later list as it was |
| NavProperties.CloseSubFlags | responsiveNav.js:167-170 | closing a nested list clears `open` and `openSub` on it and on no other list |
| NavProperties.CollapseOthersFlagsStep | responsiveNav.js:124-128 | one step of the loop clears the flags of the list it closes and of no other |
| NavProperties.CloseSubShifts | responsiveNav.js:170-177 | closing a nested list shifts both container heights down by its rendered height and margins, or leaves a height that would go below 0 |
| NavProperties.CollapseOthersDrainsStep | responsiveNav.js:124-128 | one step of the loop shifts both container heights as `Drained` does |
| NavProperties.CollapseOthersDrains | responsiveNav.js:121-129 | without `subnavExpanded`, the container's heights end as `Drained` says: one close at a time, each taking off the list's height and margins before the loop, never below 0 |
| NavProperties.DrainedNonNegative | responsiveNav.js:121-129 | from a height of at least 0, the loop never leaves a negative height |
| NavProperties.DrainedExact | responsiveNav.js:121-129 | while the container is tall enough for every close, the loop takes off exactly the closed lists' heights and margins |
| NavProperties.DrainedOnlyClosed | responsiveNav.js:121-129 | the height the loop takes off depends only on the lists it closes |
| NavProperties.OpenSubFlags | responsiveNav.js:118-130 | after a nested open the list and its parent are marked. With `autoCollapse` only lists under the same parent index stay open, and with distinct parent indices exactly one does. Without it no other list's flags change |
| NavProperties.OpenSubHeights | responsiveNav.js:118-159 | without `subnavExpanded`, the list is pinned to its items' sum. A non-negative container ends at its height after the auto-collapse loop, as `Drained` says, plus that sum. The other lists are closed when auto-collapse reaches them and untouched otherwise |
| NavProperties.HandleClickToggles | responsiveNav.js:268-279 | a click adds `open` and `openSub` to a target without `open` and removes both from one with it |
| NavProperties.TriggerKeepsStep | responsiveNav.js:75-82 | the trigger's handler flips `active` and the container's `open` together |
| NavProperties.DestroyBreaksStep | responsiveNav.js:242-252 | destroying an open menu leaves the trigger `active` with the container closed |
| NavProperties.TopOpenCloseRoundTrip | responsiveNav.js:112-190 | opening then closing the container clears its classes and pins it to 0; the cached height stays; nested lists come back as before, or pinned to 0 under `subnavExpanded` |
| NavProperties.SubOpenCloseDrift | responsiveNav.js:157-177 | opening then closing a nested list restores it closed at 0 and leaves the others as they were. A non-negative container ends lower by the list's margins. When it is lower than the margins, the close is dropped and the container keeps the list's items' sum too |
| NavProperties.HandleResizeIdempotent | responsiveNav.js:215-230 | a second resize to the same width changes nothing |
| NavProperties.ResizeHandlersActOnce | responsiveNav.js:205-209 | however many resize handlers are bound, a resize acts as one `handleResize` |
| NavProperties.StartupBindings | responsiveNav.js:343-349 | starting below binds the resize handler once; starting above and then crossing below binds it twice; toggles are never inserted twice |
| NavProperties.StartEstablishesInv | responsiveNav.js:343-349 | start-up establishes the invariant |
| NavProperties.DefaultsStart | responsiveNav.js:12-23 | with the default options, start-up initialises exactly at widths up to 720 and inserts the toggles exactly above it; no toggle click is bound, and a toggle click changes nothing |
| NavProperties.CollapseOthersSound | responsiveNav.js:121-129 | the auto-collapse loop keeps min-height equal to max-height everywhere, and neither below 0 |
| NavProperties.OpenSound | responsiveNav.js:112-160 | openMenu keeps min-height equal to max-height everywhere, and neither below 0 |
| NavProperties.CloseSound | responsiveNav.js:167-190 | closeMenu keeps min-height equal to max-height everywhere, and neither below 0 |
| NavProperties.ClickSound | responsiveNav.js:268-279 | handleClick keeps min-height equal to max-height everywhere, and neither below 0 |
| NavProperties.HandleResizeKeepsInv | responsiveNav.js:215-252 | handleResize keeps the invariant |
| NavProperties.TriggerClickedOnce | responsiveNav.js:75-82 | a trigger click acts once, and only once initialised; it keeps the invariant |
| NavProperties.ToggleClickedOnce | responsiveNav.js:85-95 | a toggle click acts as one `handleClick` on its list when `isMobile` holds and nested lists are toggled, and does nothing otherwise; it keeps the invariant |
| NavProperties.WindowResizedOnce | responsiveNav.js:205-230 | a resize acts as one `handleResize` and keeps the invariant |
| NavProperties.OpenCloseKeepInv | responsiveNav.js:112-190 | the public openMenu and closeMenu keep the invariant |
| NavProperties.InitializedStays | responsiveNav.js:99 | no event resets `isInitialized` |
| NavProperties.TriggerKeepsOneOpen | responsiveNav.js:75-82 | a trigger click never leaves two nested lists open when at most one was |
| NavProperties.ToggleKeepsOneOpen | responsiveNav.js:118-130 | with `autoCollapse`, when no two nested lists share a parent index, a toggle click never leaves two nested lists open |
| NavProperties.ResizeKeepsOneOpen | responsiveNav.js:215-252 | a resize never leaves two nested lists open when at most one was |
| Nav.ResponsiveNav.constructor | responsiveNav.js:343-349 | the new object holds the start-up state for the window width, keeps the invariant and picks the scroll target |
| Nav.ResponsiveNav.Init | responsiveNav.js:65-100 | the object ends as `NavSpec.Init` says |
| Nav.ResponsiveNav.InitDestroyOnResize | responsiveNav.js:205-209 | one more resize handler is bound and nothing else changes |
| Nav.ResponsiveNav.AddSubNavTrigger | responsiveNav.js:258-261 | the bindings end as `NavSpec.AddSubNavTrigger` says |
| Nav.ResponsiveNav.Create | responsiveNav.js:235-237 | create only adds `responsive-nav` |
| Nav.ResponsiveNav.Destroy | responsiveNav.js:242-252 | the object ends as `NavSpec.Destroy` says |
| Nav.ResponsiveNav.HandleResize | responsiveNav.js:215-230 | the object ends as `NavSpec.HandleResize` says |
| Nav.ResponsiveNav.ScrollToMenu | responsiveNav.js:192-195 | one more scroll is requested and nothing else changes |
| Nav.ResponsiveNav.CloseOthers | responsiveNav.js:121-129 | the each loop leaves the menu as `NavSpec.CollapseOthers` over all lists |
| Nav.ResponsiveNav.ExpandEach | responsiveNav.js:143-151 | the each loop pins every nested list to its items' sum and adds all those sums to `menuHeight` |
| Nav.ResponsiveNav.ExpandNestedLists | responsiveNav.js:143-151 | the menu ends as `NavSpec.ExpandNested` says, and `menuHeight` grows by the nested heights |
| Nav.ResponsiveNav.ZeroEach | responsiveNav.js:180-189 | the each loop pins every nested list to 0 and changes nothing else |
| Nav.ResponsiveNav.OpenMenu | responsiveNav.js:112-160 | the menu ends as `NavSpec.OpenMenu` says |
| Nav.ResponsiveNav.OpenTopLevel | responsiveNav.js:132-154 | the menu ends as `NavSpec.OpenTop` says |
| Nav.ResponsiveNav.MarkSubLevel | responsiveNav.js:115-130 | the list is marked and the others collapsed as `NavSpec.AutoCollapse` says; it returns the list's items' sum |
| Nav.ResponsiveNav.OpenSubLevel | responsiveNav.js:112-160 | the menu ends as `NavSpec.OpenSub` says |
| Nav.ResponsiveNav.ExpandTarget | responsiveNav.js:153-159 | the menu ends as `NavSpec.ExpandInto` says |
| Nav.ResponsiveNav.CloseMenu | responsiveNav.js:167-190 | the menu ends as `NavSpec.CloseMenu` says |
| Nav.ResponsiveNav.HandleClick | responsiveNav.js:268-279 | the object ends as `NavSpec.HandleClick` says |
| Nav.ResponsiveNav.OnTriggerClick | responsiveNav.js:75-82 | the object ends as `NavSpec.TriggerHandler` says |
| Nav.ResponsiveNav.OnToggleClick | responsiveNav.js:91-95 | the object ends as `NavSpec.ToggleHandler` says |
| Nav.ResponsiveNav.ClickTrigger | responsiveNav.js:75-82 | a trigger click runs every bound handler; the result is one `TriggerHandler` once initialised, and nothing before; it keeps the invariant |
| Nav.ResponsiveNav.ClickToggle | responsiveNav.js:91-95 | a toggle click acts as one `handleClick` on its list, only while `isMobile` and when toggles are bound; it keeps the invariant |
| Nav.ResponsiveNav.ResizeWindow | responsiveNav.js:206-208 | a resize runs every bound handler; the result is one `handleResize`; it keeps the invariant |

## Left out

- jQuery selection and traversal (`find`, `not('.contextual-links')`, `first`, `next('ul')`, `parent().index()`): the page is given as fixed sequences, one record per nested list in document order. The toggle before a list is identified by the list's index.
- Measurement (`outerHeight`, `height`) and the margin parsing of `getMargins` (responsiveNav.js:296-303): these heights and margins are integer inputs, and they stay fixed while the object lives. A nested list's `height()` is its inline max-height when one is set, else a given natural height.
- `scrollToMenu`'s `offset()` and `animate` (responsiveNav.js:192-195): only a count of scroll requests is kept. The scroll target is picked but has no position.
- Event binding, `preventDefault` and reading the window width: handlers are methods, the bindings are counters, and the width is a parameter. Event dispatch runs the handlers bound when the event fires.
- `isObj` and `$.extend` (responsiveNav.js:335-337, 12-23): the options arrive as one merged `Settings` value. The unused `transition` option is not modelled.
- The public `openMenu` and `closeMenu` called with an element and a flag that do not match (for example a nested list with `isSubnav` false): a target is either the container or a nested list.
- jQuery's reading of `'none'` and other non-pixel inline values: an inline height is either unset or a number of pixels. A relative write to an unset value starts from 0.
- Markup that already carries the plugin's classes or inline heights before start-up: the initial page has none.
- Nested lists that share one parent item: each parent item holds at most one nested list, so the toggle before a list toggles that list.
- NavProperties.ToggleKeepsOneOpen: `parent().index()` is the position of the parent item among its siblings, so lists at different depths, or under different items at the same position, share an index. `DistinctParents` rules this out. That excludes many menus with nested lists at two levels, for instance one with a list under the first top-level item and another under the first item of a nested list. On such menus, auto-collapse leaves open every list that shares the opened list's index, not only the lists above it.
- NavSpec.OpenTop: the top-level items' outer heights are fixed inputs. On the page, a top-level item's `outerHeight` includes any nested list inside it at its current inline height. Reopening the container after a nested list was pinned open therefore measures more than the model does.
