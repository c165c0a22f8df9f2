/**
 * The responsive navigation widget as a function of its state: one value
 * holds the container, the trigger, the nested lists and every variable the
 * plugin's closure reassigns, and each handler of the plugin is a function
 * from the state before it runs to the state after it has run to completion.
 * These functions are the reference definitions that the class in module Nav
 * is proved against.
 */
module NavSpec {
  import opened Heights

  datatype Option<T> = None | Some(value: T)

  /** The plugin's options, after merging with the defaults. */
  datatype Settings = Settings(
    breakpoint: int,
    hasSubnav: bool,
    subnavExpanded: bool,
    autoCollapse: bool,
    verticalPadding: int,
    scrollTo: bool,
    scrollOffset: int,
    scrollTarget: Option<string>,
    subNavTriggerClass: string)

  /** The option values used where the caller passes none. */
  function Defaults(): Settings {
    Settings(720, false, false, true, 0, false, 0, None, "subnav-trigger")
  }

  /** Nested lists are always shown and sized together with the top level. */
  predicate Expanded(st: Settings) {
    st.hasSubnav && st.subnavExpanded
  }

  /** The toggles before each nested list get a click handler of their own. */
  predicate TogglesSubnavs(st: Settings) {
    st.hasSubnav && !st.subnavExpanded
  }

  /** The element the page scrolls to after the menu opens. */
  datatype ScrollTarget = TriggerElement | Container | Selected(selector: string)

  /**
   * The `scrollTarget` switch: no setting and `'trigger'` mean the trigger,
   * `'navTop'` the navigation container, anything else is a selector.
   */
  function ScrollTargetOf(setting: Option<string>): (r: ScrollTarget)
    ensures r == Container <==> setting == Some("navTop")
    ensures r == TriggerElement <==> setting == None || setting == Some("trigger")
    ensures r.Selected? <==> setting.Some? && setting.value != "navTop" && setting.value != "trigger"
    ensures r.Selected? ==> r.selector == setting.value
  {
    match setting
    case None => TriggerElement
    case Some(name) =>
      if name == "navTop" then Container
      else if name == "trigger" then TriggerElement
      else Selected(name)
  }

  /**
   * What the page measures of a nested list: the outer heights of its `li`
   * children, the index of its parent `li` among that item's siblings, its
   * top and bottom margins, and the height it renders at when it carries no
   * inline height.
   */
  datatype Shape = Shape(
    items: seq<nat>,
    parentIndex: nat,
    marginTop: int,
    marginBottom: int,
    naturalHeight: nat)

  /**
   * A nested list: its shape, its `open` class, the `openSub` class of its
   * parent `li`, and its inline heights.
   */
  datatype SubNav = SubNav(shape: Shape, open: bool, parentOpenSub: bool, box: Box)

  /** The element a click opens or closes: the container, or nested list `index`. */
  datatype Target = Top | Sub(index: nat)

  /**
   * What `openMenu` and `closeMenu` change: the container's `open` class, the
   * `openSub` class of its parent element, its inline heights, the nested
   * lists, and the closure's cached `topLevelNavHeight`.
   */
  datatype Menu = Menu(
    open: bool,
    parentOpenSub: bool,
    box: Box,
    subs: seq<SubNav>,
    topLevelNavHeight: Option<int>)

  /**
   * What `init` and the start-up block attach to the page: whether the
   * sub-nav toggles have been inserted (`$subNavTrigger` is set), how many
   * times they were inserted, and the number of bound resize, trigger-click
   * and toggle-click handlers.
   */
  datatype Bindings = Bindings(
    subNavTrigger: bool,
    triggerSpans: int,
    resizeHandlers: int,
    triggerClickHandlers: int,
    subNavClickHandlers: int)

  /**
   * The whole widget: the outer heights of the top-level list's items, the
   * container's `responsive-nav` class, the trigger's `active` class, the
   * menu, the bindings, the closure's `isInitialized` and `isMobile`, and the
   * number of scrolls requested.
   */
  datatype State = State(
    topItems: seq<nat>,
    responsive: bool,
    triggerActive: bool,
    menu: Menu,
    bindings: Bindings,
    isInitialized: bool,
    isMobile: bool,
    scrollRequests: int)

  /** The page before the plugin runs: no class, no inline height, nothing bound. */
  function Initial(topItems: seq<nat>, shapes: seq<Shape>): (r: State)
    ensures r.topItems == topItems && |r.menu.subs| == |shapes|
    ensures forall j :: 0 <= j < |shapes| ==> r.menu.subs[j] == SubNav(shapes[j], false, false, Cleared)
    ensures !r.responsive && !r.triggerActive
    ensures !r.menu.open && !r.menu.parentOpenSub && r.menu.box == Cleared && r.menu.topLevelNavHeight == None
    ensures r.bindings == Bindings(false, 0, 0, 0, 0)
    ensures !r.isInitialized && !r.isMobile && r.scrollRequests == 0
  {
    var subs := seq(|shapes|, j requires 0 <= j < |shapes| => SubNav(shapes[j], false, false, Cleared));
    State(topItems, false, false, Menu(false, false, Cleared, subs, None),
          Bindings(false, 0, 0, 0, 0), false, false, 0)
  }

  predicate ValidTarget(m: Menu, t: Target) {
    t.Sub? ==> t.index < |m.subs|
  }

  /** The target carries the `open` class. */
  predicate IsOpen(m: Menu, t: Target)
    requires ValidTarget(m, t)
  {
    if t.Top? then m.open else m.subs[t.index].open
  }

  /** The target's parent element carries the `openSub` class. */
  predicate ParentMarked(m: Menu, t: Target)
    requires ValidTarget(m, t)
  {
    if t.Top? then m.parentOpenSub else m.subs[t.index].parentOpenSub
  }

  /** The two menus have the same nested lists, measured alike. */
  predicate SameShapes(a: seq<SubNav>, b: seq<SubNav>) {
    |a| == |b| && forall j :: 0 <= j < |a| ==> a[j].shape == b[j].shape
  }

  /** `targetEl.height()` of a nested list: its inline height, else its natural one. */
  function Rendered(l: SubNav): int {
    if l.box.maxHeight.Px? then l.box.maxHeight.pixels else l.shape.naturalHeight
  }

  /** `getMargins`: the top and bottom margins together. */
  function Margins(sh: Shape): int {
    sh.marginTop + sh.marginBottom
  }

  /** Sum of the item heights of every nested list. */
  function SubTotal(subs: seq<SubNav>): nat {
    if subs == [] then 0 else SubTotal(subs[..|subs| - 1]) + Sum(subs[|subs| - 1].shape.items)
  }

  /** Every nested list pinned to the height of its own items. */
  function ExpandAll(subs: seq<SubNav>): seq<SubNav> {
    seq(|subs|, j requires 0 <= j < |subs| => subs[j].(box := SetHeight(subs[j].box, Sum(subs[j].shape.items))))
  }

  /** Every nested list pinned to height 0. */
  function ZeroAll(subs: seq<SubNav>): seq<SubNav> {
    seq(|subs|, j requires 0 <= j < |subs| => subs[j].(box := SetHeight(subs[j].box, 0)))
  }

  /** Every nested list without `open` and without inline heights. */
  function ClearAll(subs: seq<SubNav>): seq<SubNav> {
    seq(|subs|, j requires 0 <= j < |subs| => subs[j].(open := false, box := Cleared))
  }

  /** A nested list after it is closed: no `open`, no `openSub` on its parent, pinned to 0. */
  function Closed(l: SubNav): SubNav {
    l.(open := false, parentOpenSub := false, box := SetHeight(l.box, 0))
  }

  /** With `subnavExpanded`, every close also zeroes every nested list. */
  function ZeroNested(st: Settings, m: Menu): Menu {
    if Expanded(st) then m.(subs := ZeroAll(m.subs)) else m
  }

  /**
   * `closeMenu(targetEl, isSubnav)`. The target loses `open`, its parent
   * loses `openSub`, and it is pinned to 0. Closing a nested list lowers the
   * container by the list's height before the close plus its margins, unless
   * that would take it below 0, in which case the container keeps its height.
   * With `subnavExpanded` every nested list is pinned to 0 as well.
   */
  function CloseMenu(st: Settings, m: Menu, t: Target): (r: Menu)
    requires ValidTarget(m, t)
    ensures SameShapes(m.subs, r.subs) && r.topLevelNavHeight == m.topLevelNavHeight
    ensures !IsOpen(r, t) && !ParentMarked(r, t)
    ensures forall j :: 0 <= j < |m.subs| ==>
              && r.subs[j].open == (m.subs[j].open && t != Sub(j))
              && r.subs[j].parentOpenSub == (m.subs[j].parentOpenSub && t != Sub(j))
    ensures t.Top? ==> r.box == Pin(0)
    ensures t.Sub? ==>
              var d := Rendered(m.subs[t.index]) + Margins(m.subs[t.index].shape);
              && r.open == m.open && r.parentOpenSub == m.parentOpenSub
              && r.subs[t.index].box == Pin(0)
              && r.box == RemoveHeight(m.box, d)
    ensures Expanded(st) ==> forall j :: 0 <= j < |r.subs| ==> r.subs[j].box == Pin(0)
    ensures !Expanded(st) ==> forall j :: 0 <= j < |r.subs| && t != Sub(j) ==> r.subs[j] == m.subs[j]
  {
    match t
    case Top =>
      ZeroNested(st, m.(open := false, parentOpenSub := false, box := SetHeight(m.box, 0)))
    case Sub(i) => CloseSub(st, m, i)
  }

  /** `closeMenu(targetEl, true)` on nested list `i`. */
  function CloseSub(st: Settings, m: Menu, i: nat): (r: Menu)
    requires i < |m.subs|
    ensures SameShapes(m.subs, r.subs)
    ensures r.open == m.open && r.parentOpenSub == m.parentOpenSub && r.topLevelNavHeight == m.topLevelNavHeight
  {
    var l := m.subs[i];
    var targetHeight := Rendered(l) + Margins(l.shape);
    ZeroNested(st, m.(subs := m.subs[i := Closed(l)], box := RemoveHeight(m.box, targetHeight)))
  }

  /**
   * The auto-collapse loop over the first `n` nested lists: each one whose
   * parent `li` has an index other than `idx` is closed as a nested list.
   */
  function CollapseOthers(st: Settings, m: Menu, idx: nat, n: nat): (r: Menu)
    requires n <= |m.subs|
    ensures SameShapes(m.subs, r.subs)
    ensures r.open == m.open && r.parentOpenSub == m.parentOpenSub
    ensures r.topLevelNavHeight == m.topLevelNavHeight
    decreases n
  {
    if n == 0 then m
    else
      var p := CollapseOthers(st, m, idx, n - 1);
      if p.subs[n - 1].shape.parentIndex != idx then CloseSub(st, p, n - 1) else p
  }

  /** With `subnavExpanded`, the each loop that pins every nested list to its own height. */
  function ExpandNested(st: Settings, m: Menu): (r: Menu)
    ensures SameShapes(m.subs, r.subs)
    ensures r.open == m.open && r.parentOpenSub == m.parentOpenSub && r.box == m.box
    ensures r.topLevelNavHeight == m.topLevelNavHeight
    ensures forall j :: 0 <= j < |m.subs| ==>
              r.subs[j].open == m.subs[j].open && r.subs[j].parentOpenSub == m.subs[j].parentOpenSub
  {
    if Expanded(st) then m.(subs := ExpandAll(m.subs)) else m
  }

  /** What that loop adds to the height being opened. */
  function NestedHeight(st: Settings, subs: seq<SubNav>): nat {
    if Expanded(st) then SubTotal(subs) else 0
  }

  /**
   * `openMenu($parent, false)`: the container gains `open`, its parent
   * `openSub`; it is pinned to the height of the top-level items plus
   * `verticalPadding` (which is cached), plus the nested lists' heights with
   * `subnavExpanded`. A negative total (a negative `verticalPadding`) is not
   * written and the container keeps its heights.
   */
  function OpenTop(st: Settings, topItems: seq<nat>, m: Menu): (r: Menu)
    ensures SameShapes(m.subs, r.subs)
    ensures r.open && r.parentOpenSub
    ensures r.topLevelNavHeight == Some(Sum(topItems) + st.verticalPadding)
    ensures var h := Sum(topItems) + st.verticalPadding + NestedHeight(st, m.subs);
      && (h >= 0 ==> r.box == Pin(h))
      && (h < 0 ==> r.box == m.box)
    ensures r.subs == (if Expanded(st) then ExpandAll(m.subs) else m.subs)
  {
    var menuHeight := Sum(topItems) + st.verticalPadding;
    var m1 := m.(open := true, parentOpenSub := true, topLevelNavHeight := Some(menuHeight));
    ExpandNested(st, m1).(box := SetHeight(m.box, menuHeight + NestedHeight(st, m1.subs)))
  }

  /** Nested list `i` and its parent `li` gain `open` and `openSub`. */
  function MarkOpen(m: Menu, i: nat): (r: Menu)
    requires i < |m.subs|
    ensures SameShapes(m.subs, r.subs)
    ensures r.open == m.open && r.parentOpenSub == m.parentOpenSub && r.box == m.box
    ensures r.topLevelNavHeight == m.topLevelNavHeight
    ensures r.subs[i].open && r.subs[i].parentOpenSub
    ensures forall j :: 0 <= j < |m.subs| && j != i ==> r.subs[j] == m.subs[j]
  {
    m.(subs := m.subs[i := m.subs[i].(open := true, parentOpenSub := true)])
  }

  /** Nested list `i` pinned to `h` and the container grown by `h`. */
  function ExpandInto(m: Menu, i: nat, h: nat): (r: Menu)
    requires i < |m.subs|
    ensures SameShapes(m.subs, r.subs)
    ensures r.open == m.open && r.parentOpenSub == m.parentOpenSub
    ensures r.topLevelNavHeight == m.topLevelNavHeight
    ensures r.subs[i].box == Pin(h)
    ensures NonNegative(m.box) ==> Base(r.box.minHeight) == Base(m.box.minHeight) + h
    ensures NonNegative(m.box) ==> Base(r.box.maxHeight) == Base(m.box.maxHeight) + h
    ensures forall j :: 0 <= j < |m.subs| ==>
              r.subs[j].open == m.subs[j].open && r.subs[j].parentOpenSub == m.subs[j].parentOpenSub
    ensures forall j :: 0 <= j < |m.subs| && j != i ==> r.subs[j] == m.subs[j]
  {
    m.(subs := m.subs[i := m.subs[i].(box := SetHeight(m.subs[i].box, h))], box := AddHeight(m.box, h))
  }

  /** With `autoCollapse`, the each loop that closes the nested lists under other indices. */
  function AutoCollapse(st: Settings, m: Menu, idx: nat): (r: Menu)
    ensures SameShapes(m.subs, r.subs)
    ensures r.open == m.open && r.parentOpenSub == m.parentOpenSub
    ensures r.topLevelNavHeight == m.topLevelNavHeight
  {
    if st.autoCollapse then CollapseOthers(st, m, idx, |m.subs|) else m
  }

  /**
   * `openMenu(targetEl, true)`: nested list `i` gains `open`, its parent
   * `openSub`; with `autoCollapse` every nested list whose parent `li` has
   * another index is closed; the list is pinned to the height of its items
   * (plus every nested list's height with `subnavExpanded`) and the
   * container grows by that height.
   */
  function OpenSub(st: Settings, m: Menu, i: nat): (r: Menu)
    requires i < |m.subs|
    ensures SameShapes(m.subs, r.subs)
    ensures r.open == m.open && r.parentOpenSub == m.parentOpenSub
    ensures r.topLevelNavHeight == m.topLevelNavHeight
  {
    var m2 := AutoCollapse(st, MarkOpen(m, i), m.subs[i].shape.parentIndex);
    ExpandInto(ExpandNested(st, m2), i, Sum(m.subs[i].shape.items) + NestedHeight(st, m2.subs))
  }

  /** `openMenu(targetEl, isSubnav)`, for the container or for a nested list. */
  function OpenMenu(st: Settings, topItems: seq<nat>, m: Menu, t: Target): (r: Menu)
    requires ValidTarget(m, t)
    ensures SameShapes(m.subs, r.subs)
  {
    match t
    case Top => OpenTop(st, topItems, m)
    case Sub(i) => OpenSub(st, m, i)
  }

  /**
   * `handleClick(target, isSubnav)`: a target without `open` is opened (and,
   * for the container with `scrollTo`, a scroll is requested); one with
   * `open` is closed. Nothing but the menu and the scroll requests changes.
   */
  function HandleClick(st: Settings, s: State, t: Target): (r: State)
    requires ValidTarget(s.menu, t)
    ensures SameShapes(s.menu.subs, r.menu.subs)
    ensures r == s.(menu := r.menu, scrollRequests := r.scrollRequests)
    ensures r.scrollRequests == s.scrollRequests + (if t.Top? && !s.menu.open && st.scrollTo then 1 else 0)
  {
    if !IsOpen(s.menu, t) then
      var s1 := s.(menu := OpenMenu(st, s.topItems, s.menu, t));
      if st.scrollTo && t.Top? then s1.(scrollRequests := s1.scrollRequests + 1) else s1
    else
      s.(menu := CloseMenu(st, s.menu, t))
  }

  /** The trigger's click handler: toggle `active`, then toggle the container. */
  function TriggerHandler(st: Settings, s: State): (r: State)
    ensures SameShapes(s.menu.subs, r.menu.subs)
    ensures r.triggerActive == !s.triggerActive
  {
    HandleClick(st, s.(triggerActive := !s.triggerActive), Top)
  }

  /** A sub-nav toggle's click handler: toggle the list after it, only while `isMobile`. */
  function ToggleHandler(st: Settings, s: State, i: nat): (r: State)
    requires i < |s.menu.subs|
    ensures SameShapes(s.menu.subs, r.menu.subs)
    ensures !s.isMobile ==> r == s
  {
    if s.isMobile then HandleClick(st, s, Sub(i)) else s
  }

  /** `addSubNavTrigger`: a toggle is inserted before every nested list. */
  function AddSubNavTrigger(b: Bindings): (r: Bindings)
    ensures r.subNavTrigger && r.triggerSpans == b.triggerSpans + 1
    ensures r == b.(subNavTrigger := true, triggerSpans := r.triggerSpans)
  {
    b.(subNavTrigger := true, triggerSpans := b.triggerSpans + 1)
  }

  /**
   * What `init` binds: the trigger's click, the sub-nav toggles unless they
   * are there and their click (both only when nested lists are toggled), and
   * the resize handler.
   */
  function BindInit(st: Settings, b: Bindings): (r: Bindings)
    ensures r.resizeHandlers == b.resizeHandlers + 1
    ensures r.triggerClickHandlers == b.triggerClickHandlers + 1
    ensures r.subNavClickHandlers == b.subNavClickHandlers + (if TogglesSubnavs(st) then 1 else 0)
    ensures r.subNavTrigger == (b.subNavTrigger || TogglesSubnavs(st))
    ensures r.triggerSpans == b.triggerSpans + (if TogglesSubnavs(st) && !b.subNavTrigger then 1 else 0)
  {
    var b1 := b.(triggerClickHandlers := b.triggerClickHandlers + 1);
    var b2 :=
      if TogglesSubnavs(st) then
        var b3 := if !b1.subNavTrigger then AddSubNavTrigger(b1) else b1;
        b3.(subNavClickHandlers := b3.subNavClickHandlers + 1)
      else b1;
    b2.(resizeHandlers := b2.resizeHandlers + 1)
  }

  /**
   * `init`: mark the container `responsive-nav`, bind what `BindInit` says,
   * and set `isInitialized`.
   */
  function Init(st: Settings, s: State): (r: State)
    ensures r.isInitialized && r.responsive && r.bindings == BindInit(st, s.bindings)
    ensures r.menu == s.menu && r.triggerActive == s.triggerActive && r.isMobile == s.isMobile
    ensures r.topItems == s.topItems && r.scrollRequests == s.scrollRequests
  {
    s.(responsive := true, bindings := BindInit(st, s.bindings), isInitialized := true)
  }

  /** What `destroy` does to the menu: no inline heights and no `open`, on the nested lists too with `hasSubnav`. */
  function Dismantle(st: Settings, m: Menu): (r: Menu)
    ensures !r.open && r.box == Cleared
    ensures r.parentOpenSub == m.parentOpenSub && r.topLevelNavHeight == m.topLevelNavHeight
    ensures SameShapes(m.subs, r.subs)
    ensures forall j :: 0 <= j < |r.subs| ==> r.subs[j].parentOpenSub == m.subs[j].parentOpenSub
    ensures st.hasSubnav ==> forall j :: 0 <= j < |r.subs| ==> !r.subs[j].open && r.subs[j].box == Cleared
    ensures !st.hasSubnav ==> r.subs == m.subs
  {
    var m1 := m.(box := Cleared, open := false);
    if st.hasSubnav then m1.(subs := ClearAll(m1.subs)) else m1
  }

  /** `destroy`: drop the `responsive-nav` class and dismantle the menu. */
  function Destroy(st: Settings, s: State): (r: State)
    ensures !r.responsive && r.menu == Dismantle(st, s.menu)
    ensures r.bindings == s.bindings && r.triggerActive == s.triggerActive
    ensures r.isInitialized == s.isInitialized && r.isMobile == s.isMobile
    ensures r.topItems == s.topItems && r.scrollRequests == s.scrollRequests
  {
    s.(responsive := false, menu := Dismantle(st, s.menu))
  }

  /**
   * `handleResize(width)`: at or below the breakpoint `isMobile` is set and
   * the plugin initialises the first time and only re-marks the container
   * afterwards; above it `isMobile` is cleared and an initialised plugin is
   * destroyed.
   */
  function HandleResize(st: Settings, s: State, width: int): (r: State)
    ensures r.isMobile == (width <= st.breakpoint)
    ensures r.isInitialized == (s.isInitialized || width <= st.breakpoint)
    ensures SameShapes(s.menu.subs, r.menu.subs)
    ensures width <= st.breakpoint && !s.isInitialized ==> r == Init(st, s.(isMobile := true))
    ensures width <= st.breakpoint && s.isInitialized ==> r == s.(isMobile := true, responsive := true)
    ensures width > st.breakpoint && s.isInitialized ==> r == Destroy(st, s.(isMobile := false))
    ensures width > st.breakpoint && !s.isInitialized ==> r == s.(isMobile := false)
  {
    if width <= st.breakpoint then
      var s1 := s.(isMobile := true);
      if !s.isInitialized then Init(st, s1) else s1.(responsive := true)
    else
      var s1 := s.(isMobile := false);
      if s.isInitialized then Destroy(st, s1) else s1
  }

  /**
   * The start-up block: at or below the breakpoint `isMobile` is set and the
   * plugin initialises; above it the sub-nav toggles are inserted (whatever
   * `hasSubnav` says) and the resize handler is bound.
   */
  function Start(st: Settings, s: State, width: int): (r: State)
    ensures r.bindings.resizeHandlers == s.bindings.resizeHandlers + 1
    ensures r.isInitialized == (s.isInitialized || width <= st.breakpoint)
    ensures r.isMobile == (s.isMobile || width <= st.breakpoint)
    ensures width > st.breakpoint ==> r.bindings.subNavTrigger && r.bindings.triggerSpans == s.bindings.triggerSpans + 1
    ensures width > st.breakpoint ==> r.responsive == s.responsive
    ensures width > st.breakpoint ==> r.bindings.triggerClickHandlers == s.bindings.triggerClickHandlers
    ensures r.menu == s.menu
  {
    if width <= st.breakpoint then Init(st, s.(isMobile := true))
    else
      var b1 := AddSubNavTrigger(s.bindings);
      s.(bindings := b1.(resizeHandlers := b1.resizeHandlers + 1))
  }

  /** A click on the trigger runs each of its `n` bound handlers in turn. */
  function RunTriggerHandlers(st: Settings, s: State, n: int): (r: State)
    ensures SameShapes(s.menu.subs, r.menu.subs)
    decreases n
  {
    if n <= 0 then s else TriggerHandler(st, RunTriggerHandlers(st, s, n - 1))
  }

  function TriggerClicked(st: Settings, s: State): State {
    RunTriggerHandlers(st, s, s.bindings.triggerClickHandlers)
  }

  /** A click on the toggle before list `i` runs each of its `n` bound handlers in turn. */
  function RunToggleHandlers(st: Settings, s: State, i: nat, n: int): (r: State)
    requires i < |s.menu.subs|
    ensures SameShapes(s.menu.subs, r.menu.subs)
    decreases n
  {
    if n <= 0 then s else ToggleHandler(st, RunToggleHandlers(st, s, i, n - 1), i)
  }

  function ToggleClicked(st: Settings, s: State, i: nat): State
    requires i < |s.menu.subs|
  {
    RunToggleHandlers(st, s, i, s.bindings.subNavClickHandlers)
  }

  /**
   * A window resize runs each of the `n` resize handlers bound when it is
   * dispatched; one bound meanwhile only runs from the next event on.
   */
  function RunResizeHandlers(st: Settings, s: State, width: int, n: int): (r: State)
    ensures SameShapes(s.menu.subs, r.menu.subs)
    decreases n
  {
    if n <= 0 then s else HandleResize(st, RunResizeHandlers(st, s, width, n - 1), width)
  }

  function WindowResized(st: Settings, s: State, width: int): State {
    RunResizeHandlers(st, s, width, s.bindings.resizeHandlers)
  }
}
