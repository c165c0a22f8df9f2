/**
 * What the plugin's handlers guarantee, stated over the reference definitions
 * of module NavSpec: the toggle, the heights an open or a close writes, the
 * auto-collapse rule, the resize lifecycle and the invariants every event
 * keeps.
 */
module NavProperties {
  import opened Heights
  import opened NavSpec

  // ---------------------------------------------------------------------
  // Auto-collapse
  // ---------------------------------------------------------------------

  /** Among the first `n` nested lists, list `j` is one the auto-collapse loop closes. */
  predicate Collapses(subs: seq<SubNav>, idx: nat, n: nat, j: nat)
    requires j < |subs|
  {
    j < n && subs[j].shape.parentIndex != idx
  }

  /**
   * The container's height value after the auto-collapse loop over the first
   * `n` lists, starting from `h`: each close takes off the list's rendered
   * height and margins, unless that would leave a negative value, which the
   * page drops.
   */
  function Drained(subs: seq<SubNav>, idx: nat, n: nat, h: int): int
    requires n <= |subs|
  {
    if n == 0 then h
    else
      var p := Drained(subs, idx, n - 1, h);
      if subs[n - 1].shape.parentIndex != idx then Shifted(p, -(Rendered(subs[n - 1]) + Margins(subs[n - 1].shape))) else p
  }

  /** The loop never leaves a negative height behind a non-negative one. */
  lemma {:induction false} DrainedNonNegative(subs: seq<SubNav>, idx: nat, n: nat, h: int)
    requires n <= |subs| && h >= 0
    ensures Drained(subs, idx, n, h) >= 0
    decreases n
  {
    if n > 0 {
      DrainedNonNegative(subs, idx, n - 1, h);
    }
  }

  /**
   * While the container is tall enough for every close, the loop takes off
   * exactly the closed lists' heights and margins.
   */
  lemma {:induction false} DrainedExact(subs: seq<SubNav>, idx: nat, n: nat, h: int)
    requires n <= |subs|
    requires forall k :: 0 <= k < n ==> Rendered(subs[k]) + Margins(subs[k].shape) >= 0
    requires h >= ClosedHeight(subs, idx, n)
    ensures Drained(subs, idx, n, h) == h - ClosedHeight(subs, idx, n)
    decreases n
  {
    if n > 0 {
      DrainedExact(subs, idx, n - 1, h);
    }
  }

  /** What the auto-collapse loop over the first `n` lists would take off, with no floor. */
  function ClosedHeight(subs: seq<SubNav>, idx: nat, n: nat): int
    requires n <= |subs|
  {
    if n == 0 then 0
    else ClosedHeight(subs, idx, n - 1)
         + (if subs[n - 1].shape.parentIndex != idx then Rendered(subs[n - 1]) + Margins(subs[n - 1].shape) else 0)
  }

  /** The loop clears `open` and `openSub` exactly on the lists it closes. */
  lemma {:induction false} CollapseOthersFlags(st: Settings, m: Menu, idx: nat, n: nat)
    requires n <= |m.subs|
    ensures var r := CollapseOthers(st, m, idx, n);
      forall j :: 0 <= j < |m.subs| ==>
        && r.subs[j].open == (m.subs[j].open && !Collapses(m.subs, idx, n, j))
        && r.subs[j].parentOpenSub == (m.subs[j].parentOpenSub && !Collapses(m.subs, idx, n, j))
    decreases n
  {
    if n > 0 {
      CollapseOthersFlags(st, m, idx, n - 1);
      CollapseOthersFlagsStep(st, m, idx, n);
    }
  }

  /** One step of the loop: the close of list `n - 1`, if any, clears its flags and no others. */
  lemma CollapseOthersFlagsStep(st: Settings, m: Menu, idx: nat, n: nat)
    requires 0 < n <= |m.subs|
    requires var p := CollapseOthers(st, m, idx, n - 1);
      forall j :: 0 <= j < |m.subs| ==>
        && p.subs[j].open == (m.subs[j].open && !Collapses(m.subs, idx, n - 1, j))
        && p.subs[j].parentOpenSub == (m.subs[j].parentOpenSub && !Collapses(m.subs, idx, n - 1, j))
    ensures var r := CollapseOthers(st, m, idx, n);
      forall j :: 0 <= j < |m.subs| ==>
        && r.subs[j].open == (m.subs[j].open && !Collapses(m.subs, idx, n, j))
        && r.subs[j].parentOpenSub == (m.subs[j].parentOpenSub && !Collapses(m.subs, idx, n, j))
  {
    var p := CollapseOthers(st, m, idx, n - 1);
    if p.subs[n - 1].shape.parentIndex != idx {
      CloseSubFlags(st, p, n - 1);
    }
  }

  /** Closing nested list `i` clears `open` and `openSub` on it and on no other list. */
  lemma CloseSubFlags(st: Settings, m: Menu, i: nat)
    requires i < |m.subs|
    ensures var r := CloseSub(st, m, i);
      forall j :: 0 <= j < |m.subs| ==>
        && r.subs[j].open == (m.subs[j].open && j != i)
        && r.subs[j].parentOpenSub == (m.subs[j].parentOpenSub && j != i)
  {
  }

  /**
   * Without `subnavExpanded`, each list the loop closes ends up closed and
   * pinned to 0, and every other list is untouched.
   */
  lemma {:induction false} CollapseOthersLayout(st: Settings, m: Menu, idx: nat, n: nat)
    requires !Expanded(st) && n <= |m.subs|
    ensures var r := CollapseOthers(st, m, idx, n);
      forall j :: 0 <= j < |m.subs| ==>
        r.subs[j] == if Collapses(m.subs, idx, n, j) then Closed(m.subs[j]) else m.subs[j]
    decreases n
  {
    if n > 0 {
      CollapseOthersLayout(st, m, idx, n - 1);
    }
  }

  /** Without `subnavExpanded`, the loop over the first `n` lists leaves every later list as it was. */
  lemma {:induction false} CollapseOthersUntouched(st: Settings, m: Menu, idx: nat, n: nat, j: nat)
    requires !Expanded(st) && n <= j < |m.subs|
    ensures CollapseOthers(st, m, idx, n).subs[j] == m.subs[j]
    decreases n
  {
    if n > 0 {
      CollapseOthersUntouched(st, m, idx, n - 1, j);
    }
  }

  /**
   * Without `subnavExpanded`, the container loses the closed lists' heights
   * and margins, measured before the loop, one close at a time and never
   * below 0.
   */
  lemma {:induction false} CollapseOthersDrains(st: Settings, m: Menu, idx: nat, n: nat)
    requires !Expanded(st) && n <= |m.subs|
    ensures Base(CollapseOthers(st, m, idx, n).box.minHeight) == Drained(m.subs, idx, n, Base(m.box.minHeight))
    ensures Base(CollapseOthers(st, m, idx, n).box.maxHeight) == Drained(m.subs, idx, n, Base(m.box.maxHeight))
    decreases n
  {
    if n > 0 {
      CollapseOthersDrains(st, m, idx, n - 1);
      CollapseOthersDrainsStep(st, m, idx, n, Base(m.box.minHeight), Base(m.box.maxHeight));
    }
  }

  /** One step of the loop: the close of list `n - 1` shifts both heights as `Drained` does. */
  lemma CollapseOthersDrainsStep(st: Settings, m: Menu, idx: nat, n: nat, lo: int, hi: int)
    requires !Expanded(st) && 0 < n <= |m.subs|
    requires Base(CollapseOthers(st, m, idx, n - 1).box.minHeight) == Drained(m.subs, idx, n - 1, lo)
    requires Base(CollapseOthers(st, m, idx, n - 1).box.maxHeight) == Drained(m.subs, idx, n - 1, hi)
    ensures Base(CollapseOthers(st, m, idx, n).box.minHeight) == Drained(m.subs, idx, n, lo)
    ensures Base(CollapseOthers(st, m, idx, n).box.maxHeight) == Drained(m.subs, idx, n, hi)
  {
    CollapseOthersUntouched(st, m, idx, n - 1, n - 1);
    var p := CollapseOthers(st, m, idx, n - 1);
    if p.subs[n - 1].shape.parentIndex != idx {
      CloseSubShifts(st, p, n - 1);
    }
  }

  /** Closing nested list `i` shifts the container's heights down by its height and margins, never below 0. */
  lemma CloseSubShifts(st: Settings, m: Menu, i: nat)
    requires i < |m.subs|
    ensures var d := Rendered(m.subs[i]) + Margins(m.subs[i].shape);
      && Base(CloseSub(st, m, i).box.minHeight) == Shifted(Base(m.box.minHeight), -d)
      && Base(CloseSub(st, m, i).box.maxHeight) == Shifted(Base(m.box.maxHeight), -d)
  {
  }

  /** `Drained` only looks at the lists the loop closes. */
  lemma {:induction false} DrainedOnlyClosed(a: seq<SubNav>, b: seq<SubNav>, idx: nat, n: nat, h: int)
    requires SameShapes(a, b) && n <= |a|
    requires forall j :: 0 <= j < n && a[j].shape.parentIndex != idx ==> a[j] == b[j]
    ensures Drained(a, idx, n, h) == Drained(b, idx, n, h)
    decreases n
  {
    if n > 0 {
      DrainedOnlyClosed(a, b, idx, n - 1, h);
    }
  }

  /** The nested lists' parent items sit at distinct indices. */
  predicate DistinctParents(subs: seq<SubNav>) {
    forall a, b :: 0 <= a < b < |subs| ==> subs[a].shape.parentIndex != subs[b].shape.parentIndex
  }

  /** At most one nested list carries `open`. */
  predicate AtMostOneOpen(subs: seq<SubNav>) {
    forall a, b :: 0 <= a < b < |subs| && subs[a].open ==> !subs[b].open
  }

  /**
   * Opening a nested list marks it and its parent. With `autoCollapse`,
   * afterwards only lists under a parent item of the same index carry
   * `open` (only the opened one, when the indices are distinct); every other
   * list's flags are as before.
   */
  lemma OpenSubFlags(st: Settings, m: Menu, i: nat)
    requires i < |m.subs|
    ensures var r := OpenSub(st, m, i);
      && r.subs[i].open && r.subs[i].parentOpenSub
      && (st.autoCollapse ==> forall j :: 0 <= j < |r.subs| && r.subs[j].open ==>
            r.subs[j].shape.parentIndex == m.subs[i].shape.parentIndex)
      && (st.autoCollapse && DistinctParents(m.subs) ==> forall j :: 0 <= j < |r.subs| ==> (r.subs[j].open <==> j == i))
      && (!st.autoCollapse ==> forall j :: 0 <= j < |r.subs| && j != i ==>
            r.subs[j].open == m.subs[j].open && r.subs[j].parentOpenSub == m.subs[j].parentOpenSub)
  {
    var m1 := MarkOpen(m, i);
    if st.autoCollapse {
      CollapseOthersFlags(st, m1, m.subs[i].shape.parentIndex, |m1.subs|);
    }
  }

  /**
   * Without `subnavExpanded`: the opened list is pinned to the sum of its
   * items' heights; the container grows by that sum, and with `autoCollapse`
   * first shrinks by the height and margins of every list it closes, one
   * close at a time and never below 0.
   */
  lemma OpenSubHeights(st: Settings, m: Menu, i: nat)
    requires !Expanded(st) && i < |m.subs|
    ensures var r := OpenSub(st, m, i);
      var idx := m.subs[i].shape.parentIndex;
      var lo := if st.autoCollapse then Drained(m.subs, idx, |m.subs|, Base(m.box.minHeight)) else Base(m.box.minHeight);
      var hi := if st.autoCollapse then Drained(m.subs, idx, |m.subs|, Base(m.box.maxHeight)) else Base(m.box.maxHeight);
      && r.subs[i].box == Pin(Sum(m.subs[i].shape.items))
      && (NonNegative(m.box) ==> Base(r.box.minHeight) == lo + Sum(m.subs[i].shape.items))
      && (NonNegative(m.box) ==> Base(r.box.maxHeight) == hi + Sum(m.subs[i].shape.items))
      && forall j :: 0 <= j < |m.subs| && j != i ==>
           r.subs[j] == if st.autoCollapse && m.subs[j].shape.parentIndex != idx then Closed(m.subs[j]) else m.subs[j]
  {
    var idx := m.subs[i].shape.parentIndex;
    var m1 := MarkOpen(m, i);
    if st.autoCollapse {
      CollapseOthersLayout(st, m1, idx, |m1.subs|);
      CollapseOthersDrains(st, m1, idx, |m1.subs|);
      DrainedOnlyClosed(m1.subs, m.subs, idx, |m.subs|, Base(m.box.minHeight));
      DrainedOnlyClosed(m1.subs, m.subs, idx, |m.subs|, Base(m.box.maxHeight));
      if NonNegative(m.box) {
        DrainedNonNegative(m.subs, idx, |m.subs|, Base(m.box.minHeight));
        DrainedNonNegative(m.subs, idx, |m.subs|, Base(m.box.maxHeight));
      }
    }
  }

  // ---------------------------------------------------------------------
  // Toggle
  // ---------------------------------------------------------------------

  /**
   * A click on a target without `open` leaves it and its parent marked; on
   * one with `open`, it removes both marks.
   */
  lemma HandleClickToggles(st: Settings, s: State, t: Target)
    requires ValidTarget(s.menu, t)
    ensures var r := HandleClick(st, s, t);
      IsOpen(r.menu, t) == !IsOpen(s.menu, t) && ParentMarked(r.menu, t) == !IsOpen(s.menu, t)
  {
    if t.Sub? && !IsOpen(s.menu, t) {
      OpenSubFlags(st, s.menu, t.index);
    }
  }

  /**
   * The trigger's handler flips both the trigger's `active` and the
   * container's `open`, so it keeps them in step.
   */
  lemma TriggerKeepsStep(st: Settings, s: State)
    ensures var r := TriggerHandler(st, s);
      && r.triggerActive == !s.triggerActive && r.menu.open == !s.menu.open
      && r.menu.parentOpenSub == !s.menu.open
      && (s.triggerActive == s.menu.open ==> r.triggerActive == r.menu.open)
  {
    HandleClickToggles(st, s.(triggerActive := !s.triggerActive), Top);
  }

  /**
   * `destroy` removes `open` from the container but leaves the trigger's
   * `active`: an open menu destroyed leaves the two out of step.
   */
  lemma DestroyBreaksStep(st: Settings, s: State)
    requires s.menu.open && s.triggerActive
    ensures var r := Destroy(st, s);
      r.triggerActive && !r.menu.open
  {
  }

  /**
   * Opening the container then closing it clears both marks and pins it to
   * 0; the cached top-level height stays; with `subnavExpanded` every nested
   * list ends pinned to 0, otherwise the nested lists are as before.
   */
  lemma TopOpenCloseRoundTrip(st: Settings, topItems: seq<nat>, m: Menu)
    ensures var r := CloseMenu(st, OpenMenu(st, topItems, m, Top), Top);
      && !r.open && !r.parentOpenSub && r.box == Pin(0)
      && r.topLevelNavHeight == Some(Sum(topItems) + st.verticalPadding)
      && (Expanded(st) ==> forall j :: 0 <= j < |r.subs| ==> r.subs[j] == m.subs[j].(box := Pin(0)))
      && (!Expanded(st) ==> r.subs == m.subs)
  {
  }

  /**
   * Opening a nested list and closing it again, with neither `autoCollapse`
   * nor `subnavExpanded`, returns the list to closed at height 0 but does not
   * return the container to its height: the open adds only the items'
   * heights and the close takes the margins off too. A container at least
   * as tall as the margins ends lower by the margins; a shorter one cannot
   * take the close, which is dropped, and ends higher by the items' heights.
   */
  lemma SubOpenCloseDrift(st: Settings, topItems: seq<nat>, m: Menu, i: nat)
    requires !st.autoCollapse && !Expanded(st) && i < |m.subs|
    ensures var r := CloseMenu(st, OpenMenu(st, topItems, m, Sub(i)), Sub(i));
      && r.subs[i] == Closed(m.subs[i])
      && (forall j :: 0 <= j < |m.subs| && j != i ==> r.subs[j] == m.subs[j])
      && var margins := Margins(m.subs[i].shape);
      var items := Sum(m.subs[i].shape.items);
      && (NonNegative(m.box) ==>
            Base(r.box.minHeight) ==
              if Base(m.box.minHeight) >= margins then Base(m.box.minHeight) - margins else Base(m.box.minHeight) + items)
      && (NonNegative(m.box) ==>
            Base(r.box.maxHeight) ==
              if Base(m.box.maxHeight) >= margins then Base(m.box.maxHeight) - margins else Base(m.box.maxHeight) + items)
  {
    OpenSubHeights(st, m, i);
  }

  // ---------------------------------------------------------------------
  // Resize lifecycle and start-up
  // ---------------------------------------------------------------------

  /** A repeated resize to the same width changes nothing more. */
  lemma HandleResizeIdempotent(st: Settings, s: State, width: int)
    ensures HandleResize(st, HandleResize(st, s, width), width) == HandleResize(st, s, width)
  {
    var r := HandleResize(st, s, width);
    if width > st.breakpoint && s.isInitialized && st.hasSubnav {
      assert ClearAll(r.menu.subs) == r.menu.subs;
    }
  }

  /** However many resize handlers are bound, a resize acts as one `handleResize`. */
  lemma {:induction false} ResizeHandlersActOnce(st: Settings, s: State, width: int, n: int)
    requires n >= 1
    ensures RunResizeHandlers(st, s, width, n) == HandleResize(st, s, width)
    decreases n
  {
    if n > 1 {
      ResizeHandlersActOnce(st, s, width, n - 1);
      HandleResizeIdempotent(st, s, width);
    }
  }

  /**
   * Starting at or below the breakpoint binds the resize handler once;
   * starting above it binds it once and inserts the sub-nav toggles, even
   * without `hasSubnav`. A first resize to at or below the breakpoint after a
   * start above it binds the handler a second time, and never inserts the
   * toggles again.
   */
  lemma StartupBindings(st: Settings, topItems: seq<nat>, shapes: seq<Shape>, w0: int, w1: int)
    ensures var s0 := Start(st, Initial(topItems, shapes), w0);
      var s1 := WindowResized(st, s0, w1);
      && s0.bindings.resizeHandlers == 1
      && (w0 > st.breakpoint ==> s0.bindings.subNavTrigger && s0.bindings.triggerSpans == 1)
      && s1.bindings.resizeHandlers == (if w0 > st.breakpoint && w1 <= st.breakpoint then 2 else 1)
      && s1.bindings.triggerSpans == (if s1.bindings.subNavTrigger then 1 else 0)
  {
    var s0 := Start(st, Initial(topItems, shapes), w0);
    ResizeHandlersActOnce(st, s0, w1, 1);
  }

  // ---------------------------------------------------------------------
  // The invariant every event keeps
  // ---------------------------------------------------------------------

  /** An element's min-height equals its max-height and neither is below 0. */
  predicate Sound(b: Box) {
    Balanced(b) && NonNegative(b)
  }

  /** Every element's inline heights are sound. */
  predicate HeightsSound(m: Menu) {
    Sound(m.box) && forall j :: 0 <= j < |m.subs| ==> Sound(m.subs[j].box)
  }

  /**
   * The sub-nav toggles inserted at most once; the trigger's click bound
   * once, and the toggles' click bound once when nested lists are toggled,
   * both exactly when initialised; one or two resize handlers, two only once
   * initialised.
   */
  predicate BindingsValid(st: Settings, b: Bindings, initialized: bool) {
    && b.triggerSpans == (if b.subNavTrigger then 1 else 0)
    && b.triggerClickHandlers == (if initialized then 1 else 0)
    && b.subNavClickHandlers == (if initialized && TogglesSubnavs(st) then 1 else 0)
    && 1 <= b.resizeHandlers <= (if initialized then 2 else 1)
    && (initialized && TogglesSubnavs(st) ==> b.subNavTrigger)
  }

  /** After start-up: heights sound, bindings as above, `isMobile` only once initialised. */
  predicate Inv(st: Settings, s: State) {
    && HeightsSound(s.menu)
    && BindingsValid(st, s.bindings, s.isInitialized)
    && (s.isMobile ==> s.isInitialized)
  }

  lemma StartEstablishesInv(st: Settings, topItems: seq<nat>, shapes: seq<Shape>, width: int)
    ensures Inv(st, Start(st, Initial(topItems, shapes), width))
  {
  }

  lemma {:induction false} CollapseOthersSound(st: Settings, m: Menu, idx: nat, n: nat)
    requires HeightsSound(m) && n <= |m.subs|
    ensures HeightsSound(CollapseOthers(st, m, idx, n))
    decreases n
  {
    if n > 0 {
      CollapseOthersSound(st, m, idx, n - 1);
      var p := CollapseOthers(st, m, idx, n - 1);
      if p.subs[n - 1].shape.parentIndex != idx {
        CloseSound(st, p, Sub(n - 1));
      }
    }
  }

  /**
   * Every height `openMenu` writes keeps min-height equal to max-height and
   * neither below 0.
   */
  lemma OpenSound(st: Settings, topItems: seq<nat>, m: Menu, t: Target)
    requires HeightsSound(m) && ValidTarget(m, t)
    ensures HeightsSound(OpenMenu(st, topItems, m, t))
  {
    if t.Sub? {
      var i := t.index;
      var m1 := MarkOpen(m, i);
      assert HeightsSound(m1);
      if st.autoCollapse {
        CollapseOthersSound(st, m1, m.subs[i].shape.parentIndex, |m1.subs|);
      }
      var m2 := AutoCollapse(st, m1, m.subs[i].shape.parentIndex);
      assert HeightsSound(m2);
      var m3 := ExpandNested(st, m2);
      assert HeightsSound(m3);
    }
  }

  /**
   * Every height `closeMenu` writes keeps min-height equal to max-height and
   * neither below 0.
   */
  lemma CloseSound(st: Settings, m: Menu, t: Target)
    requires HeightsSound(m) && ValidTarget(m, t)
    ensures HeightsSound(CloseMenu(st, m, t))
  {
  }

  lemma ClickSound(st: Settings, s: State, t: Target)
    requires HeightsSound(s.menu) && ValidTarget(s.menu, t)
    ensures HeightsSound(HandleClick(st, s, t).menu)
  {
    if IsOpen(s.menu, t) {
      CloseSound(st, s.menu, t);
    } else {
      OpenSound(st, s.topItems, s.menu, t);
    }
  }

  /** `handleResize` keeps the invariant. */
  lemma HandleResizeKeepsInv(st: Settings, s: State, width: int)
    requires Inv(st, s)
    ensures Inv(st, HandleResize(st, s, width))
  {
    if width > st.breakpoint && s.isInitialized {
      assert HeightsSound(Dismantle(st, s.menu));
    }
  }

  /** A click on the trigger acts once, and only once initialised. */
  lemma TriggerClickedOnce(st: Settings, s: State)
    requires Inv(st, s)
    ensures TriggerClicked(st, s) == if s.isInitialized then TriggerHandler(st, s) else s
    ensures Inv(st, TriggerClicked(st, s))
  {
    if s.isInitialized {
      ClickSound(st, s.(triggerActive := !s.triggerActive), Top);
    }
  }

  /**
   * A click on a sub-nav toggle acts once, and only when the plugin is
   * initialised, toggles nested lists, and `isMobile` holds.
   */
  lemma ToggleClickedOnce(st: Settings, s: State, i: nat)
    requires Inv(st, s) && i < |s.menu.subs|
    ensures ToggleClicked(st, s, i) ==
              if s.isMobile && TogglesSubnavs(st) then HandleClick(st, s, Sub(i)) else s
    ensures Inv(st, ToggleClicked(st, s, i))
  {
    if s.isMobile && TogglesSubnavs(st) {
      ClickSound(st, s, Sub(i));
    }
  }

  /**
   * With the default options the page starts initialised exactly at widths up
   * to 720, the toggles are inserted only when it starts wider, and a click
   * on a toggle never acts, since nested lists are not toggled by default.
   */
  lemma DefaultsStart(topItems: seq<nat>, shapes: seq<Shape>, width: int, i: nat)
    requires i < |shapes|
    ensures var s := Start(Defaults(), Initial(topItems, shapes), width);
      && s.isInitialized == (width <= 720)
      && s.bindings.subNavTrigger == (width > 720)
      && s.bindings.subNavClickHandlers == 0
      && ToggleClicked(Defaults(), s, i) == s
  {
    var s := Start(Defaults(), Initial(topItems, shapes), width);
    StartEstablishesInv(Defaults(), topItems, shapes, width);
    ToggleClickedOnce(Defaults(), s, i);
  }

  /** A resize acts as one `handleResize`, and keeps the invariant. */
  lemma WindowResizedOnce(st: Settings, s: State, width: int)
    requires Inv(st, s)
    ensures WindowResized(st, s, width) == HandleResize(st, s, width)
    ensures Inv(st, WindowResized(st, s, width))
  {
    ResizeHandlersActOnce(st, s, width, s.bindings.resizeHandlers);
    HandleResizeKeepsInv(st, s, width);
  }

  /** The public `openMenu` and `closeMenu` keep the invariant too. */
  lemma OpenCloseKeepInv(st: Settings, s: State, t: Target)
    requires Inv(st, s) && ValidTarget(s.menu, t)
    ensures Inv(st, s.(menu := OpenMenu(st, s.topItems, s.menu, t)))
    ensures Inv(st, s.(menu := CloseMenu(st, s.menu, t)))
  {
    OpenSound(st, s.topItems, s.menu, t);
    CloseSound(st, s.menu, t);
  }

  /** `isInitialized` is never reset, by any event. */
  lemma InitializedStays(st: Settings, s: State, width: int, i: nat)
    requires Inv(st, s) && s.isInitialized && i < |s.menu.subs|
    ensures TriggerClicked(st, s).isInitialized
    ensures ToggleClicked(st, s, i).isInitialized
    ensures WindowResized(st, s, width).isInitialized
  {
    TriggerClickedOnce(st, s);
    ToggleClickedOnce(st, s, i);
    WindowResizedOnce(st, s, width);
  }

  /**
   * With `autoCollapse` and parent items at distinct indices, no event ever
   * leaves two nested lists open.
   */
  lemma TriggerKeepsOneOpen(st: Settings, s: State)
    requires Inv(st, s) && AtMostOneOpen(s.menu.subs)
    ensures AtMostOneOpen(TriggerClicked(st, s).menu.subs)
  {
    TriggerClickedOnce(st, s);
  }

  lemma ToggleKeepsOneOpen(st: Settings, s: State, i: nat)
    requires Inv(st, s) && st.autoCollapse && DistinctParents(s.menu.subs) && AtMostOneOpen(s.menu.subs)
    requires i < |s.menu.subs|
    ensures AtMostOneOpen(ToggleClicked(st, s, i).menu.subs)
  {
    ToggleClickedOnce(st, s, i);
    if s.isMobile && TogglesSubnavs(st) && !s.menu.subs[i].open {
      OpenSubFlags(st, s.menu, i);
    }
  }

  lemma ResizeKeepsOneOpen(st: Settings, s: State, width: int)
    requires Inv(st, s) && AtMostOneOpen(s.menu.subs)
    ensures AtMostOneOpen(WindowResized(st, s, width).menu.subs)
  {
    WindowResizedOnce(st, s, width);
  }
}
