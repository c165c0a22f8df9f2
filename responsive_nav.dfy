/**
 * The plugin instance: the variables its closure reassigns and the DOM state
 * its handlers change, as the fields of one object. Every handler runs to
 * completion and is proved to leave the object in the state the matching
 * function of module NavSpec describes.
 */
module Nav {
  import opened Heights
  import opened NavSpec
  import opened NavProperties

  class ResponsiveNav {
    const settings: Settings
    const scrollTarget: ScrollTarget
    /** Outer heights of the top-level list's items. */
    const topItems: seq<nat>

    /** The container's `responsive-nav` class. */
    var responsive: bool
    /** The trigger's `active` class. */
    var triggerActive: bool
    /** The container, the nested lists and the cached `topLevelNavHeight`. */
    var menu: Menu
    /** The inserted sub-nav toggles and the bound handlers. */
    var bindings: Bindings
    var isInitialized: bool
    var isMobile: bool
    /** Scrolls requested from `scrollToMenu`. */
    var scrollRequests: int

    ghost function View(): State
      reads this
    {
      State(topItems, responsive, triggerActive, menu, bindings, isInitialized, isMobile, scrollRequests)
    }

    ghost predicate Valid()
      reads this
    {
      Inv(settings, View()) && scrollTarget == ScrollTargetOf(settings.scrollTarget)
    }

    /**
     * `$(nav).responsiveNav(options)`: pick the scroll target, then run the
     * start-up block for the window's current width.
     */
    constructor (options: Settings, topItems: seq<nat>, shapes: seq<Shape>, width: int)
      ensures Valid() && settings == options
      ensures View() == Start(options, Initial(topItems, shapes), width)
    {
      settings := options;
      scrollTarget := ScrollTargetOf(options.scrollTarget);
      this.topItems := topItems;
      var s := Initial(topItems, shapes);
      responsive, triggerActive, menu, bindings := false, false, s.menu, s.bindings;
      isInitialized, isMobile, scrollRequests := false, false, 0;
      new;
      if width <= settings.breakpoint {
        isMobile := true;
        Init();
      } else {
        AddSubNavTrigger();
        InitDestroyOnResize();
      }
      StartEstablishesInv(options, topItems, shapes, width);
    }

    /** `init`. */
    method Init()
      modifies this`responsive, this`bindings, this`isInitialized
      ensures View() == NavSpec.Init(settings, old(View()))
    {
      responsive := true;
      bindings := bindings.(triggerClickHandlers := bindings.triggerClickHandlers + 1);
      if settings.hasSubnav && !settings.subnavExpanded {
        if !bindings.subNavTrigger {
          AddSubNavTrigger();
        }
        bindings := bindings.(subNavClickHandlers := bindings.subNavClickHandlers + 1);
      }
      InitDestroyOnResize();
      isInitialized := true;
    }

    /** `initDestroyOnResize`: bind one more resize handler. */
    method InitDestroyOnResize()
      modifies this`bindings
      ensures bindings == old(bindings).(resizeHandlers := old(bindings.resizeHandlers) + 1)
    {
      bindings := bindings.(resizeHandlers := bindings.resizeHandlers + 1);
    }

    /** `addSubNavTrigger`. */
    method AddSubNavTrigger()
      modifies this`bindings
      ensures bindings == NavSpec.AddSubNavTrigger(old(bindings))
    {
      bindings := bindings.(subNavTrigger := true, triggerSpans := bindings.triggerSpans + 1);
    }

    /** `create`. */
    method Create()
      modifies this`responsive
      ensures responsive
    {
      responsive := true;
    }

    /** `destroy`. */
    method Destroy()
      modifies this`responsive, this`menu
      ensures View() == NavSpec.Destroy(settings, old(View()))
    {
      menu := menu.(box := Cleared);
      responsive := false;
      menu := menu.(open := false);
      if settings.hasSubnav {
        menu := menu.(subs := ClearAll(menu.subs));
      }
    }

    /** `handleResize(width)`. */
    method HandleResize(width: int)
      modifies this`isMobile, this`responsive, this`bindings, this`isInitialized, this`menu
      ensures View() == NavSpec.HandleResize(settings, old(View()), width)
    {
      if width <= settings.breakpoint {
        isMobile := true;
        if !isInitialized {
          Init();
        } else {
          Create();
        }
      } else {
        isMobile := false;
        if isInitialized {
          Destroy();
        }
      }
    }

    /** `scrollToMenu`: the animation is not modelled, only the request. */
    method ScrollToMenu()
      modifies this`scrollRequests
      ensures scrollRequests == old(scrollRequests) + 1
    {
      scrollRequests := scrollRequests + 1;
    }

    /** The auto-collapse loop of `openMenu`: close every nested list under another index. */
    method CloseOthers(currentIndex: nat)
      modifies this`menu
      ensures menu == CollapseOthers(settings, old(menu), currentIndex, |old(menu.subs)|)
    {
      ghost var m0 := menu;
      var j: nat := 0;
      while j < |menu.subs|
        invariant |menu.subs| == |m0.subs| && j <= |menu.subs|
        invariant menu == CollapseOthers(settings, m0, currentIndex, j)
      {
        if menu.subs[j].shape.parentIndex != currentIndex {
          CloseMenu(Sub(j));
        }
        j := j + 1;
      }
    }

    /**
     * The `subnavExpanded` loop of `openMenu`: pin every nested list to the
     * height of its items and add that height to `menuHeight`.
     */
    method ExpandEach(menuHeight: int) returns (total: int)
      modifies this`menu
      ensures menu == old(menu).(subs := ExpandAll(old(menu.subs)))
      ensures total == menuHeight + SubTotal(old(menu.subs))
    {
      ghost var s0 := menu.subs;
      total := menuHeight;
      var k := 0;
      while k < |menu.subs|
        invariant menu == old(menu).(subs := menu.subs)
        invariant |menu.subs| == |s0| && 0 <= k <= |s0|
        invariant forall j :: 0 <= j < k ==> menu.subs[j] == ExpandAll(s0)[j]
        invariant forall j :: k <= j < |s0| ==> menu.subs[j] == s0[j]
        invariant total == menuHeight + SubTotal(s0[..k])
      {
        assert s0[..k + 1][..k] == s0[..k];
        var subHeight := GetNavHeight(menu.subs[k].shape.items);
        total := total + subHeight;
        menu := menu.(subs := menu.subs[k := menu.subs[k].(box := SetHeight(menu.subs[k].box, subHeight))]);
        k := k + 1;
      }
      assert menu.subs == ExpandAll(s0);
      assert s0[..k] == s0;
    }

    /** The `subnavExpanded` loop of `closeMenu`: pin every nested list to 0. */
    method ZeroEach()
      modifies this`menu
      ensures menu == old(menu).(subs := ZeroAll(old(menu.subs)))
    {
      ghost var s0 := menu.subs;
      var k := 0;
      while k < |menu.subs|
        invariant menu == old(menu).(subs := menu.subs)
        invariant |menu.subs| == |s0| && 0 <= k <= |s0|
        invariant forall j :: 0 <= j < k ==> menu.subs[j] == ZeroAll(s0)[j]
        invariant forall j :: k <= j < |s0| ==> menu.subs[j] == s0[j]
      {
        menu := menu.(subs := menu.subs[k := menu.subs[k].(box := SetHeight(menu.subs[k].box, 0))]);
        k := k + 1;
      }
      assert menu.subs == ZeroAll(s0);
    }

    /** `openMenu(targetEl, isSubnav)`. */
    method OpenMenu(t: Target)
      requires ValidTarget(menu, t)
      modifies this`menu
      ensures menu == NavSpec.OpenMenu(settings, topItems, old(menu), t)
    {
      if t.Top? {
        OpenTopLevel();
      } else {
        OpenSubLevel(t.index);
      }
    }

    /** `openMenu($parent, false)`. */
    method OpenTopLevel()
      modifies this`menu
      ensures menu == OpenTop(settings, topItems, old(menu))
    {
      menu := menu.(open := true, parentOpenSub := true);
      var menuHeight := GetNavHeight(topItems);
      menuHeight := menuHeight + settings.verticalPadding;
      menu := menu.(topLevelNavHeight := Some(menuHeight));
      menuHeight := ExpandNestedLists(menuHeight);
      menu := menu.(box := SetHeight(menu.box, menuHeight));
    }

    /** `openMenu(targetEl, true)`, up to the `subnavExpanded` loop: mark and collapse. */
    method MarkSubLevel(i: nat) returns (menuHeight: int)
      requires i < |menu.subs|
      modifies this`menu
      ensures menu == AutoCollapse(settings, MarkOpen(old(menu), i), old(menu.subs[i].shape.parentIndex))
      ensures menuHeight == Sum(old(menu.subs[i].shape.items))
    {
      menu := menu.(subs := menu.subs[i := menu.subs[i].(open := true, parentOpenSub := true)]);
      menuHeight := GetNavHeight(menu.subs[i].shape.items);
      if settings.autoCollapse {
        CloseOthers(menu.subs[i].shape.parentIndex);
      }
    }

    /** `openMenu(targetEl, true)` for nested list `i`. */
    method OpenSubLevel(i: nat)
      requires i < |menu.subs|
      modifies this`menu
      ensures menu == OpenSub(settings, old(menu), i)
    {
      var menuHeight := MarkSubLevel(i);
      menuHeight := ExpandNestedLists(menuHeight);
      ExpandTarget(i, menuHeight);
    }

    /** The `subnavExpanded` loop of `openMenu`, when that option is on. */
    method ExpandNestedLists(menuHeight: int) returns (total: int)
      modifies this`menu
      ensures menu == ExpandNested(settings, old(menu))
      ensures total == menuHeight + NestedHeight(settings, old(menu.subs))
    {
      total := menuHeight;
      if settings.hasSubnav && settings.subnavExpanded {
        total := ExpandEach(menuHeight);
      }
    }

    /** The end of `openMenu(targetEl, true)`: pin list `i` to `h` and grow the container by `h`. */
    method ExpandTarget(i: nat, h: nat)
      requires i < |menu.subs|
      modifies this`menu
      ensures menu == ExpandInto(old(menu), i, h)
    {
      menu := menu.(subs := menu.subs[i := menu.subs[i].(box := SetHeight(menu.subs[i].box, h))]);
      menu := menu.(box := AddHeight(menu.box, h));
    }

    /** `closeMenu(targetEl, isSubnav)`. */
    method CloseMenu(t: Target)
      requires ValidTarget(menu, t)
      modifies this`menu
      ensures menu == NavSpec.CloseMenu(settings, old(menu), t)
    {
      if t.Top? {
        menu := menu.(open := false, parentOpenSub := false, box := SetHeight(menu.box, 0));
      } else {
        var i := t.index;
        menu := menu.(subs := menu.subs[i := menu.subs[i].(open := false, parentOpenSub := false)]);
        var targetHeight := Rendered(menu.subs[i]) + Margins(menu.subs[i].shape);
        menu := menu.(subs := menu.subs[i := menu.subs[i].(box := SetHeight(menu.subs[i].box, 0))]);
        menu := menu.(box := RemoveHeight(menu.box, targetHeight));
      }
      if settings.hasSubnav && settings.subnavExpanded {
        ZeroEach();
      }
    }

    /** `handleClick(target, isSubnav)`. */
    method HandleClick(t: Target)
      requires ValidTarget(menu, t)
      modifies this`menu, this`scrollRequests
      ensures View() == NavSpec.HandleClick(settings, old(View()), t)
    {
      var isOpen := if t.Top? then menu.open else menu.subs[t.index].open;
      if !isOpen {
        OpenMenu(t);
        if settings.scrollTo && t.Top? {
          ScrollToMenu();
        }
      } else {
        CloseMenu(t);
      }
    }

    /** The trigger's click handler bound by `init`. */
    method OnTriggerClick()
      modifies this`menu, this`scrollRequests, this`triggerActive
      ensures View() == TriggerHandler(settings, old(View()))
    {
      triggerActive := !triggerActive;
      HandleClick(Top);
    }

    /** The sub-nav toggles' click handler bound by `init`, for the toggle before list `i`. */
    method OnToggleClick(i: nat)
      requires i < |menu.subs|
      modifies this`menu, this`scrollRequests
      ensures View() == ToggleHandler(settings, old(View()), i)
    {
      if isMobile {
        HandleClick(Sub(i));
      }
    }

    /** A click on the trigger: every bound trigger handler runs in turn. */
    method ClickTrigger()
      requires Valid()
      modifies this
      ensures Valid()
      ensures View() == TriggerClicked(settings, old(View()))
      ensures View() == if old(isInitialized) then TriggerHandler(settings, old(View())) else old(View())
    {
      ghost var s0 := View();
      var n := bindings.triggerClickHandlers;
      var k := 0;
      while k < n
        invariant 0 <= k <= n
        invariant View() == RunTriggerHandlers(settings, s0, k)
      {
        OnTriggerClick();
        k := k + 1;
      }
      TriggerClickedOnce(settings, s0);
    }

    /** A click on the toggle before list `i`: every bound toggle handler runs in turn. */
    method ClickToggle(i: nat)
      requires Valid() && i < |menu.subs|
      modifies this
      ensures Valid()
      ensures View() == ToggleClicked(settings, old(View()), i)
      ensures View() == if old(isMobile) && TogglesSubnavs(settings)
                        then NavSpec.HandleClick(settings, old(View()), Sub(i)) else old(View())
    {
      ghost var s0 := View();
      var n := bindings.subNavClickHandlers;
      var k := 0;
      while k < n
        invariant 0 <= k <= n && |menu.subs| == |s0.menu.subs|
        invariant View() == RunToggleHandlers(settings, s0, i, k)
      {
        OnToggleClick(i);
        k := k + 1;
      }
      ToggleClickedOnce(settings, s0, i);
    }

    /** A window resize: every resize handler bound when it fires runs in turn. */
    method ResizeWindow(width: int)
      requires Valid()
      modifies this
      ensures Valid()
      ensures View() == WindowResized(settings, old(View()), width)
      ensures View() == NavSpec.HandleResize(settings, old(View()), width)
    {
      ghost var s0 := View();
      var n := bindings.resizeHandlers;
      var k := 0;
      while k < n
        invariant 0 <= k <= n
        invariant View() == RunResizeHandlers(settings, s0, width, k)
      {
        HandleResize(width);
        k := k + 1;
      }
      WindowResizedOnce(settings, s0, width);
    }
  }
}
