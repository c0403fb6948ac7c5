/** The route reconciler: from the previous and the current route stack, at most one
    navigation effect. Also the navigator as a stack of pages, so that what the
    reconciler decides can be compared with what the store asked for, and the rule that
    enables the side menu's swipe gesture. */
module Routes {
  import opened AppState

  /** A navigation decision: replace the whole stack, push a page, or pop the top page.
      `isSide` records whether the page being closed is a side page. */
  datatype RouteEffect = SetRoot(route: Route) | Push(route: Route) | Pop(isSide: bool)

  /** Side pages are closed without a transition animation. */
  predicate IsSideRoute(name: string) {
    name == "profile" || name == "support" || name == "transactions"
  }

  /** The decision for one pair of consecutive route stacks. Nothing happens while the
      top page keeps its name; otherwise a stack of one page becomes the new root, a
      shrunken stack pops, and any other stack pushes its top page. */
  function RouteEffects(prev: RouteStack, curr: RouteStack): (r: seq<RouteEffect>)
    ensures |r| <= 1
    ensures r == [] <==> Top(prev).name == Top(curr).name
    ensures r != [] ==> (r[0].SetRoot? <==> |curr| == 1)
    ensures r != [] ==> (r[0].Pop? <==> 1 < |curr| < |prev|)
    ensures r != [] && r[0].Pop? ==> r[0].isSide == IsSideRoute(Top(prev).name)
    ensures r != [] && !r[0].Pop? ==> r[0].route == Top(curr)
  {
    if Top(prev).name == Top(curr).name then []
    else if |curr| == 1 then [SetRoot(Top(curr))]
    else if |curr| < |prev| then [Pop(IsSideRoute(Top(prev).name))]
    else [Push(Top(curr))]
  }

  /** The navigator's own stack after one effect. Popping the root page leaves the
      stack as it is. */
  function Navigate(stack: RouteStack, e: RouteEffect): RouteStack {
    match e
    case SetRoot(r) => [r]
    case Push(r) => stack + [r]
    case Pop(_) => if |stack| <= 1 then stack else stack[..|stack| - 1]
  }

  /** The navigator's stack after a whole sequence of effects, applied in order. */
  function NavigateAll(stack: RouteStack, es: seq<RouteEffect>): RouteStack
    decreases |es|
  {
    if es == [] then stack else Navigate(NavigateAll(stack, es[..|es| - 1]), es[|es| - 1])
  }

  lemma {:induction false} NavigateAllAppend(stack: RouteStack, a: seq<RouteEffect>, b: seq<RouteEffect>)
    ensures NavigateAll(stack, a + b) == NavigateAll(NavigateAll(stack, a), b)
    decreases |b|
  {
    if b == [] {
      assert a + b == a;
    } else {
      var b' := b[..|b| - 1];
      assert (a + b)[..|a + b| - 1] == a + b';
      assert (a + b)[|a + b| - 1] == b[|b| - 1];
      NavigateAllAppend(stack, a, b');
    }
  }

  /** A change of route stack that one navigation step realises: nothing changed, or the
      top page changed name and the stack was reduced to one page, lost its top page, or
      gained one page. */
  predicate SingleStep(prev: RouteStack, curr: RouteStack)
  {
    prev == curr ||
    (Top(prev).name != Top(curr).name &&
     (|curr| == 1 || curr == prev[..|prev| - 1] || curr[..|curr| - 1] == prev))
  }

  /** For every single-step change, a navigator that shows the previous stack shows
      exactly the current stack once the decided effect has run. */
  lemma SingleStepIsRealised(prev: RouteStack, curr: RouteStack)
    requires SingleStep(prev, curr)
    ensures NavigateAll(prev, RouteEffects(prev, curr)) == curr
  {
    var es := RouteEffects(prev, curr);
    if es != [] {
      assert es[..0] == [];
      assert NavigateAll(prev, es) == Navigate(prev, es[0]);
      if |curr| == 1 {
        assert curr == [Top(curr)];
      } else if curr == prev[..|prev| - 1] {
        assert es[0].Pop?;
      } else {
        assert |curr| == |prev| + 1;
        assert curr == prev + [Top(curr)];
      }
    }
  }

  /** A known limitation of the code: a same-length change of the top page below the root is
      handled as a push, so the navigator ends one page deeper than the store. */
  lemma ReplacementBelowRootIsPushed(prev: RouteStack, curr: RouteStack)
    requires |prev| == |curr| >= 2 && Top(prev).name != Top(curr).name
    ensures RouteEffects(prev, curr) == [Push(Top(curr))]
    ensures NavigateAll(prev, RouteEffects(prev, curr)) == prev + [Top(curr)] != curr
  {
    var es := RouteEffects(prev, curr);
    assert es[..0] == [];
    assert |prev + [Top(curr)]| != |curr|;
  }

  /** A root or a pushed page ends on top of the navigator, whatever it showed before. */
  lemma RootAndPushShowCurrentTop(nav: RouteStack, prev: RouteStack, curr: RouteStack)
    requires RouteEffects(prev, curr) != [] && !RouteEffects(prev, curr)[0].Pop?
    ensures Top(NavigateAll(nav, RouteEffects(prev, curr))) == Top(curr)
  {
    var es := RouteEffects(prev, curr);
    assert es[..0] == [];
    assert es[0] in es;
  }

  /** The side menu's swipe gesture is off on the slide and welcome pages. */
  function SwipeEnabled(routes: RouteStack): (enabled: bool)
    ensures enabled <==> Top(routes).name !in {"slide", "welcome"}
  {
    Top(routes).name != "slide" && Top(routes).name != "welcome"
  }

  /** The swipe setting and the navigator move together: when no navigation effect is
      decided, the swipe setting does not change either, and after a root or a push it is
      the setting for the page the navigator now shows. */
  lemma SwipeFollowsNavigation(nav: RouteStack, prev: RouteStack, curr: RouteStack)
    ensures RouteEffects(prev, curr) == [] ==> SwipeEnabled(prev) == SwipeEnabled(curr)
    ensures RouteEffects(prev, curr) != [] && !RouteEffects(prev, curr)[0].Pop? ==>
              SwipeEnabled(NavigateAll(nav, RouteEffects(prev, curr))) == SwipeEnabled(curr)
  {
    if RouteEffects(prev, curr) != [] && !RouteEffects(prev, curr)[0].Pop? {
      RootAndPushShowCurrentTop(nav, prev, curr);
    }
  }
}
