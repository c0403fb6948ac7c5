/** The effect executor of the app shell: one handle slot per overlay kind, and, for
    each external primitive (the navigator and the three overlay controllers), the calls
    made on it in the order they were issued. Each arriving snapshot is paired with the
    one before it and every category is reconciled and executed, one effect completing
    before the next. */
module Executor {
  import opened AppState
  import opened Routes
  import opened Overlays
  import opened Sequencing

  /** An overlay created through a controller; `id` tells handles apart. */
  datatype Handle = Handle(id: nat, content: string)

  /** One call on the navigator. */
  datatype NavCall =
    | NavSetRoot(name: string, params: Params, animate: bool)
    | NavPush(name: string, params: Params)
    | NavPop(animate: bool)

  /** One call on an overlay handle. */
  datatype OverlayCall = Present(handle: Handle) | Dismiss(handle: Handle)

  /** The navigator call that realises a route effect: a new root is set without
      animation, and a pop animates unless it closes a side page. */
  function NavCallOf(e: RouteEffect): (c: NavCall)
    ensures c.NavSetRoot? <==> e.SetRoot?
    ensures c.NavPush? <==> e.Push?
    ensures c.NavSetRoot? ==> !c.animate
    ensures e.Pop? ==> c == NavPop(!e.isSide)
    ensures !e.Pop? ==> c.name == e.route.name && c.params == e.route.params
  {
    match e
    case SetRoot(r) => NavSetRoot(r.name, r.params, false)
    case Push(r) => NavPush(r.name, r.params)
    case Pop(isSide) => NavPop(!isSide)
  }

  function NavCalls(es: seq<RouteEffect>): seq<NavCall>
    decreases |es|
  {
    if es == [] then [] else NavCalls(es[..|es| - 1]) + [NavCallOf(es[|es| - 1])]
  }

  lemma {:induction false} NavCallsAppend(a: seq<RouteEffect>, b: seq<RouteEffect>)
    ensures NavCalls(a + b) == NavCalls(a) + NavCalls(b)
    decreases |b|
  {
    if b == [] {
      assert a + b == a;
    } else {
      var b' := b[..|b| - 1];
      assert (a + b)[..|a + b| - 1] == a + b';
      assert (a + b)[|a + b| - 1] == b[|b| - 1];
      NavCallsAppend(a, b');
    }
  }

  /** The navigator call issued for each pair of route stacks: none while the top page
      keeps its name, a root without animation for a one-page stack, a pop animated
      unless the page closed is a side page, and otherwise a push of the current top page
      with its parameters. */
  lemma NavigationCallsFor(prev: RouteStack, curr: RouteStack)
    ensures Top(prev).name == Top(curr).name ==> NavCalls(RouteEffects(prev, curr)) == []
    ensures Top(prev).name != Top(curr).name && |curr| == 1 ==>
              NavCalls(RouteEffects(prev, curr)) == [NavSetRoot(Top(curr).name, Top(curr).params, false)]
    ensures Top(prev).name != Top(curr).name && 1 < |curr| < |prev| ==>
              NavCalls(RouteEffects(prev, curr)) == [NavPop(!IsSideRoute(Top(prev).name))]
    ensures Top(prev).name != Top(curr).name && |curr| != 1 && |prev| <= |curr| ==>
              NavCalls(RouteEffects(prev, curr)) == [NavPush(Top(curr).name, Top(curr).params)]
  {
    var es := RouteEffects(prev, curr);
    if es != [] {
      assert es[..0] == [];
    }
  }

  /** The overlay step a call performs: presenting shows its content, dismissing hides. */
  function StepOf(c: OverlayCall): OverlayStep {
    match c
    case Present(h) => Show(h.content)
    case Dismiss(_) => Hide
  }

  /** The calls on one overlay controller, handles erased to their contents. */
  function Steps(cs: seq<OverlayCall>): seq<OverlayStep>
    decreases |cs|
  {
    if cs == [] then [] else Steps(cs[..|cs| - 1]) + [StepOf(cs[|cs| - 1])]
  }

  lemma {:induction false} StepsAppend(a: seq<OverlayCall>, b: seq<OverlayCall>)
    ensures Steps(a + b) == Steps(a) + Steps(b)
    decreases |b|
  {
    if b == [] {
      assert a + b == a;
    } else {
      var b' := b[..|b| - 1];
      assert (a + b)[..|a + b| - 1] == a + b';
      assert (a + b)[|a + b| - 1] == b[|b| - 1];
      StepsAppend(a, b');
    }
  }

  /** What the calls on an overlay controller leave requested once they have all
      completed. */
  function Screen(cs: seq<OverlayCall>): Surface {
    Play(Hidden, Steps(cs))
  }

  /** The calls the overlay reconciler's callbacks issue for one pair of states of kind
      `k`, given the handle in the slot and the identity the next handle gets: a
      dismissal of the slot's handle if the overlay was shown, then the presentation of a
      new handle if it is to be shown (the modal's show issues nothing). */
  function UICalls(k: Kind, slot: Option<Handle>, next: nat, prev: Overlay, curr: Overlay): (cs: seq<OverlayCall>)
    requires prev.isShown ==> slot.Some?
    ensures |cs| == (if prev.isShown then 1 else 0) + (if curr.isShown && k != Modal then 1 else 0)
    ensures prev.isShown ==> cs[0] == Dismiss(slot.value)
    ensures curr.isShown && k != Modal ==> cs[|cs| - 1] == Present(Handle(next, curr.content))
  {
    (if prev.isShown then [Dismiss(slot.value)] else []) +
    (if curr.isShown && k != Modal then [Present(Handle(next, curr.content))] else [])
  }

  /** The callbacks realise the reconciler's decision: the controller of kind `k`
      performs exactly the decided steps (the modal's show is dropped), every dismissal
      targets the handle held in the slot, and every presentation a new handle. */
  lemma UICallsRealiseDecision(k: Kind, slot: Option<Handle>, next: nat, prev: Overlay, curr: Overlay)
    requires prev.isShown ==> slot.Some?
    ensures k != Modal ==> Steps(UICalls(k, slot, next, prev, curr)) == OverlayEffects(prev, curr)
    ensures k == Modal ==> Steps(UICalls(k, slot, next, prev, curr)) == if prev.isShown then [Hide] else []
    ensures forall c <- UICalls(k, slot, next, prev, curr) :: c.Dismiss? ==> c.handle == slot.value
    ensures forall c <- UICalls(k, slot, next, prev, curr) :: c.Present? ==> c.handle.id == next
  {
    var cs := UICalls(k, slot, next, prev, curr);
    if |cs| == 2 {
      assert cs == [cs[0], cs[1]];
      StepsOfTwo(cs[0], cs[1]);
    } else if |cs| == 1 {
      assert cs == [cs[0]];
      StepsOfOne(cs[0]);
    }
  }

  lemma StepsOfOne(c: OverlayCall)
    ensures Steps([c]) == [StepOf(c)]
  {
    assert [c][..0] == [];
  }

  lemma StepsOfTwo(c0: OverlayCall, c1: OverlayCall)
    ensures Steps([c0, c1]) == [StepOf(c0), StepOf(c1)]
  {
    assert [c0, c1][..1] == [c0];
    StepsOfOne(c0);
  }

  /** Steps that leave the previous state's view requested, followed by the reconciler's
      steps for the pair, leave the current state's view requested. */
  lemma ReplayTracks(steps: seq<OverlayStep>, prev: Overlay, curr: Overlay)
    requires Play(Hidden, steps) == View(prev)
    ensures Play(Hidden, steps + OverlayEffects(prev, curr)) == View(curr)
  {
    PlayAppend(Hidden, steps, OverlayEffects(prev, curr));
    OverlayEffectsTrack(prev, curr);
  }

  /** Appending the calls for one pair of states to a controller's log extends its steps
      by the reconciler's decision, and moves what it shows from the previous state's
      view to the current one's. */
  lemma UICallsAdvance(before: seq<OverlayCall>, k: Kind, slot: Option<Handle>, next: nat, prev: Overlay, curr: Overlay)
    requires k != Modal && (prev.isShown ==> slot.Some?)
    ensures Steps(before + UICalls(k, slot, next, prev, curr)) == Steps(before) + OverlayEffects(prev, curr)
    ensures Screen(before) == View(prev) ==> Screen(before + UICalls(k, slot, next, prev, curr)) == View(curr)
  {
    StepsAppend(before, UICalls(k, slot, next, prev, curr));
    UICallsRealiseDecision(k, slot, next, prev, curr);
    if Screen(before) == View(prev) {
      ReplayTracks(Steps(before), prev, curr);
    }
  }

  /** The calls kind `k`'s subscription makes when a snapshot arrives: none when the
      store kept the slice's state object, otherwise the callbacks' calls for the pair. */
  function ChangeCalls(k: Kind, slot: Option<Handle>, next: nat, prev: Overlay, curr: Overlay): seq<OverlayCall>
    requires prev != curr && prev.isShown ==> slot.Some?
  {
    if prev == curr then [] else UICalls(k, slot, next, prev, curr)
  }

  /** Whether kind `k`'s subscription creates and presents a handle when a snapshot
      arrives: the slice was replaced by a shown state, and the kind is not the modal. */
  predicate Presents(k: Kind, prev: Overlay, curr: Overlay) {
    prev != curr && curr.isShown && k != Modal
  }

  /** On an arrival, the subscription dismisses the slot's handle exactly when a shown
      slice was replaced, and presents a new handle exactly when it presents at all; an
      unchanged slice, shown or not, costs no call and needs no handle in the slot. */
  lemma ChangeCallsDismissThenPresent(k: Kind, slot: Option<Handle>, next: nat, prev: Overlay, curr: Overlay)
    requires prev != curr && prev.isShown ==> slot.Some?
    ensures var cs := ChangeCalls(k, slot, next, prev, curr);
      && |cs| == (if prev != curr && prev.isShown then 1 else 0) + (if Presents(k, prev, curr) then 1 else 0)
      && (prev != curr && prev.isShown ==> cs[0] == Dismiss(slot.value))
      && (Presents(k, prev, curr) ==> cs[|cs| - 1] == Present(Handle(next, curr.content)))
  {
  }

  /** Appending the subscription's calls for one arrival to a controller's log extends
      its steps by what the subscription decides: nothing for an unchanged slice, the
      reconciler's decision for a replaced one. */
  lemma ChangeCallsAdvance(before: seq<OverlayCall>, k: Kind, slot: Option<Handle>, next: nat, prev: Overlay, curr: Overlay)
    requires k != Modal && (prev != curr && prev.isShown ==> slot.Some?)
    ensures Steps(before + ChangeCalls(k, slot, next, prev, curr)) == Steps(before) + ChangeEffects(prev, curr)
  {
    if prev == curr {
      AppendEmpty(before);
      AppendEmpty(Steps(before));
    } else {
      UICallsAdvance(before, k, slot, next, prev, curr);
    }
  }

  /** A navigator log that holds the calls for the route trace of the first `i`
      snapshots, extended by the calls for the next pair, holds the calls for the route
      trace of the first `i + 1`. */
  lemma NavLogGrows(snaps: seq<Snapshot>, i: nat, base: seq<NavCall>, mid: seq<NavCall>, after: seq<NavCall>)
    requires 1 <= i < |snaps|
    requires mid == base + NavCalls(RouteTrace(Pairs(snaps[..i])))
    requires after == mid + NavCalls(RouteEffects(snaps[i - 1].routes, snaps[i].routes))
    ensures after == base + NavCalls(RouteTrace(Pairs(snaps[..i + 1])))
  {
    var ps := Pairs(snaps[..i]);
    var es := RouteEffects(snaps[i - 1].routes, snaps[i].routes);
    TakeOneMore(snaps, i);
    PairsAppend(snaps[..i], snaps[i]);
    RouteTraceAppend(ps, (snaps[i - 1], snaps[i]));
    NavCallsAppend(RouteTrace(ps), es);
    AppendAssoc(base, NavCalls(RouteTrace(ps)), NavCalls(es));
  }

  /** The same for the steps performed by the controller of overlay kind `k`. */
  lemma StepsGrow(snaps: seq<Snapshot>, i: nat, k: Kind, base: seq<OverlayCall>, mid: seq<OverlayCall>, after: seq<OverlayCall>)
    requires 1 <= i < |snaps|
    requires Steps(mid) == Steps(base) + OverlayTrace(Pairs(snaps[..i]), k)
    requires Steps(after) == Steps(mid) + ChangeEffects(snaps[i - 1].OverlayOf(k), snaps[i].OverlayOf(k))
    ensures Steps(after) == Steps(base) + OverlayTrace(Pairs(snaps[..i + 1]), k)
  {
    var ps := Pairs(snaps[..i]);
    TakeOneMore(snaps, i);
    PairsAppend(snaps[..i], snaps[i]);
    OverlayTraceAppend(ps, (snaps[i - 1], snaps[i]), k);
    AppendAssoc(Steps(base), OverlayTrace(ps, k), ChangeEffects(snaps[i - 1].OverlayOf(k), snaps[i].OverlayOf(k)));
  }

  lemma OverlayOfKinds(s: Snapshot)
    ensures s.OverlayOf(Toast) == s.toast && s.OverlayOf(Loader) == s.loader
  {
  }

  lemma AppendEmpty<T>(a: seq<T>)
    ensures a + [] == a
  {
  }

  lemma AppendAssoc<T>(a: seq<T>, b: seq<T>, c: seq<T>)
    ensures a + b + c == a + (b + c)
  {
  }

  /** A controller whose calls left requested what the first snapshot asks for, once it
      has performed the steps decided over the run, leaves requested what the last
      snapshot asks for. */
  lemma ScreenAfterRun(before: seq<OverlayCall>, after: seq<OverlayCall>, snaps: seq<Snapshot>, k: Kind)
    requires |snaps| > 0
    requires Screen(before) == View(snaps[0].OverlayOf(k))
    requires Steps(after) == Steps(before) + OverlayTrace(Pairs(snaps), k)
    ensures Screen(after) == View(snaps[|snaps| - 1].OverlayOf(k))
  {
    PlayAppend(Hidden, Steps(before), OverlayTrace(Pairs(snaps), k));
    OverlayTraceTracks(snaps, k);
  }

  /** The saved-toast run executed by a fresh app shell: the navigator pushes B and then
      makes A the root without animation, the toast controller shows the "saved" toast
      and then hides it, and the loader and modal controllers are never called. */
  method SavedToastScenario(a: Route, b: Route) returns (app: App)
    requires a.name != b.name
    ensures app.navCalls == [NavPush(b.name, b.params), NavSetRoot(a.name, a.params, false)]
    ensures Steps(app.toastCalls) == [Show("saved"), Hide]
    ensures Steps(app.loaderCalls) == [] && app.modalCalls == []
  {
    app := new App();
    var s := SavedToastRun(a, b);
    assert Screen([]) == Hidden;
    app.Run(s);
    SavedToastNavCalls(a, b);
    SavedToastOverlays(a, b);
    SavedToastLeavesOthersAlone(a, b, Loader);
  }

  /** The run in which a modal stays open while a toast comes and goes is accepted: the
      toast controller shows and hides the toast, the modal controller and the navigator
      are never called, and the modal's unchanged state object asks for no hide. */
  method OpenModalScenario(a: Route) returns (app: App)
    ensures Steps(app.toastCalls) == [Show("hi"), Hide]
    ensures Steps(app.loaderCalls) == [] && app.modalCalls == [] && app.navCalls == []
  {
    app := new App();
    var s := OpenModalRun(a);
    assert Screen([]) == Hidden;
    app.Run(s);
    OpenModalToast(a);
    OpenModalLeavesOthersAlone(a);
  }

  /** The navigator calls decided over the saved-toast run. */
  lemma SavedToastNavCalls(a: Route, b: Route)
    requires a.name != b.name
    ensures NavCalls(RouteTrace(Pairs(SavedToastRun(a, b)))) ==
              [NavPush(b.name, b.params), NavSetRoot(a.name, a.params, false)]
  {
    SavedToastRoutes(a, b);
    var es := [Push(b), SetRoot(a)];
    assert es[..1][..0] == [] && es[..1] == [Push(b)];
    assert NavCalls(es[..1]) == [NavPush(b.name, b.params)];
  }

  /** The app shell's mutable part: the last overlay created for each kind, a counter
      standing in for handle identity, and the calls made on each external primitive. */
  class App {
    var toast: Option<Handle>
    var loader: Option<Handle>
    var modal: Option<Handle>
    var created: nat
    var navCalls: seq<NavCall>
    var toastCalls: seq<OverlayCall>
    var loaderCalls: seq<OverlayCall>
    var modalCalls: seq<OverlayCall>

    /** All slots start empty and nothing has been called. */
    constructor ()
      ensures toast == None && loader == None && modal == None && created == 0
      ensures navCalls == [] && toastCalls == [] && loaderCalls == [] && modalCalls == []
      ensures Valid()
    {
      toast, loader, modal := None, None, None;
      created := 0;
      navCalls := [];
      toastCalls, loaderCalls, modalCalls := [], [], [];
    }

    function Slot(k: Kind): Option<Handle>
      reads this
    {
      match k
      case Toast => toast
      case Loader => loader
      case Modal => modal
    }

    function CallsOf(k: Kind): seq<OverlayCall>
      reads this
    {
      match k
      case Toast => toastCalls
      case Loader => loaderCalls
      case Modal => modalCalls
    }

    /** The executor's invariant: the modal slot is never assigned, and every handle in
        a slot was created before the next one will be, so a new handle is always fresh. */
    ghost predicate Valid()
      reads this
    {
      && modal == None
      && (toast.Some? ==> toast.value.id < created)
      && (loader.Some? ==> loader.value.id < created)
    }

    method SetRoot(route: Route)
      modifies this`navCalls
      ensures navCalls == old(navCalls) + [NavSetRoot(route.name, route.params, false)]
    {
      navCalls := navCalls + [NavSetRoot(route.name, route.params, false)];
    }

    method PushPage(route: Route)
      modifies this`navCalls
      ensures navCalls == old(navCalls) + [NavPush(route.name, route.params)]
    {
      navCalls := navCalls + [NavPush(route.name, route.params)];
    }

    method PopPage(isSide: bool)
      modifies this`navCalls
      ensures navCalls == old(navCalls) + [NavPop(!isSide)]
    {
      navCalls := navCalls + [NavPop(!isSide)];
    }

    /** A new toast replaces the toast slot and is presented; no other slot changes. */
    method ShowToast(t: Overlay)
      modifies this`toast, this`created, this`toastCalls
      ensures toast == Some(Handle(old(created), t.content)) && created == old(created) + 1
      ensures toastCalls == old(toastCalls) + [Present(Handle(old(created), t.content))]
    {
      toast := Some(Handle(created, t.content));
      created := created + 1;
      toastCalls := toastCalls + [Present(toast.value)];
    }

    /** Dismisses whatever the toast slot holds; the slot is left as it is. */
    method HideToast()
      requires toast.Some?
      modifies this`toastCalls
      ensures toastCalls == old(toastCalls) + [Dismiss(toast.value)]
    {
      toastCalls := toastCalls + [Dismiss(toast.value)];
    }

    /** A new loader replaces the loader slot and is presented; no other slot changes. */
    method ShowLoader(l: Overlay)
      modifies this`loader, this`created, this`loaderCalls
      ensures loader == Some(Handle(old(created), l.content)) && created == old(created) + 1
      ensures loaderCalls == old(loaderCalls) + [Present(Handle(old(created), l.content))]
    {
      loader := Some(Handle(created, l.content));
      created := created + 1;
      loaderCalls := loaderCalls + [Present(loader.value)];
    }

    /** Dismisses whatever the loader slot holds; the slot is left as it is. */
    method HideLoader()
      requires loader.Some?
      modifies this`loaderCalls
      ensures loaderCalls == old(loaderCalls) + [Dismiss(loader.value)]
    {
      loaderCalls := loaderCalls + [Dismiss(loader.value)];
    }

    /** Showing a modal resolves at once: no modal is created, the slot is not assigned
        and the modal controller is not called. */
    method ShowModal(m: Overlay)
      ensures modal == old(modal) && modalCalls == old(modalCalls)
    {
    }

    /** Dismisses whatever the modal slot holds, which must not be empty. */
    method HideModal()
      requires modal.Some?
      modifies this`modalCalls
      ensures modalCalls == old(modalCalls) + [Dismiss(modal.value)]
    {
      modalCalls := modalCalls + [Dismiss(modal.value)];
    }

    /** The show callback handed to the overlay reconciler for kind `k`. */
    method ShowFor(k: Kind, o: Overlay)
      modifies this`toast, this`loader, this`created, this`toastCalls, this`loaderCalls
      ensures k != Modal ==> Slot(k) == Some(Handle(old(created), o.content)) && created == old(created) + 1
      ensures k != Modal ==> CallsOf(k) == old(CallsOf(k)) + [Present(Handle(old(created), o.content))]
      ensures k == Modal ==> CallsOf(k) == old(CallsOf(k)) && created == old(created)
      ensures k != Toast ==> toast == old(toast) && toastCalls == old(toastCalls)
      ensures k != Loader ==> loader == old(loader) && loaderCalls == old(loaderCalls)
      ensures k != Modal ==> modalCalls == old(modalCalls)
      ensures old(Valid()) ==> Valid()
    {
      match k
      case Toast => ShowToast(o);
      case Loader => ShowLoader(o);
      case Modal => ShowModal(o);
    }

    /** The hide callback handed to the overlay reconciler for kind `k`. */
    method HideFor(k: Kind)
      requires Slot(k).Some?
      modifies this`toastCalls, this`loaderCalls, this`modalCalls
      ensures CallsOf(k) == old(CallsOf(k)) + [Dismiss(Slot(k).value)]
      ensures k != Toast ==> toastCalls == old(toastCalls)
      ensures k != Loader ==> loaderCalls == old(loaderCalls)
      ensures k != Modal ==> modalCalls == old(modalCalls)
    {
      match k
      case Toast => HideToast();
      case Loader => HideLoader();
      case Modal => HideModal();
    }

    /** Executes the overlay reconciler's decision for one pair of states of kind `k`,
        hiding before showing: the controller of `k` receives the callbacks' calls, the
        slot of `k` holds the new handle if one was created, and no other slot or
        controller is touched. */
    method HandleUIDisplay(k: Kind, prev: Overlay, curr: Overlay)
      requires Valid()
      requires prev.isShown ==> Slot(k).Some?
      modifies this`toast, this`loader, this`created, this`toastCalls, this`loaderCalls, this`modalCalls
      ensures Valid()
      ensures created == if curr.isShown && k != Modal then old(created) + 1 else old(created)
      ensures k == Toast ==> toastCalls == old(toastCalls) + UICalls(k, old(toast), old(created), prev, curr)
      ensures k == Toast ==> toast == if curr.isShown then Some(Handle(old(created), curr.content)) else old(toast)
      ensures k == Toast ==> Steps(toastCalls) == Steps(old(toastCalls)) + OverlayEffects(prev, curr)
      ensures k == Loader ==> loaderCalls == old(loaderCalls) + UICalls(k, old(loader), old(created), prev, curr)
      ensures k == Loader ==> loader == if curr.isShown then Some(Handle(old(created), curr.content)) else old(loader)
      ensures k == Loader ==> Steps(loaderCalls) == Steps(old(loaderCalls)) + OverlayEffects(prev, curr)
      ensures k == Modal ==> modalCalls == old(modalCalls) + UICalls(k, old(modal), old(created), prev, curr)
      ensures k != Toast ==> toast == old(toast) && toastCalls == old(toastCalls)
      ensures k != Loader ==> loader == old(loader) && loaderCalls == old(loaderCalls)
      ensures k != Modal ==> modalCalls == old(modalCalls)
    {
      ghost var before, slot, next := CallsOf(k), Slot(k), created;
      if k != Modal {
        UICallsAdvance(before, k, slot, next, prev, curr);
      }
      if !prev.isShown && !curr.isShown {
      } else if prev.isShown && !curr.isShown {
        HideFor(k);
      } else if !prev.isShown && curr.isShown {
        ShowFor(k, curr);
      } else {
        HideFor(k);
        ShowFor(k, curr);
      }
    }

    /** One arrival on kind `k`'s subscription: the store's selector passes the slice on
        only when its state object was replaced, and then the pair is reconciled and
        executed. The controller of `k` receives exactly the subscription's calls and
        performs exactly its decision; the slot of `k` holds the new handle if one was
        presented; nothing else changes. */
    method Observe(k: Kind, prev: Overlay, curr: Overlay)
      requires Valid()
      requires prev != curr && prev.isShown ==> Slot(k).Some?
      modifies this`toast, this`loader, this`created, this`toastCalls, this`loaderCalls, this`modalCalls
      ensures Valid()
      ensures created == if Presents(k, prev, curr) then old(created) + 1 else old(created)
      ensures k == Toast ==> toastCalls == old(toastCalls) + ChangeCalls(k, old(toast), old(created), prev, curr)
      ensures k == Toast ==> toast == if Presents(k, prev, curr) then Some(Handle(old(created), curr.content)) else old(toast)
      ensures k == Toast ==> Steps(toastCalls) == Steps(old(toastCalls)) + ChangeEffects(prev, curr)
      ensures k == Loader ==> loaderCalls == old(loaderCalls) + ChangeCalls(k, old(loader), old(created), prev, curr)
      ensures k == Loader ==> loader == if Presents(k, prev, curr) then Some(Handle(old(created), curr.content)) else old(loader)
      ensures k == Loader ==> Steps(loaderCalls) == Steps(old(loaderCalls)) + ChangeEffects(prev, curr)
      ensures k == Modal ==> modalCalls == old(modalCalls) + ChangeCalls(k, old(modal), old(created), prev, curr)
      ensures k != Toast ==> toast == old(toast) && toastCalls == old(toastCalls)
      ensures k != Loader ==> loader == old(loader) && loaderCalls == old(loaderCalls)
      ensures k != Modal ==> modalCalls == old(modalCalls)
    {
      ghost var before, slot, next := CallsOf(k), Slot(k), created;
      if k != Modal {
        ChangeCallsAdvance(before, k, slot, next, prev, curr);
      }
      if prev != curr {
        HandleUIDisplay(k, prev, curr);
      }
    }

    /** One arrival on the loader's subscription: only the loader's slot, its
        controller and the handle counter change. */
    method LoaderArrives(prev: Overlay, curr: Overlay)
      requires Valid()
      requires prev != curr && prev.isShown ==> loader.Some?
      modifies this`toast, this`loader, this`created, this`toastCalls, this`loaderCalls, this`modalCalls
      ensures Valid()
      ensures created == if Presents(Loader, prev, curr) then old(created) + 1 else old(created)
      ensures loaderCalls == old(loaderCalls) + ChangeCalls(Loader, old(loader), old(created), prev, curr)
      ensures loader == if Presents(Loader, prev, curr) then Some(Handle(old(created), curr.content)) else old(loader)
      ensures Steps(loaderCalls) == Steps(old(loaderCalls)) + ChangeEffects(prev, curr)
      ensures toast == old(toast) && toastCalls == old(toastCalls) && modalCalls == old(modalCalls)
    {
      Observe(Loader, prev, curr);
    }

    /** One arrival on the toast's subscription: only the toast's slot, its controller
        and the handle counter change. */
    method ToastArrives(prev: Overlay, curr: Overlay)
      requires Valid()
      requires prev != curr && prev.isShown ==> toast.Some?
      modifies this`toast, this`loader, this`created, this`toastCalls, this`loaderCalls, this`modalCalls
      ensures Valid()
      ensures created == if Presents(Toast, prev, curr) then old(created) + 1 else old(created)
      ensures toastCalls == old(toastCalls) + ChangeCalls(Toast, old(toast), old(created), prev, curr)
      ensures toast == if Presents(Toast, prev, curr) then Some(Handle(old(created), curr.content)) else old(toast)
      ensures Steps(toastCalls) == Steps(old(toastCalls)) + ChangeEffects(prev, curr)
      ensures loader == old(loader) && loaderCalls == old(loaderCalls) && modalCalls == old(modalCalls)
    {
      Observe(Toast, prev, curr);
    }

    /** One arrival on the modal's subscription: only the modal's controller can be
        called, and no slot and no counter changes. */
    method ModalArrives(prev: Overlay, curr: Overlay)
      requires Valid()
      requires prev != curr && prev.isShown ==> modal.Some?
      modifies this`toast, this`loader, this`created, this`toastCalls, this`loaderCalls, this`modalCalls
      ensures Valid()
      ensures modalCalls == old(modalCalls) + ChangeCalls(Modal, old(modal), old(created), prev, curr)
      ensures toast == old(toast) && toastCalls == old(toastCalls) && created == old(created)
      ensures loader == old(loader) && loaderCalls == old(loaderCalls)
    {
      Observe(Modal, prev, curr);
    }

    /** Executes the route reconciler's decision for one pair of route stacks. */
    method HandleRoute(prevRoutes: RouteStack, currRoutes: RouteStack)
      modifies this`navCalls
      ensures navCalls == old(navCalls) + NavCalls(RouteEffects(prevRoutes, currRoutes))
    {
      NavigationCallsFor(prevRoutes, currRoutes);
      if Top(prevRoutes).name != Top(currRoutes).name {
        if |currRoutes| == 1 {
          SetRoot(Top(currRoutes));
        } else if |currRoutes| < |prevRoutes| {
          PopPage(IsSideRoute(Top(prevRoutes).name));
        } else {
          PushPage(Top(currRoutes));
        }
      }
    }
  
    /** Executes one pair of snapshots in subscription order: loader, route, toast,
        modal. Each primitive receives exactly the calls its subscription decides (none for
        an overlay whose slice was not replaced), the toast's new handle being numbered
        after the loader's. */
    method HandlePair(prev: Snapshot, curr: Snapshot)
      requires Valid()
      requires prev.toast != curr.toast && prev.toast.isShown ==> toast.Some?
      requires prev.loader != curr.loader && prev.loader.isShown ==> loader.Some?
      requires prev.modal != curr.modal && prev.modal.isShown ==> modal.Some?
      modifies this
      ensures Valid()
      ensures navCalls == old(navCalls) + NavCalls(RouteEffects(prev.routes, curr.routes))
      ensures Steps(loaderCalls) == Steps(old(loaderCalls)) + ChangeEffects(prev.loader, curr.loader)
      ensures Steps(toastCalls) == Steps(old(toastCalls)) + ChangeEffects(prev.toast, curr.toast)
      ensures modalCalls == old(modalCalls)
      ensures loader == if Presents(Loader, prev.loader, curr.loader) then Some(Handle(old(created), curr.loader.content)) else old(loader)
      ensures toast == if Presents(Toast, prev.toast, curr.toast)
                       then Some(Handle(old(created) + (if Presents(Loader, prev.loader, curr.loader) then 1 else 0), curr.toast.content))
                       else old(toast)
      ensures loaderCalls == old(loaderCalls) + ChangeCalls(Loader, old(loader), old(created), prev.loader, curr.loader)
      ensures toastCalls == old(toastCalls) +
                ChangeCalls(Toast, old(toast), old(created) + (if Presents(Loader, prev.loader, curr.loader) then 1 else 0), prev.toast, curr.toast)
      ensures created == old(created) + (if Presents(Loader, prev.loader, curr.loader) then 1 else 0) +
                (if Presents(Toast, prev.toast, curr.toast) then 1 else 0)
    {
      LoaderArrives(prev.loader, curr.loader);
      HandleRoute(prev.routes, curr.routes);
      ToastArrives(prev.toast, curr.toast);
      ModalArrives(prev.modal, curr.modal);
    }

    /** The calls on the controller of kind `k` leave exactly overlay `o` requested, and
        the slot of `k` holds a handle with `o`'s content whenever `o` is shown. */
    ghost predicate Tracks(k: Kind, o: Overlay)
      reads this
    {
      && Screen(CallsOf(k)) == View(o)
      && (o.isShown ==> Slot(k).Some? && Slot(k).value.content == o.content)
    }

    /** What the primitives have received once the first `i` snapshots of a run have
        been handled, starting from the logs `nav`, `toasts` and `loaders`: the navigator
        the calls for the route trace, the toast and loader controllers the steps of
        their overlay traces, and the toast and loader slots a handle for the last
        snapshot's overlay if it is shown. */
    ghost predicate Handled(snaps: seq<Snapshot>, i: nat, nav: seq<NavCall>, toasts: seq<OverlayCall>, loaders: seq<OverlayCall>)
      requires 1 <= i <= |snaps|
      reads this
    {
      && navCalls == nav + NavCalls(RouteTrace(Pairs(snaps[..i])))
      && Steps(toastCalls) == Steps(toasts) + OverlayTrace(Pairs(snaps[..i]), Toast)
      && Steps(loaderCalls) == Steps(loaders) + OverlayTrace(Pairs(snaps[..i]), Loader)
      && (snaps[i - 1].toast.isShown ==> toast.Some? && toast.value.content == snaps[i - 1].toast.content)
      && (snaps[i - 1].loader.isShown ==> loader.Some? && loader.value.content == snaps[i - 1].loader.content)
    }

    /** Handles the arrival of snapshot `i` of a run: the pair it forms with its
        predecessor is reconciled and executed, which extends every log by that pair's
        share of the traces. */
    method Admit(snaps: seq<Snapshot>, i: nat, ghost nav: seq<NavCall>, ghost toasts: seq<OverlayCall>, ghost loaders: seq<OverlayCall>)
      requires 1 <= i < |snaps|
      requires Valid()
      requires snaps[i - 1].modal.isShown ==> snaps[i - 1].modal == snaps[i].modal
      requires Handled(snaps, i, nav, toasts, loaders)
      modifies this
      ensures Valid() && modalCalls == old(modalCalls)
      ensures Handled(snaps, i + 1, nav, toasts, loaders)
    {
      var prev, curr := snaps[i - 1], snaps[i];
      ghost var nav0, toast0, loader0 := navCalls, toastCalls, loaderCalls;
      HandlePair(prev, curr);
      NavLogGrows(snaps, i, nav, nav0, navCalls);
      OverlayOfKinds(prev);
      OverlayOfKinds(curr);
      StepsGrow(snaps, i, Toast, toasts, toast0, toastCalls);
      StepsGrow(snaps, i, Loader, loaders, loader0, loaderCalls);
    }

    /** Executes a whole run of snapshots: the first one is only remembered, and every
        later one is reconciled against its predecessor. The navigator receives the calls
        for the route trace of the run; the toast and loader controllers perform the
        overlay traces of the run and end by leaving requested what the last snapshot asks for;
        the modal controller is never called. A shown modal whose state object the store
        replaced would have to be hidden from an empty slot, so the run keeps a shown
        modal's state object until the last snapshot. */
    method Run(snaps: seq<Snapshot>)
      requires Valid() && |snaps| > 0
      requires forall i :: 0 <= i < |snaps| - 1 ==> (snaps[i].modal.isShown ==> snaps[i].modal == snaps[i + 1].modal)
      requires Tracks(Toast, snaps[0].toast) && Tracks(Loader, snaps[0].loader)
      modifies this
      ensures Valid()
      ensures navCalls == old(navCalls) + NavCalls(RouteTrace(Pairs(snaps)))
      ensures Steps(toastCalls) == Steps(old(toastCalls)) + OverlayTrace(Pairs(snaps), Toast)
      ensures Steps(loaderCalls) == Steps(old(loaderCalls)) + OverlayTrace(Pairs(snaps), Loader)
      ensures modalCalls == old(modalCalls)
      ensures Tracks(Toast, snaps[|snaps| - 1].toast) && Tracks(Loader, snaps[|snaps| - 1].loader)
    {
      assert snaps[..1] == [snaps[0]];
      FirstSnapshotIsSilent(snaps[0], Toast);
      FirstSnapshotIsSilent(snaps[0], Loader);
      AppendEmpty(navCalls);
      AppendEmpty(Steps(toastCalls));
      AppendEmpty(Steps(loaderCalls));
      var i := 1;
      while i < |snaps|
        invariant 1 <= i <= |snaps|
        invariant Valid() && modalCalls == old(modalCalls)
        invariant Handled(snaps, i, old(navCalls), old(toastCalls), old(loaderCalls))
      {
        Admit(snaps, i, old(navCalls), old(toastCalls), old(loaderCalls));
        i := i + 1;
      }
      assert snaps[..i] == snaps;
      ScreenAfterRun(old(toastCalls), toastCalls, snaps, Toast);
      ScreenAfterRun(old(loaderCalls), loaderCalls, snaps, Loader);
    }
  }
}
