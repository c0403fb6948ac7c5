/** The overlay reconciler shared by toast, loader and modal, and the overlay surface
    as a replay of shows and hides, against which the reconciler is proved. */
module Overlays {
  import opened AppState

  /** One overlay instruction: dismiss what is on screen, or create and present an
      overlay with the given label. */
  datatype OverlayStep = Hide | Show(content: string)

  /** The decision for one pair of consecutive overlay states, over the 2x2 table of
      their `isShown` flags. When both are shown the overlay is closed and reopened, so
      the screen never keeps stale content. */
  function OverlayEffects(prev: Overlay, curr: Overlay): (r: seq<OverlayStep>)
    ensures |r| == (if prev.isShown then 1 else 0) + (if curr.isShown then 1 else 0)
    ensures prev.isShown ==> r[0] == Hide
    ensures curr.isShown ==> r[|r| - 1] == Show(curr.content)
  {
    if !prev.isShown && !curr.isShown then []
    else if prev.isShown && !curr.isShown then [Hide]
    else if !prev.isShown && curr.isShown then [Show(curr.content)]
    else [Hide, Show(curr.content)]
  }

  /** What a kind's subscription decides when a snapshot arrives. The store's selector
      passes a slice on only when its state object was replaced, so an unchanged slice
      decides nothing and a replaced one is reconciled with its predecessor. */
  function ChangeEffects(prev: Overlay, curr: Overlay): (r: seq<OverlayStep>)
    ensures |r| <= 2
    ensures r == [] <==> prev == curr || (!prev.isShown && !curr.isShown)
    ensures prev != curr && prev.isShown ==> r[0] == Hide
    ensures prev != curr && curr.isShown ==> r[|r| - 1] == Show(curr.content)
  {
    if prev == curr then [] else OverlayEffects(prev, curr)
  }

  /** A slice the store did not replace triggers no step, even while it is shown. */
  lemma UnchangedStateIsSilent(o: Overlay)
    ensures ChangeEffects(o, o) == []
  {
  }

  /** A shown overlay whose state object is replaced by another shown one is closed and
      reopened with the new content, whether or not the content changed. */
  lemma ReplacedShownStateIsReopened(prev: Overlay, curr: Overlay)
    requires prev != curr && prev.isShown && curr.isShown
    ensures ChangeEffects(prev, curr) == [Hide, Show(curr.content)]
  {
  }

  /** What one overlay kind puts on screen. `Conflict` records a broken discipline: a
      hide with nothing on screen, or a show over an overlay still on screen. */
  datatype Surface = Hidden | Showing(content: string) | Conflict

  /** The surface an overlay state asks for. */
  function View(o: Overlay): Surface {
    if o.isShown then Showing(o.content) else Hidden
  }

  function Apply(s: Surface, step: OverlayStep): Surface {
    match step
    case Hide => if s.Showing? then Hidden else Conflict
    case Show(c) => if s == Hidden then Showing(c) else Conflict
  }

  /** The surface after the steps, applied in order, one completing before the next. */
  function Play(s: Surface, steps: seq<OverlayStep>): Surface
    decreases |steps|
  {
    if steps == [] then s else Apply(Play(s, steps[..|steps| - 1]), steps[|steps| - 1])
  }

  lemma {:induction false} PlayAppend(s: Surface, a: seq<OverlayStep>, b: seq<OverlayStep>)
    ensures Play(s, a + b) == Play(Play(s, a), b)
    decreases |b|
  {
    if b == [] {
      assert a + b == a;
    } else {
      var b' := b[..|b| - 1];
      assert (a + b)[..|a + b| - 1] == a + b';
      assert (a + b)[|a + b| - 1] == b[|b| - 1];
      PlayAppend(s, a, b');
    }
  }

  /** Once the discipline is broken, no later step repairs it. */
  lemma {:induction false} ConflictIsFinal(steps: seq<OverlayStep>)
    ensures Play(Conflict, steps) == Conflict
    decreases |steps|
  {
    if steps != [] {
      ConflictIsFinal(steps[..|steps| - 1]);
    }
  }

  /** A replay that ends without conflict had none at any point along the way. */
  lemma NoConflictOnTheWay(s: Surface, steps: seq<OverlayStep>)
    requires Play(s, steps) != Conflict
    ensures forall j :: 0 <= j <= |steps| ==> Play(s, steps[..j]) != Conflict
  {
    forall j | 0 <= j <= |steps|
      ensures Play(s, steps[..j]) != Conflict
    {
      assert steps == steps[..j] + steps[j..];
      PlayAppend(s, steps[..j], steps[j..]);
      if Play(s, steps[..j]) == Conflict {
        ConflictIsFinal(steps[j..]);
      }
    }
  }

  /** The reconciler keeps the screen in step with the store: from the surface the
      previous state asked for, its steps reach exactly the surface the current state asks
      for, hiding only what is on screen and showing only over an empty screen, whether
      or not the content changed. */
  lemma OverlayEffectsTrack(prev: Overlay, curr: Overlay)
    ensures Play(View(prev), OverlayEffects(prev, curr)) == View(curr)
  {
    var r := OverlayEffects(prev, curr);
    if |r| == 2 {
      assert r[..1] == [Hide] && r[..1][..0] == [];
      assert Play(View(prev), r[..1]) == Hidden;
      assert Play(View(prev), r) == Apply(Hidden, Show(curr.content));
    } else if |r| == 1 {
      assert r[..0] == [];
    }
  }

  /** The same holds for what a subscription decides: an unchanged slice asks for the
      screen it already asked for. */
  lemma ChangeEffectsTrack(prev: Overlay, curr: Overlay)
    ensures Play(View(prev), ChangeEffects(prev, curr)) == View(curr)
  {
    if prev != curr {
      OverlayEffectsTrack(prev, curr);
    }
  }
}
