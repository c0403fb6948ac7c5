/** Pairwise sequencing: the stream of snapshots becomes consecutive (previous, current)
    pairs, and each category's effects are the concatenation of its reconciler's output
    over those pairs. */
module Sequencing {
  import opened AppState
  import opened Routes
  import opened Overlays

  /** Consecutive pairs of a sequence; a lone first element yields nothing. */
  function Pairs<T>(s: seq<T>): (r: seq<(T, T)>)
    ensures |r| == if |s| == 0 then 0 else |s| - 1
  {
    if |s| < 2 then [] else Pairs(s[..|s| - 1]) + [(s[|s| - 2], s[|s| - 1])]
  }

  /** Each pair is an element and its successor, in order. */
  lemma {:induction false} PairsAreConsecutive<T>(s: seq<T>)
    ensures forall i :: 0 <= i < |Pairs(s)| ==> Pairs(s)[i] == (s[i], s[i + 1])
    decreases |s|
  {
    if |s| >= 2 {
      PairsAreConsecutive(s[..|s| - 1]);
    }
  }

  lemma TakeOneMore<T>(s: seq<T>, i: nat)
    requires i < |s|
    ensures s[..i + 1] == s[..i] + [s[i]]
  {
  }

  /** A new arrival adds exactly one pair: the last snapshot seen and the new one. */
  lemma PairsAppend<T>(s: seq<T>, x: T)
    requires |s| > 0
    ensures Pairs(s + [x]) == Pairs(s) + [(s[|s| - 1], x)]
  {
    assert (s + [x])[..|s|] == s;
  }

  /** The navigation effects decided over a sequence of pairs, pair by pair. */
  function RouteTrace(ps: seq<(Snapshot, Snapshot)>): (r: seq<RouteEffect>)
    ensures |r| <= |ps|
  {
    if ps == [] then []
    else RouteTrace(ps[..|ps| - 1]) + RouteEffects(ps[|ps| - 1].0.routes, ps[|ps| - 1].1.routes)
  }

  /** The steps decided for overlay kind `k` over a sequence of pairs, pair by pair; a
      pair in which the kind's slice was not replaced decides nothing. */
  function OverlayTrace(ps: seq<(Snapshot, Snapshot)>, k: Kind): (r: seq<OverlayStep>)
    ensures |r| <= 2 * |ps|
  {
    if ps == [] then []
    else OverlayTrace(ps[..|ps| - 1], k) + ChangeEffects(ps[|ps| - 1].0.OverlayOf(k), ps[|ps| - 1].1.OverlayOf(k))
  }

  lemma RouteTraceAppend(ps: seq<(Snapshot, Snapshot)>, p: (Snapshot, Snapshot))
    ensures RouteTrace(ps + [p]) == RouteTrace(ps) + RouteEffects(p.0.routes, p.1.routes)
  {
    assert (ps + [p])[..|ps|] == ps;
  }

  lemma OverlayTraceAppend(ps: seq<(Snapshot, Snapshot)>, p: (Snapshot, Snapshot), k: Kind)
    ensures OverlayTrace(ps + [p], k) == OverlayTrace(ps, k) + ChangeEffects(p.0.OverlayOf(k), p.1.OverlayOf(k))
  {
    assert (ps + [p])[..|ps|] == ps;
  }

  /** The first snapshot on its own triggers no effect in any category. */
  lemma FirstSnapshotIsSilent(s: Snapshot, k: Kind)
    ensures Pairs([s]) == []
    ensures RouteTrace(Pairs([s])) == [] && OverlayTrace(Pairs([s]), k) == []
  {
  }

  /** A snapshot that arrives again unchanged moves no page and, since no slice was
      replaced, closes or reopens no overlay, shown or not. */
  lemma RepeatedSnapshotIsSilent(s: Snapshot, k: Kind)
    ensures Pairs([s, s]) == [(s, s)]
    ensures RouteTrace(Pairs([s, s])) == [] && OverlayTrace(Pairs([s, s]), k) == []
  {
    var p := (s, s);
    assert [s, s][..1] == [s];
    assert [] + [p] == [p];
    RouteTraceAppend([], p);
    OverlayTraceAppend([], p, k);
    UnchangedStateIsSilent(s.OverlayOf(k));
  }

  /** Over any run of snapshots, the overlay steps replayed from the surface the first
      snapshot asks for end on the surface the last snapshot asks for. */
  lemma {:induction false} OverlayTraceTracks(s: seq<Snapshot>, k: Kind)
    requires |s| > 0
    ensures Play(View(s[0].OverlayOf(k)), OverlayTrace(Pairs(s), k)) == View(s[|s| - 1].OverlayOf(k))
    decreases |s|
  {
    if |s| > 1 {
      var s' := s[..|s| - 1];
      var p := (s[|s| - 2], s[|s| - 1]);
      assert s == s' + [s[|s| - 1]];
      PairsAppend(s', s[|s| - 1]);
      OverlayTraceAppend(Pairs(s'), p, k);
      OverlayTraceTracks(s', k);
      PlayAppend(View(s[0].OverlayOf(k)), OverlayTrace(Pairs(s'), k), ChangeEffects(p.0.OverlayOf(k), p.1.OverlayOf(k)));
      ChangeEffectsTrack(p.0.OverlayOf(k), p.1.OverlayOf(k));
    }
  }

  /** Along any run of snapshots no overlay is hidden while absent or shown over another
      of its kind: every prefix of the replayed steps is free of conflict. */
  lemma OverlayTraceNeverConflicts(s: seq<Snapshot>, k: Kind)
    requires |s| > 0
    ensures forall j :: 0 <= j <= |OverlayTrace(Pairs(s), k)| ==>
              Play(View(s[0].OverlayOf(k)), OverlayTrace(Pairs(s), k)[..j]) != Conflict
  {
    OverlayTraceTracks(s, k);
    NoConflictOnTheWay(View(s[0].OverlayOf(k)), OverlayTrace(Pairs(s), k));
  }

  /** When every change of route stack is a single step, a navigator that starts on the
      first snapshot's stack ends on the last snapshot's stack. */
  lemma {:induction false} NavigatorFollowsSingleSteps(s: seq<Snapshot>)
    requires |s| > 0
    requires forall i :: 0 <= i < |s| - 1 ==> SingleStep(s[i].routes, s[i + 1].routes)
    ensures NavigateAll(s[0].routes, RouteTrace(Pairs(s))) == s[|s| - 1].routes
    decreases |s|
  {
    if |s| > 1 {
      var s' := s[..|s| - 1];
      var p := (s[|s| - 2], s[|s| - 1]);
      assert s == s' + [s[|s| - 1]];
      PairsAppend(s', s[|s| - 1]);
      NavigatorFollowsSingleSteps(s');
      RouteTraceAppend(Pairs(s'), p);
      NavigateAllAppend(s[0].routes, RouteTrace(Pairs(s')), RouteEffects(p.0.routes, p.1.routes));
      SingleStepIsRealised(p.0.routes, p.1.routes);
    }
  }

  /** Over four snapshots, the navigation trace is the route reconciler's output for the
      three consecutive pairs, in order. */
  lemma FourSnapshotRouteTrace(s: seq<Snapshot>)
    requires |s| == 4
    ensures RouteTrace(Pairs(s)) ==
              RouteEffects(s[0].routes, s[1].routes) + RouteEffects(s[1].routes, s[2].routes) +
              RouteEffects(s[2].routes, s[3].routes)
  {
    var p0, p1, p2 := (s[0], s[1]), (s[1], s[2]), (s[2], s[3]);
    var ps1 := [p0];
    var ps2 := ps1 + [p1];
    PairsAreConsecutive(s);
    assert Pairs(s) == ps2 + [p2];
    RouteTraceAppend([], p0);
    assert [] + [p0] == ps1;
    RouteTraceAppend(ps1, p1);
    RouteTraceAppend(ps2, p2);
  }

  /** Over four snapshots, the steps for overlay kind `k` are what its subscription
      decides for the three consecutive pairs, in order. */
  lemma FourSnapshotOverlayTrace(s: seq<Snapshot>, k: Kind)
    requires |s| == 4
    ensures OverlayTrace(Pairs(s), k) ==
              ChangeEffects(s[0].OverlayOf(k), s[1].OverlayOf(k)) +
              ChangeEffects(s[1].OverlayOf(k), s[2].OverlayOf(k)) +
              ChangeEffects(s[2].OverlayOf(k), s[3].OverlayOf(k))
  {
    var p0, p1, p2 := (s[0], s[1]), (s[1], s[2]), (s[2], s[3]);
    var ps1 := [p0];
    var ps2 := ps1 + [p1];
    PairsAreConsecutive(s);
    assert Pairs(s) == ps2 + [p2];
    OverlayTraceAppend([], p0, k);
    assert [] + [p0] == ps1;
    OverlayTraceAppend(ps1, p1, k);
    OverlayTraceAppend(ps2, p2, k);
  }

  /** A four-snapshot run: page B is opened over A, a "saved" toast appears, then the
      store returns to A alone with the toast gone. */
  function SavedToastRun(a: Route, b: Route): seq<Snapshot> {
    var off := Overlay(false, "", 0);
    [Snapshot([a], off, off, off),
     Snapshot([a, b], off, off, off),
     Snapshot([a, b], Overlay(true, "saved", 1), off, off),
     Snapshot([a], Overlay(false, "", 2), off, off)]
  }

  /** In that run B is pushed, and because a one-page stack is checked before a shrunken
      one, the return to A is a new root rather than a pop. */
  lemma SavedToastRoutes(a: Route, b: Route)
    requires a.name != b.name
    ensures RouteTrace(Pairs(SavedToastRun(a, b))) == [Push(b), SetRoot(a)]
  {
    var s := SavedToastRun(a, b);
    FourSnapshotRouteTrace(s);
    assert RouteEffects([a], [a, b]) == [Push(b)];
    assert RouteEffects([a, b], [a, b]) == [];
    assert RouteEffects([a, b], [a]) == [SetRoot(a)];
  }

  /** In that run the toast is shown with its label and later hidden. */
  lemma SavedToastOverlays(a: Route, b: Route)
    ensures OverlayTrace(Pairs(SavedToastRun(a, b)), Toast) == [Show("saved"), Hide]
  {
    var s := SavedToastRun(a, b);
    FourSnapshotOverlayTrace(s, Toast);
    var off := Overlay(false, "", 0);
    assert ChangeEffects(off, off) == [];
    assert ChangeEffects(off, Overlay(true, "saved", 1)) == [Show("saved")];
    assert ChangeEffects(Overlay(true, "saved", 1), Overlay(false, "", 2)) == [Hide];
  }

  /** In that run the loader and the modal see no step. */
  lemma SavedToastLeavesOthersAlone(a: Route, b: Route, k: Kind)
    requires k != Toast
    ensures OverlayTrace(Pairs(SavedToastRun(a, b)), k) == []
  {
    var s := SavedToastRun(a, b);
    FourSnapshotOverlayTrace(s, k);
    var off := Overlay(false, "", 0);
    assert ChangeEffects(off, off) == [];
  }

  /** A run on one page in which a modal opens and stays open, unchanged, while a toast
      is shown over it and later hidden. */
  function OpenModalRun(a: Route): seq<Snapshot> {
    var off := Overlay(false, "", 0);
    var m := Overlay(true, "", 1);
    [Snapshot([a], off, off, off),
     Snapshot([a], off, off, m),
     Snapshot([a], Overlay(true, "hi", 2), off, m),
     Snapshot([a], Overlay(false, "", 3), off, m)]
  }

  /** In that run the toast is shown with its label and later hidden. */
  lemma OpenModalToast(a: Route)
    ensures OverlayTrace(Pairs(OpenModalRun(a)), Toast) == [Show("hi"), Hide]
  {
    var s := OpenModalRun(a);
    FourSnapshotOverlayTrace(s, Toast);
    var off := Overlay(false, "", 0);
    assert ChangeEffects(off, off) == [];
    assert ChangeEffects(off, Overlay(true, "hi", 2)) == [Show("hi")];
    assert ChangeEffects(Overlay(true, "hi", 2), Overlay(false, "", 3)) == [Hide];
  }

  /** In that run the modal is shown once, and its unchanged state object asks for
      nothing afterwards: no hide ever follows. */
  lemma OpenModalStaysOpen(a: Route)
    ensures OverlayTrace(Pairs(OpenModalRun(a)), Modal) == [Show("")]
  {
    var s := OpenModalRun(a);
    FourSnapshotOverlayTrace(s, Modal);
    var m := Overlay(true, "", 1);
    assert ChangeEffects(Overlay(false, "", 0), m) == [Show("")];
    assert ChangeEffects(m, m) == [];
  }

  /** In that run neither the loader nor the navigator is asked for anything. */
  lemma OpenModalLeavesOthersAlone(a: Route)
    ensures OverlayTrace(Pairs(OpenModalRun(a)), Loader) == []
    ensures RouteTrace(Pairs(OpenModalRun(a))) == []
  {
    var s := OpenModalRun(a);
    FourSnapshotOverlayTrace(s, Loader);
    FourSnapshotRouteTrace(s);
    assert ChangeEffects(Overlay(false, "", 0), Overlay(false, "", 0)) == [];
    assert RouteEffects([a], [a]) == [];
  }
}
