# Reconciliation engine of the Yummy app shell, in Dafny

The app shell (`YummyApp` in `src/app/app.component.ts`) never navigates or opens an
overlay on its own initiative. It watches the application store and reconciles every
new state with the one before it:

- **Route reconciler.** From the previous and the current route stack it decides at
  most one navigation step:
  - nothing while the top page keeps its name;
  - a new root without animation for a one-page stack;
  - a pop for a shrunken stack, animated unless the page closed is `profile`, `support`
    or `transactions`;
  - otherwise a push of the new top page.
- **Overlay reconciler** (`handleUIDisplay`). The toast, the loader and the modal share
  it. From the `isShown` flags of the two states it decides nothing, a hide, a show, or
  a hide followed by a show.
- **Selectors.** Each category subscribes to its own slice of the store, and the
  store's selector passes a slice on only when the store replaced its state object.
  An overlay whose slice was not replaced therefore triggers nothing. The model gives
  every overlay state an `instance` that stands for that object, and a category
  decides nothing for a pair whose two states are equal.
- **Executor.** The show and hide callbacks keep one handle slot per overlay kind.
  Showing a toast or a loader creates a handle, stores it in the slot and presents it.
  Hiding dismisses whatever the slot holds.
- **Swipe rule.** The side menu's swipe gesture is disabled on the `slide` and
  `welcome` pages.

The project is split as follows:

| file | module | contents |
|---|---|---|
| `state.dfy` | `AppState` | the store's values: route stacks, which are never empty, overlay states, snapshots |
| `routes.dfy` | `Routes` | the route reconciler and the swipe rule, as functions; a navigator modelled as a stack, against which the reconciler is proved |
| `overlays.dfy` | `Overlays` | the overlay reconciler, as a function; an overlay surface replayed from shows and hides, against which it is proved |
| `sequencing.dfy` | `Sequencing` | `pairwise` as consecutive pairs; the traces each category produces over a run; two worked four-snapshot runs |
| `executor.dfy` | `Executor` | `class App` with the three slots and one call log per external primitive; methods for every show, hide and navigation primitive; the per-pair handler; a `Run` loop over a snapshot sequence |

The external primitives are the navigator and the three overlay controllers. They are
modelled as logs of the calls made on them. A handle's identity is a creation counter.

Where the code may surprise a reader, the model follows the code:

- **A shown overlay whose state object the store replaces by another shown one is
  closed and reopened.** This holds even when its content did not change
  (`src/app/app.component.ts:196-197`). An overlay the store did not touch is left
  alone, because its selector does not emit (`:150-151`).
- **A stack reduced from two pages to one gives a new root, not a pop.** The one-page
  test comes first (`:118-121`).
- **Hiding an overlay leaves its handle in the slot.** Nothing clears it (`:227-240`).
- **Showing a modal does nothing.** It neither creates nor stores a modal (`:242-244`).
  A later hide of the modal would therefore dismiss an empty slot. That hide comes
  only when the store replaces a shown modal's state object. While the object is kept,
  the modal's selector does not emit (`:167-168`), and an open modal is harmless. The
  model keeps the empty slot as the precondition of `HideModal`. `Run` requires that a
  shown modal's state object is kept into the next snapshot.

## Model

| member | source | states |
|---|---|---|
| Routes.RouteEffects | src/app/app.component.ts:112-126 | at most one effect; none exactly when the top names agree; a new root exactly for a one-page stack; a pop exactly for a shrunken stack of two or more, flagged as a side page exactly for profile/support/transactions; a root or push carries the current top route |
| Routes.SingleStepIsRealised | src/app/app.component.ts:112-126 | if the stack changes by one navigation step (reset to one page, lose the top page, gain one page), then a navigator showing the previous stack shows exactly the current stack after the decided effect |
| Routes.ReplacementBelowRootIsPushed | src/app/app.component.ts:118-126 | if the top page of a stack of two or more is replaced by a page of another name at the same length, the effect is a push, and the navigator ends one page deeper than the store |
| Routes.RootAndPushShowCurrentTop | src/app/app.component.ts:118-126 | after a decided root or push, the navigator's top page is the current top route, whatever it showed before |
| Routes.SwipeEnabled | src/app/app.component.ts:88-92 | swipe is enabled exactly when the top route name is neither "slide" nor "welcome" |
| Routes.SwipeFollowsNavigation | src/app/app.component.ts:88-92 | the swipe setting changes only when the top page changes; after a root or push it is the setting for the page the navigator shows |
| Routes.NavigateAllAppend | src/app/app.component.ts:117-127 | applying two runs of navigation effects one after the other equals applying their concatenation |
| Overlays.OverlayEffects | src/app/app.component.ts:183-200 | one hide exactly when the previous state is shown, one show exactly when the current state is shown, the hide first and the show carrying the current content |
| Overlays.OverlayEffectsTrack | src/app/app.component.ts:190-198 | replayed from the screen the previous state asks for, the decided steps reach the screen the current state asks for, never hiding an absent overlay nor showing over one, for all four rows of the table |
| Overlays.ChangeEffects | src/app/app.component.ts:132-200 | what one subscription decides when a snapshot arrives: at most two steps; none exactly when the slice was not replaced or both states are hidden; for a replaced slice, a hide first when the previous state is shown and a show of the current content last when the current state is shown |
| Overlays.UnchangedStateIsSilent | src/app/app.component.ts:150-153 | a slice the store did not replace triggers no step, even while it is shown |
| Overlays.ReplacedShownStateIsReopened | src/app/app.component.ts:196-197 | a shown state replaced by a different shown state gives a hide and then a show of the new content, whether or not the content changed |
| Overlays.ChangeEffectsTrack | src/app/app.component.ts:149-164 | what a subscription decides for one arrival, replayed from the screen the previous state asks for, reaches the screen the current state asks for |
| Overlays.ConflictIsFinal | src/app/app.component.ts:183-200 | once a hide finds nothing on screen or a show finds an overlay there, no later step repairs it |
| Overlays.NoConflictOnTheWay | src/app/app.component.ts:183-200 | a replay that ends without conflict had none at any intermediate point |
| Sequencing.Pairs | src/app/app.component.ts:111 | n snapshots give n-1 pairs, none for zero or one |
| Sequencing.PairsAreConsecutive | src/app/app.component.ts:111 | pair i is (s[i], s[i+1]) |
| Sequencing.PairsAppend | src/app/app.component.ts:136 | a new arrival adds exactly one pair: the last snapshot seen and the new one |
| Sequencing.RouteTrace | src/app/app.component.ts:117-127 | at most one navigation effect per pair |
| Sequencing.OverlayTrace | src/app/app.component.ts:150-162 | at most two overlay steps per pair; which steps they are is stated by OverlayTraceAppend |
| Sequencing.RouteTraceAppend | src/app/app.component.ts:117-127 | one more pair extends the navigation trace by that pair's decision |
| Sequencing.OverlayTraceAppend | src/app/app.component.ts:150-162 | one more pair extends an overlay kind's trace by what its subscription decides for that pair |
| Sequencing.FirstSnapshotIsSilent | src/app/app.component.ts:153 | the first snapshot alone forms no pair and triggers no navigation and no overlay step |
| Sequencing.RepeatedSnapshotIsSilent | src/app/app.component.ts:108-168 | a snapshot that arrives again unchanged forms one pair, which decides no navigation and no overlay step of any kind, shown or not |
| Sequencing.OverlayTraceTracks | src/app/app.component.ts:149-164 | over any run, the steps replayed from the first snapshot's screen end on the last snapshot's screen |
| Sequencing.OverlayTraceNeverConflicts | src/app/app.component.ts:149-164 | over any run, no prefix of the replayed steps hides an absent overlay or shows over a present one |
| Sequencing.NavigatorFollowsSingleSteps | src/app/app.component.ts:107-130 | if every change of stack in a run is a single step, a navigator starting on the first stack ends on the last |
| Sequencing.FourSnapshotRouteTrace | src/app/app.component.ts:111-127 | over four snapshots, the navigation trace is the decisions for pairs (0,1), (1,2), (2,3) in order |
| Sequencing.FourSnapshotOverlayTrace | src/app/app.component.ts:166-180 | over four snapshots, an overlay kind's trace is what its subscription decides for pairs (0,1), (1,2), (2,3), in order |
| Sequencing.SavedToastRoutes | src/app/app.component.ts:118-126 | pushing B over A and returning to A alone gives Push(B) then SetRoot(A), not a pop |
| Sequencing.SavedToastOverlays | src/app/app.component.ts:190-195 | in that run the toast is shown with its label and then hidden |
| Sequencing.SavedToastLeavesOthersAlone | src/app/app.component.ts:132-147 | in that run the loader and the modal see no step |
| Sequencing.OpenModalToast | src/app/app.component.ts:149-164 | in a run where a modal opens and stays open, a toast is shown with its label and then hidden |
| Sequencing.OpenModalStaysOpen | src/app/app.component.ts:166-181 | in that run the modal is shown once; its kept state object asks for no hide afterwards |
| Sequencing.OpenModalLeavesOthersAlone | src/app/app.component.ts:107-147 | in that run neither the loader nor the navigator is asked for anything |
| Executor.NavCallsAppend | src/app/app.component.ts:117-127 | the navigator calls for two runs of effects are the concatenation of each run's calls |
| Executor.NavCallOf | src/app/app.component.ts:202-216 | a root becomes setRoot with animation off, a push becomes push, a pop becomes pop animated exactly when the closed page is not a side page; setRoot and push carry the route's name and params |
| Executor.NavigationCallsFor | src/app/app.component.ts:202-216 | for each case of the decision, the exact navigator call: none, setRoot of the top page's name and params with animation off, pop animated exactly when the closed page is not a side page, push of the top page's name and params |
| Executor.StepsAppend | src/app/app.component.ts:183-200 | the steps performed by two runs of calls are the concatenation of each run's steps |
| Executor.UICalls | src/app/app.component.ts:183-200 | the calls the callbacks issue for one pair: a dismissal of the slot's handle exactly when the previous state is shown, first, and a presentation of a new handle with the current content exactly when the current state is shown and the kind is not the modal, last |
| Executor.UICallsRealiseDecision | src/app/app.component.ts:183-200 | the callbacks perform exactly the decided steps for toast and loader, and only the hide for the modal; every dismissal targets the slot's handle; every presentation is of the handle numbered `next` |
| Executor.ReplayTracks | src/app/app.component.ts:190-198 | calls that leave requested the previous state's screen, followed by the decided steps, leave requested the current state's screen |
| Executor.UICallsAdvance | src/app/app.component.ts:183-200 | a controller's log extended by one pair's calls performs that pair's decision, and moves from the previous screen to the current one |
| Executor.NavLogGrows | src/app/app.component.ts:117-127 | a navigator log holding the calls for the first i snapshots, extended by the next pair's calls, holds the calls for the first i+1 |
| Executor.ChangeCallsDismissThenPresent | src/app/app.component.ts:132-200 | the calls of one arrival: a dismissal of the slot's handle exactly when a shown slice was replaced, first; a presentation of a new handle numbered `next` with the current content exactly when a toast or loader slice was replaced by a shown state, last; no call, and no handle needed in the slot, for a slice that was not replaced |
| Executor.ChangeCallsAdvance | src/app/app.component.ts:150-162 | a controller's log extended by one arrival's calls performs what the subscription decides: nothing for an unchanged slice, the reconciler's decision for a replaced one |
| Executor.StepsGrow | src/app/app.component.ts:150-162 | the same for the steps of an overlay controller |
| Executor.ScreenAfterRun | src/app/app.component.ts:149-164 | a controller whose calls left requested the first snapshot's screen, once it has performed the run's steps, leaves requested the last snapshot's screen |
| Executor.SavedToastNavCalls | src/app/app.component.ts:202-210 | the navigator calls over the saved-toast run are push(B) then setRoot(A) without animation |
| Executor.SavedToastScenario | src/app/app.component.ts:107-164 | a fresh app shell executing the saved-toast run: push(B), setRoot(A) without animation, the toast shown and hidden, the loader and modal controllers never called |
| Executor.OpenModalScenario | src/app/app.component.ts:107-181 | a fresh app shell executes the run with a modal kept open: the toast is shown and hidden; the loader controller, the modal controller and the navigator are never called |
| Executor.App.constructor | src/app/app.component.ts:61-63 | all three slots start empty and no primitive has been called |
| Executor.App.SetRoot | src/app/app.component.ts:202-206 | appends one setRoot with the route's name and params and animation off |
| Executor.App.PushPage | src/app/app.component.ts:208-210 | appends one push with the route's name and params |
| Executor.App.PopPage | src/app/app.component.ts:212-216 | appends one pop, animated exactly when the page is not a side page |
| Executor.App.ShowToast | src/app/app.component.ts:218-225 | the toast slot holds a new handle with the toast's label, which is presented; no other slot changes |
| Executor.App.HideToast | src/app/app.component.ts:227-229 | the handle in the toast slot, which must exist, is dismissed; the slot is left as it is |
| Executor.App.ShowLoader | src/app/app.component.ts:231-236 | the loader slot holds a new handle with the loader's label, which is presented; no other slot changes |
| Executor.App.HideLoader | src/app/app.component.ts:238-240 | the handle in the loader slot, which must exist, is dismissed; the slot is left as it is |
| Executor.App.ShowModal | src/app/app.component.ts:242-244 | the modal's show callback does nothing: the modal slot is not assigned and the modal controller is not called; its frame is empty |
| Executor.App.HideModal | src/app/app.component.ts:246-248 | the handle in the modal slot, which must exist, is dismissed |
| Executor.App.ShowFor | src/app/app.component.ts:137-143 | the show callback of kind k: toast and loader create and present a handle in their own slot; the modal's does nothing; the other kinds are untouched |
| Executor.App.HideFor | src/app/app.component.ts:137-143 | the hide callback of kind k dismisses the handle in k's slot and touches no other controller |
| Executor.App.HandleUIDisplay | src/app/app.component.ts:183-200 | the controller of kind k receives exactly the callbacks' calls, and (toast, loader) performs exactly the decided steps; k's slot holds the new handle if one was shown; the invariant is kept; nothing else changes |
| Executor.App.HandleRoute | src/app/app.component.ts:117-126 | the navigator receives exactly the calls for the decided effect |
| Executor.App.Observe | src/app/app.component.ts:149-164 | one arrival on kind k's subscription: nothing is called when the slice was not replaced; otherwise k's controller receives the callbacks' calls and performs the decision; k's slot holds the new handle if one was presented; the invariant is kept; nothing else changes |
| Executor.App.LoaderArrives | src/app/app.component.ts:132-147 | one arrival on the loader's subscription: the loader controller receives exactly the subscription's calls and performs its decision; the loader slot holds the new handle if one was presented; the toast and modal are untouched |
| Executor.App.ToastArrives | src/app/app.component.ts:149-164 | one arrival on the toast's subscription: the toast controller receives exactly the subscription's calls and performs its decision; the toast slot holds the new handle if one was presented; the loader and modal are untouched |
| Executor.App.ModalArrives | src/app/app.component.ts:166-181 | one arrival on the modal's subscription: the modal controller receives exactly the subscription's calls, at most a dismissal, and none for a kept state object even while the modal is shown; no slot and no counter changes |
| Executor.App.HandlePair | src/app/app.component.ts:107-181 | one pair executed as loader, route, toast, modal: the navigator receives the calls for the route decision; the loader and toast controllers receive exactly their subscriptions' calls (none for a slice that was not replaced, otherwise a dismissal of the handle in the slot and a presentation of a new handle, the toast's numbered after the loader's), and so perform their decisions; the handle counter grows by one per presentation; the modal is not called; the slots hold the new handles |
| Executor.App.Admit | src/app/app.component.ts:107-181 | handling snapshot i extends every log from the traces of the first i snapshots to those of the first i+1, and keeps the slots matching the latest snapshot |
| Executor.App.Run | src/app/app.component.ts:107-181 | over a run, the navigator receives the calls for the route trace; toast and loader perform their overlay traces, and their calls end by leaving requested what the last snapshot asks for; the invariant is kept; the modal controller is not called |

## Left out

- Concurrency. `mergeMap` lets a pair's effects overlap with the next pair's (`:117`, `:137`, `:154`, `:171`). The model runs pairs one at a time. Within a pair, a hide completes before a show.
- Order across primitives. Each primitive has its own log, so the model does not record how calls to different primitives interleave. Within a pair, the model executes loader, route, toast, modal, in subscription order (`:69-72`). Handle numbers therefore follow the model's order, the loader's before the toast's, not the program's order of creation. For example, with a loader shown in both states of a replaced slice and a toast going from hidden to shown, the program creates the toast at once (`:195`) while the loader's new handle waits for the dismissal (`:197`), so the toast's is created first.
- Rejected promises and failures of the navigator or the overlay controllers. Every call is taken to succeed.
- The store's selectors compare slices by object identity. The model compares overlay states by value and relies on `instance` to tell objects apart, so two state objects are taken to carry different instances. Route stacks are compared by value: every snapshot counts as an arrival for the route subscription. This changes nothing, because a stack that was not replaced equals its predecessor and decides no navigation.
- Toast position and duration (`:219-223`). These have no effect on the decisions. Because of `duration: 4000` (`:222`), a real toast closes itself four seconds after it is presented. The model does not capture that. `Screen`, `Tracks`, `ScreenAfterRun` and `Run` describe what the calls leave requested, not what is on screen. A later `hideToast` (`:228`) may dismiss a toast that has already closed.
- Angular and Ionic wiring, the platform-ready sequence, the status bar and the splash screen (`:28-76`). All of this is I/O.
- Translation setup and geolocation dispatch (`:78-105`). These pass data to foreign services and make no decision.
- `src/components/login-form/login-form.ts` is not part of this model. It is form and dispatch glue with no reconciliation logic.
- Executor.App.HideModal: its precondition is never met from a valid state, because `showModal` (`:242-244`) never stores a modal. The model keeps the stub rather than invent a modal controller.
- Executor.App.Run: requires that a modal shown in any snapshot but the last keeps its state object in the next one. When the store replaces a shown modal's object, the program calls `hideModal` (`:176`, `:193`, `:197`) on a slot `showModal` never fills, so the call throws and ends the modal's subscription; a modal kept open is accepted, as `OpenModalScenario` shows.
- Executor.App.Run: requires at least one snapshot, because the store hands the current state to every new subscriber. It also requires the toast and loader controllers to start out with what the first snapshot asks for requested, and a handle in the slot of each overlay that is shown. On a fresh shell this rules out a first snapshot with a toast or loader shown. In the program, that case calls `dismiss` on the empty slot at the first replacement (`:228`, `:239`) and ends that subscription, just as for the modal.
- Executor.App.Run: states the calls to the toast and loader controllers up to handle identity, that is, as steps. Over a whole run it does not say which handle each call uses. `HandlePair` says so for each pair.
- Empty route stacks. `AppState.RouteStack` excludes them, because the code indexes the last element of every stack (`:90`, `:114-115`) and would fail on an empty one.
- Routes.Navigate: popping the root page is modelled as a no-op. The real navigator's behaviour there belongs to the framework.
- Handle identity is a creation counter, standing in for object identity of the controllers' handles.
- The swipe setting is modelled as a value of the current stack. When the observable emits is not modelled.
