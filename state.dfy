/** The application-state values the reconciliation engine of the app shell observes:
    one snapshot per store change, holding the route stack and the three overlay states. */
module AppState {

  datatype Option<+T> = None | Some(value: T)

  /** Navigation parameters are handed to the navigator untouched. */
  type Params = map<string, string>

  /** One entry of the route stack: the page name and its parameters. */
  datatype Route = Route(name: string, params: Params)

  /** Oldest page first; the last element is the page on screen. The store always
      holds at least the root page, so a stack is never empty. */
  type RouteStack = s: seq<Route> | |s| > 0 witness [Route("", map[])]

  /** Whether an overlay should be on screen, and the label it carries. `instance` stands
      for the identity of the state object the store holds for the slice: every update
      of the slice replaces that object and gives it a new instance, so two equal
      overlay values are one and the same object. */
  datatype Overlay = Overlay(isShown: bool, content: string, instance: nat)

  /** The three overlay kinds the engine drives. */
  datatype Kind = Toast | Loader | Modal

  /** One immutable whole-state value. */
  datatype Snapshot = Snapshot(routes: RouteStack, toast: Overlay, loader: Overlay, modal: Overlay)
  {
    /** The overlay state of kind `k` in this snapshot. */
    function OverlayOf(k: Kind): Overlay {
      match k
      case Toast => toast
      case Loader => loader
      case Modal => modal
    }
  }

  /** The page on screen: the last element of the stack. */
  function Top(stack: RouteStack): Route {
    stack[|stack| - 1]
  }
}
