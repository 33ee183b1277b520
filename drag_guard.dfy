/**
 * The Linux drag-start guard of the live preload branch: a stateless filter
 * that cancels the default drag of images and links, so that a drop outside
 * a valid target cannot leave the window stuck in a dragging state.
 */
module DragGuard {

  /** The `target` of a dragstart event, as far as the listener inspects it. */
  datatype DragTarget =
    | NoTarget                    // `target === null`
    // A node that is not an `HTMLElement` (text, SVG, ...). The listener returns
    // before it reads the node name, so an SVG "A" is never prevented.
    | OtherNode(nodeName: string)
    | HtmlElement(nodeName: string)

  /** The platform on which the guard is installed (`process.platform`). */
  const AffectedPlatform: string := "linux"

  /** Whether the dragstart listener calls `preventDefault` for `target`. */
  predicate ListenerPrevents(target: DragTarget)
  {
    match target
    case NoTarget => false
    case OtherNode(_) => false
    case HtmlElement(nodeName) => nodeName == "IMG" || nodeName == "A"
  }
}
