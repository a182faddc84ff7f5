/**
 * The imperative handle of the resizable-panels widget, reduced to what the
 * layout engine asks of it: a collapsed flag, a size, and three commands.
 */
module PanelWidget {
  import opened Wrappers
  import opened Effects

  /** What `isCollapsed()` reports and the panel's current size. */
  datatype Handle = Handle(collapsed: bool, size: Percent)

  /** The commands the layout engine issues on a handle. */
  datatype WidgetCall = Expand | Collapse | Resize(size: Percent)

  /**
   * The widget honouring a command: `expand()` and `collapse()` set the flag that
   * `isCollapsed()` reports, `resize(n)` sets the size.
   */
  function Perform(h: Handle, call: WidgetCall): Handle {
    match call
    case Expand => h.(collapsed := false)
    case Collapse => h.(collapsed := true)
    case Resize(n) => h.(size := n)
  }

  /** Performing the call, if any. */
  function PerformIfAny(h: Handle, call: Option<WidgetCall>): Handle {
    match call
    case Some(c) => Perform(h, c)
    case None => h
  }
}
