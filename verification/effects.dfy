/** The observable side effects of the layout engine, recorded in order. */
module Effects {

  /** A size percentage of a layout group; only copied and compared. */
  type Percent = real

  /**
   * One entry of the effect log. The persistence entries stand for the calls to
   * `updateResizableLayoutCookie`; the callback entries stand for calls into user
   * code that the layout components forward to.
   */
  datatype Effect =
    | PersistPanel(panelId: string, isOpen: bool)
    | PersistSizes(sizes: seq<Percent>)
    | LayoutCallback(sizes: seq<Percent>)
    | ClickCallback

  /** True when no entry of `log` persists a panel's open flag. */
  predicate NoPanelWrites(log: seq<Effect>) {
    forall i :: 0 <= i < |log| ==> !log[i].PersistPanel?
  }
}
