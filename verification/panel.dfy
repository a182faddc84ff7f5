/**
 * `ResizableLayoutPanel` and `ResizableLayoutContent`: prop defaults, the effect
 * that reconciles the store's open flag with the widget, the resize floor, the
 * collapse/expand write-back and the transition flag.
 */
module LayoutPanel {
  import opened Wrappers
  import opened Effects
  import opened PanelStore
  import opened PanelWidget

  const DefaultMinSize: Percent := 20.0
  const DefaultSize: Percent := 25.0
  const DefaultMaxSize: Percent := 30.0

  const ContentDefaultSize: Percent := 75.0
  const ContentMinSize: Percent := 70.0
  const ContentMaxSize: Percent := 100.0

  /** The props a panel is written with; every sizing prop and flag may be omitted. */
  datatype PanelProps = PanelProps(
    id: string,
    minSize: Option<Percent>,
    defaultSize: Option<Percent>,
    maxSize: Option<Percent>,
    collapseOnResize: Option<bool>,
    disableTransition: Option<bool>)

  /** A panel's props once the defaults are filled in. */
  datatype PanelConfig = PanelConfig(
    id: string,
    minSize: Percent,
    defaultSize: Percent,
    maxSize: Percent,
    collapseOnResize: bool,
    disableTransition: bool)

  /** The sizing props of a content region once its defaults are filled in. */
  datatype ContentConfig = ContentConfig(defaultSize: Percent, minSize: Percent, maxSize: Percent, disableTransition: bool)

  /**
   * The per-panel state: the ref (unset before mount), the drag flag set by the
   * handle's `onDragging`, and the open flag the effect last ran with.
   */
  datatype Controller = Controller(handle: Option<Handle>, isResizing: bool, lastIsOpen: Option<bool>)

  /** Filling in the panel defaults: a given prop wins, an omitted one takes 20/25/30/false/false. */
  function Configure(p: PanelProps): (c: PanelConfig)
    ensures c.id == p.id
    ensures c.minSize == (if p.minSize.Some? then p.minSize.value else 20.0)
    ensures c.defaultSize == (if p.defaultSize.Some? then p.defaultSize.value else 25.0)
    ensures c.maxSize == (if p.maxSize.Some? then p.maxSize.value else 30.0)
    ensures c.collapseOnResize <==> p.collapseOnResize == Some(true)
    ensures c.disableTransition <==> p.disableTransition == Some(true)
  {
    PanelConfig(
      p.id,
      p.minSize.GetOr(DefaultMinSize),
      p.defaultSize.GetOr(DefaultSize),
      p.maxSize.GetOr(DefaultMaxSize),
      p.collapseOnResize.GetOr(false),
      p.disableTransition.GetOr(false))
  }

  /** Filling in the content defaults: a given prop wins, an omitted one takes 75/70/100/false. */
  function ConfigureContent(defaultSize: Option<Percent>, minSize: Option<Percent>, maxSize: Option<Percent>,
                            disableTransition: Option<bool>): (c: ContentConfig)
    ensures c.defaultSize == (if defaultSize.Some? then defaultSize.value else 75.0)
    ensures c.minSize == (if minSize.Some? then minSize.value else 70.0)
    ensures c.maxSize == (if maxSize.Some? then maxSize.value else 100.0)
    ensures c.disableTransition <==> disableTransition == Some(true)
  {
    ContentConfig(
      defaultSize.GetOr(ContentDefaultSize),
      minSize.GetOr(ContentMinSize),
      maxSize.GetOr(ContentMaxSize),
      disableTransition.GetOr(false))
  }

  /**
   * The body of the reconcile effect: no call without a ref, `expand()` when the
   * store says open but the widget is collapsed, `collapse()` in the mirror case.
   */
  function Reconcile(isOpen: bool, ref: Option<Handle>): (call: Option<WidgetCall>)
    ensures ref.None? ==> call.None?
    ensures call == Some(Expand) <==> ref.Some? && isOpen && ref.value.collapsed
    ensures call == Some(Collapse) <==> ref.Some? && !isOpen && !ref.value.collapsed
    ensures call.None? || call == Some(Expand) || call == Some(Collapse)
  {
    match ref
    case None => None
    case Some(panel) =>
      if isOpen && panel.collapsed then Some(Expand)
      else if !isOpen && !panel.collapsed then Some(Collapse)
      else None
  }

  /** A call is issued exactly when the widget disagrees with the store. */
  lemma ReconcileIssuesOnDisagreement(isOpen: bool, h: Handle)
    ensures Reconcile(isOpen, Some(h)).Some? <==> h.collapsed == isOpen
  {
  }

  /**
   * Once the widget honours the call, it agrees with the store
   * (collapsed iff closed), and reconciling again issues nothing.
   */
  lemma ReconcileConverges(isOpen: bool, h: Handle)
    ensures PerformIfAny(h, Reconcile(isOpen, Some(h))).collapsed == !isOpen
    ensures Reconcile(isOpen, Some(PerformIfAny(h, Reconcile(isOpen, Some(h))))).None?
  {
  }

  /**
   * A commit of the panel reading `isOpen` from the store: the effect runs only
   * on mount or when `isOpen` changed since its last run (its dependency list),
   * and the widget then honours the call it issued.
   */
  function Commit(c: Controller, isOpen: bool): (r: (Controller, Option<WidgetCall>))
    ensures r.0.lastIsOpen == Some(isOpen)
    ensures r.0.isResizing == c.isResizing && r.0.handle.Some? == c.handle.Some?
    ensures c.lastIsOpen == Some(isOpen) ==> r.0 == c && r.1.None?
    ensures c.lastIsOpen != Some(isOpen) && c.handle.Some? ==> r.0.handle.value.collapsed == !isOpen
    ensures r.1.Some? ==> c.handle.Some? && c.handle.value.collapsed == isOpen
    ensures c.lastIsOpen != Some(isOpen) ==> r.1 == Reconcile(isOpen, c.handle)
    ensures c.handle.Some? ==> r.0.handle.value.size == c.handle.value.size
  {
    if c.lastIsOpen == Some(isOpen) then (c, None)
    else
      var call := Reconcile(isOpen, c.handle);
      var handle := match c.handle
        case Some(h) => Some(PerformIfAny(h, call))
        case None => None;
      (c.(handle := handle, lastIsOpen := Some(isOpen)), call)
  }

  /**
   * Opening a collapsed panel through the store issues exactly one `expand()`,
   * and committing the same open flag again issues nothing more.
   */
  lemma ExpandOnce(c: Controller, s: Store, id: string)
    requires c.handle.Some? && c.handle.value.collapsed
    requires c.lastIsOpen == Some(false)
    ensures Commit(c, Read(OpenPanel(s, id).panels, id)).1 == Some(Expand)
    ensures Commit(Commit(c, Read(OpenPanel(s, id).panels, id)).0, Read(OpenPanel(s, id).panels, id)).1.None?
  {
  }

  /** `onDragging`: the handle reports whether a drag is in progress. */
  function OnDragging(c: Controller, dragging: bool): (r: Controller)
    ensures r.isResizing == dragging
    ensures r.handle == c.handle && r.lastIsOpen == c.lastIsOpen
  {
    c.(isResizing := dragging)
  }

  /** The animated `flex` transition class is applied. */
  predicate TransitionEnabled(cfg: PanelConfig, c: Controller)
    ensures c.isResizing ==> !TransitionEnabled(cfg, c)
    ensures cfg.disableTransition ==> !TransitionEnabled(cfg, c)
    ensures !c.isResizing && !cfg.disableTransition ==> TransitionEnabled(cfg, c)
  {
    !cfg.disableTransition && !c.isResizing
  }

  /**
   * A drag switches the panel's animation off; when it ends, animation returns
   * unless the panel disables it.
   */
  lemma DragSuppressesTransition(cfg: PanelConfig, c: Controller)
    ensures !TransitionEnabled(cfg, OnDragging(c, true))
    ensures TransitionEnabled(cfg, OnDragging(c, false)) <==> !cfg.disableTransition
  {
  }

  /**
   * `handleResize(size)`: force `resize(minSize)` exactly when the reported size
   * is below the floor, the ref is set, a drag is in progress and the panel does
   * not collapse on resize.
   */
  function HandleResize(cfg: PanelConfig, c: Controller, size: Percent): (call: Option<WidgetCall>)
    ensures call.Some? <==> size < cfg.minSize && c.handle.Some? && c.isResizing && !cfg.collapseOnResize
    ensures call.Some? ==> call.value == Resize(cfg.minSize)
  {
    if size < cfg.minSize && c.handle.Some? && c.isResizing && !cfg.collapseOnResize then
      Some(Resize(cfg.minSize))
    else None
  }

  /**
   * During a drag of a panel that does not collapse on resize, the widget ends
   * up at the larger of the reported size and the floor.
   */
  lemma ResizeFloor(cfg: PanelConfig, c: Controller, size: Percent)
    requires c.handle.Some? && c.handle.value.size == size
    requires c.isResizing && !cfg.collapseOnResize
    ensures PerformIfAny(c.handle.value, HandleResize(cfg, c, size)).size >= cfg.minSize
    ensures PerformIfAny(c.handle.value, HandleResize(cfg, c, size)).size ==
            (if size < cfg.minSize then cfg.minSize else size)
  {
  }

  /**
   * `onCollapse`: when the panel collapses on resize and the store says open,
   * write `closePanel(id)`; otherwise leave the store alone.
   */
  function OnCollapse(s: Store, cfg: PanelConfig): (r: Store)
    ensures cfg.collapseOnResize ==> !Read(r.panels, cfg.id)
    ensures !cfg.collapseOnResize ==> r == s
    ensures r != s <==> cfg.collapseOnResize && Read(s.panels, cfg.id)
    ensures r != s ==> r == ClosePanel(s, cfg.id)
    ensures AgreeExcept(r.panels, s.panels, cfg.id)
  {
    if cfg.collapseOnResize && Read(s.panels, cfg.id) then ClosePanel(s, cfg.id) else s
  }

  /**
   * `onExpand`: when the panel collapses on resize and the store says closed,
   * write `openPanel(id)`; otherwise leave the store alone.
   */
  function OnExpand(s: Store, cfg: PanelConfig): (r: Store)
    ensures cfg.collapseOnResize ==> Read(r.panels, cfg.id)
    ensures !cfg.collapseOnResize ==> r == s
    ensures r != s <==> cfg.collapseOnResize && !Read(s.panels, cfg.id)
    ensures r != s ==> r == OpenPanel(s, cfg.id)
    ensures AgreeExcept(r.panels, s.panels, cfg.id)
  {
    if cfg.collapseOnResize && !Read(s.panels, cfg.id) then OpenPanel(s, cfg.id) else s
  }

  /**
   * After a drag expands a collapse-on-resize panel, the effect that the store
   * change triggers finds the widget already expanded and issues nothing.
   */
  lemma ExpandWriteBackIsQuiet(s: Store, cfg: PanelConfig, c: Controller)
    requires cfg.collapseOnResize
    requires c.handle.Some? && !c.handle.value.collapsed
    ensures Commit(c, Read(OnExpand(s, cfg).panels, cfg.id)).1.None?
  {
  }

  /**
   * After a drag collapses a collapse-on-resize panel, the effect that the store
   * change triggers finds the widget already collapsed and issues nothing.
   */
  lemma CollapseWriteBackIsQuiet(s: Store, cfg: PanelConfig, c: Controller)
    requires cfg.collapseOnResize
    requires c.handle.Some? && c.handle.value.collapsed
    ensures Commit(c, Read(OnCollapse(s, cfg).panels, cfg.id)).1.None?
  {
  }
}
