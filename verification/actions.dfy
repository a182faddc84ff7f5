/**
 * `ResizableLayoutTrigger`, `ResizableLayoutOpen` and `ResizableLayoutClose`:
 * stateless controls whose click runs the user's `onClick`, then dispatches one
 * store operation for their panel id.
 */
module LayoutActions {
  import opened Effects
  import opened PanelStore

  /** The three controls: toggle, force-open and force-close of one panel. */
  datatype ActionElement = Trigger(id: string) | OpenAction(id: string) | CloseAction(id: string)

  /** The open flag the control's panel has after a click, given the flag before it. */
  function Target(el: ActionElement, before: bool): bool {
    match el
    case Trigger(_) => !before
    case OpenAction(_) => true
    case CloseAction(_) => false
  }

  /**
   * The store operation the control dispatches: the panel gets the control's
   * target flag, the others keep theirs, and one write of it is logged when a
   * document exists.
   */
  function Dispatch(s: Store, el: ActionElement): (r: Store)
    ensures Read(r.panels, el.id) == Target(el, Read(s.panels, el.id))
    ensures AgreeExcept(r.panels, s.panels, el.id)
    ensures r.hasDocument == s.hasDocument
    ensures s.hasDocument ==> r.log == s.log + [PersistPanel(el.id, Target(el, Read(s.panels, el.id)))]
    ensures !s.hasDocument ==> r.log == s.log
  {
    match el
    case Trigger(id) => TogglePanel(s, id)
    case OpenAction(id) => OpenPanel(s, id)
    case CloseAction(id) => ClosePanel(s, id)
  }

  /**
   * A click: the user's `onClick` (when given) is logged first, then the panel
   * gets the control's target flag, the other panels keep theirs, and one
   * persistence write of that flag follows when a document exists.
   */
  function Click(s: Store, el: ActionElement, hasOnClick: bool): (r: Store)
    ensures Read(r.panels, el.id) == Target(el, Read(s.panels, el.id))
    ensures AgreeExcept(r.panels, s.panels, el.id)
    ensures r.panels == s.panels[el.id := Target(el, Read(s.panels, el.id))]
    ensures r.hasDocument == s.hasDocument
    ensures r.log == s.log + (if hasOnClick then [ClickCallback] else [])
                           + (if s.hasDocument then [PersistPanel(el.id, Target(el, Read(s.panels, el.id)))] else [])
  {
    var afterUser := if hasOnClick then s.(log := s.log + [ClickCallback]) else s;
    Dispatch(afterUser, el)
  }

  /**
   * A click on a control rendered inside or outside a provider: outside one the
   * render throws the provider-missing error and no click can happen; inside
   * one the click behaves as `Click`.
   */
  function ClickWithin(ctx: Wrappers.Option<Store>, el: ActionElement, hasOnClick: bool): (r: Wrappers.Result<Store, string>)
    ensures ctx.None? ==> r == Wrappers.Failure(ProviderMissing)
    ensures ctx.Some? ==> r.Success?
    ensures ctx.Some? ==> Read(r.value.panels, el.id) == Target(el, Read(ctx.value.panels, el.id))
    ensures ctx.Some? ==> AgreeExcept(r.value.panels, ctx.value.panels, el.id)
    ensures ctx.Some? ==> r == Wrappers.Success(Click(ctx.value, el, hasOnClick))
  {
    match UseContext(ctx)
    case Success(s) => Wrappers.Success(Click(s, el, hasOnClick))
    case Failure(e) => Wrappers.Failure(e)
  }

  /**
   * A force-open control never closes its panel, however often it is clicked;
   * a trigger clicked twice restores the panel.
   */
  lemma OpenVersusTrigger(s: Store, id: string)
    ensures Read(Click(Click(s, OpenAction(id), false), OpenAction(id), false).panels, id)
    ensures Read(Click(Click(s, Trigger(id), false), Trigger(id), false).panels, id) == Read(s.panels, id)
  {
  }
}
