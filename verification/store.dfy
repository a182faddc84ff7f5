/**
 * The panel state store of `ResizableLayoutProvider`: a map from panel id to an
 * open flag, written only through `SetPanelState`, with every write logged as a
 * persistence effect when a document is available.
 */
module PanelStore {
  import opened Wrappers
  import opened Effects

  /** Panel id to open flag; an absent id means closed. */
  type PanelState = map<string, bool>

  /**
   * The provider's state: the panel map, the effects issued so far, and whether a
   * `document` exists (false while rendering on the server).
   */
  datatype Store = Store(panels: PanelState, log: seq<Effect>, hasDocument: bool)

  const ProviderMissing: string :=
    "useResizableLayoutContext must be used within a ResizableLayoutProvider."

  /** The open flag of `id`, reading an absent id as closed (`panels[id] ?? false`). */
  function Read(panels: PanelState, id: string): (b: bool)
    ensures id !in panels ==> !b
    ensures id in panels ==> b == panels[id]
  {
    if id in panels then panels[id] else false
  }

  /** True when `a` and `b` give the same open flag to every id other than `id`. */
  ghost predicate AgreeExcept(a: PanelState, b: PanelState, id: string) {
    forall k :: k != id ==> Read(a, k) == Read(b, k)
  }

  /** Mounting a provider: `initialState` defaults to the empty map; nothing is logged. */
  function Provider(initialState: Option<PanelState>, hasDocument: bool): (s: Store)
    ensures s.log == [] && s.hasDocument == hasDocument
    ensures initialState.Some? ==> s.panels == initialState.value
    ensures initialState.None? ==> forall id :: !Read(s.panels, id)
  {
    Store(initialState.GetOr(map[]), [], hasDocument)
  }

  /** Looking the store up from a component: outside a provider this throws. */
  function UseContext(ctx: Option<Store>): (r: Result<Store, string>)
    ensures r.Success? <==> ctx.Some?
    ensures ctx.Some? ==> r == Success(ctx.value)
    ensures ctx.None? ==> r == Failure(ProviderMissing)
  {
    match ctx
    case Some(s) => Success(s)
    case None => Failure(ProviderMissing)
  }

  /**
   * `setPanelState(id, isOpen)`: overwrite exactly the key `id` and, when a
   * document exists, log one persistence write of `(id, isOpen)`.
   */
  function SetPanelState(s: Store, id: string, isOpen: bool): (r: Store)
    ensures r.panels.Keys == s.panels.Keys + {id}
    ensures id in r.panels && r.panels[id] == isOpen
    ensures forall k :: k in s.panels && k != id ==> r.panels[k] == s.panels[k]
    ensures r.hasDocument == s.hasDocument
    ensures s.hasDocument ==> r.log == s.log + [PersistPanel(id, isOpen)]
    ensures !s.hasDocument ==> r.log == s.log
  {
    var newState := s.panels[id := isOpen];
    var log := if s.hasDocument then s.log + [PersistPanel(id, isOpen)] else s.log;
    Store(newState, log, s.hasDocument)
  }

  /** `togglePanel(id)`: write the negation of the current read value of `id`. */
  function TogglePanel(s: Store, id: string): (r: Store)
    ensures Read(r.panels, id) == !Read(s.panels, id)
    ensures AgreeExcept(r.panels, s.panels, id)
    ensures r.hasDocument == s.hasDocument
    ensures s.hasDocument ==> r.log == s.log + [PersistPanel(id, !Read(s.panels, id))]
    ensures !s.hasDocument ==> r.log == s.log
  {
    SetPanelState(s, id, !Read(s.panels, id))
  }

  /** `openPanel(id)`: write `true` for `id` whatever it was. */
  function OpenPanel(s: Store, id: string): (r: Store)
    ensures Read(r.panels, id)
    ensures AgreeExcept(r.panels, s.panels, id)
    ensures r.hasDocument == s.hasDocument
    ensures s.hasDocument ==> r.log == s.log + [PersistPanel(id, true)]
    ensures !s.hasDocument ==> r.log == s.log
  {
    SetPanelState(s, id, true)
  }

  /** `closePanel(id)`: write `false` for `id` whatever it was. */
  function ClosePanel(s: Store, id: string): (r: Store)
    ensures !Read(r.panels, id)
    ensures AgreeExcept(r.panels, s.panels, id)
    ensures r.hasDocument == s.hasDocument
    ensures s.hasDocument ==> r.log == s.log + [PersistPanel(id, false)]
    ensures !s.hasDocument ==> r.log == s.log
  {
    SetPanelState(s, id, false)
  }

  /**
   * Toggling twice restores every read value, and logs two writes: first the
   * flipped value, then the original one.
   */
  lemma ToggleInvolution(s: Store, id: string)
    ensures forall k :: Read(TogglePanel(TogglePanel(s, id), id).panels, k) == Read(s.panels, k)
    ensures s.hasDocument ==>
      TogglePanel(TogglePanel(s, id), id).log ==
      s.log + [PersistPanel(id, !Read(s.panels, id)), PersistPanel(id, Read(s.panels, id))]
  {
  }

  /** A toggle is an open when the panel reads closed and a close when it reads open. */
  lemma ToggleIsOpenOrClose(s: Store, id: string)
    ensures !Read(s.panels, id) ==> TogglePanel(s, id) == OpenPanel(s, id)
    ensures Read(s.panels, id) ==> TogglePanel(s, id) == ClosePanel(s, id)
  {
  }

  /** Opening twice leaves the same map as opening once, yet logs a second write. */
  lemma OpenIdempotent(s: Store, id: string)
    ensures OpenPanel(OpenPanel(s, id), id).panels == OpenPanel(s, id).panels
    ensures s.hasDocument ==>
      OpenPanel(OpenPanel(s, id), id).log == s.log + [PersistPanel(id, true), PersistPanel(id, true)]
  {
  }

  /** Closing twice leaves the same map as closing once, yet logs a second write. */
  lemma CloseIdempotent(s: Store, id: string)
    ensures ClosePanel(ClosePanel(s, id), id).panels == ClosePanel(s, id).panels
    ensures s.hasDocument ==>
      ClosePanel(ClosePanel(s, id), id).log == s.log + [PersistPanel(id, false), PersistPanel(id, false)]
  {
  }
}
