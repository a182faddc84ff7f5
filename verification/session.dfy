/**
 * A session of user events against one provider, and the persistence log it
 * leaves behind: replaying the logged panel writes over the starting map
 * rebuilds the in-memory map, so a reload seeded from the persisted record
 * shows the same open flags.
 */
module Session {
  import opened Effects
  import opened PanelStore
  import opened LayoutGroup
  import opened LayoutPanel
  import opened LayoutActions

  /** What can happen to the store after mount. */
  datatype UiEvent =
    | Clicked(element: ActionElement, hasOnClick: bool)
    | WidgetCollapsed(panel: PanelConfig)
    | WidgetExpanded(panel: PanelConfig)
    | LayoutSettled(sizes: seq<Percent>, hasOnLayout: bool)

  /** A persisted record updated by one effect: panel writes overwrite their key. */
  function ApplyRecord(panels: PanelState, e: Effect): (r: PanelState)
    ensures e.PersistPanel? ==> Read(r, e.panelId) == e.isOpen && AgreeExcept(r, panels, e.panelId)
    ensures !e.PersistPanel? ==> r == panels
  {
    match e
    case PersistPanel(id, isOpen) => panels[id := isOpen]
    case _ => panels
  }

  /** The flag of the last write of `id` in `log`, if `log` writes `id` at all. */
  function LastWrite(log: seq<Effect>, id: string): Wrappers.Option<bool>
    decreases |log|
  {
    if log == [] then Wrappers.None
    else
      var later := LastWrite(log[1..], id);
      if later.Some? then later
      else if log[0].PersistPanel? && log[0].panelId == id then Wrappers.Some(log[0].isOpen)
      else Wrappers.None
  }

  /** The persisted panel record after the effects of `log`, starting from `panels`. */
  function Replay(panels: PanelState, log: seq<Effect>): PanelState
    decreases |log|
  {
    if log == [] then panels else Replay(ApplyRecord(panels, log[0]), log[1..])
  }

  /**
   * In the replayed record each id reads the flag of its last logged write, and
   * an id the log never writes keeps its starting flag.
   */
  lemma {:induction false} ReplayLastWriteWins(panels: PanelState, log: seq<Effect>, id: string)
    ensures Read(Replay(panels, log), id) == LastWrite(log, id).GetOr(Read(panels, id))
    decreases |log|
  {
    if log != [] {
      ReplayLastWriteWins(ApplyRecord(panels, log[0]), log[1..], id);
    }
  }

  /** Replaying a concatenation replays the two parts one after the other. */
  lemma {:induction false} ReplayAppend(panels: PanelState, a: seq<Effect>, b: seq<Effect>)
    ensures Replay(panels, a + b) == Replay(Replay(panels, a), b)
    decreases |a|
  {
    if a == [] {
      assert a + b == b;
    } else {
      assert (a + b)[0] == a[0];
      assert (a + b)[1..] == a[1..] + b;
      ReplayAppend(ApplyRecord(panels, a[0]), a[1..], b);
    }
  }

  /**
   * `r` follows `s` by appending effects only; with a document the appended
   * panel writes replay over `s`'s map to `r`'s map, without one there are none.
   */
  ghost predicate Extends(s: Store, r: Store) {
    && r.hasDocument == s.hasDocument
    && |s.log| <= |r.log| && r.log[..|s.log|] == s.log
    && (s.hasDocument ==> Replay(s.panels, r.log[|s.log|..]) == r.panels)
    && (!s.hasDocument ==> NoPanelWrites(r.log[|s.log|..]))
  }

  /** A click extends the store: a user callback entry, then at most one panel write. */
  lemma ClickExtends(s: Store, el: ActionElement, hasOnClick: bool)
    ensures Extends(s, Click(s, el, hasOnClick))
  {
    var r := Click(s, el, hasOnClick);
    var v := Target(el, Read(s.panels, el.id));
    var delta := r.log[|s.log|..];
    var write := if s.hasDocument then [PersistPanel(el.id, v)] else [];
    if hasOnClick {
      assert r.log == s.log + [ClickCallback] + write;
      assert delta == [ClickCallback] + write;
      assert Replay(s.panels, delta) == Replay(s.panels, write);
    } else {
      assert r.log == s.log + write;
      assert delta == write;
    }
    if s.hasDocument {
      assert Replay(s.panels, write) == Replay(s.panels[el.id := v], []);
    }
  }

  /** A store left alone, or one `setPanelState` write, extends the store. */
  lemma WriteBackExtends(s: Store, r: Store, id: string, v: bool)
    requires r == s || r == SetPanelState(s, id, v)
    ensures Extends(s, r)
  {
  }

  /** A settled layout extends the store with entries that carry no panel write. */
  lemma LayoutExtends(s: Store, sizes: seq<Percent>, hasOnLayout: bool)
    ensures Extends(s, s.(log := HandleOnLayout(s.log, sizes, hasOnLayout)))
  {
    var r := s.(log := HandleOnLayout(s.log, sizes, hasOnLayout));
    var delta := r.log[|s.log|..];
    var write := [PersistSizes(sizes)];
    if hasOnLayout {
      assert r.log == s.log + [LayoutCallback(sizes)] + write;
      assert delta == [LayoutCallback(sizes)] + write;
      assert Replay(s.panels, delta) == Replay(s.panels, write);
    } else {
      assert r.log == s.log + write;
      assert delta == write;
    }
    assert Replay(s.panels, write) == Replay(s.panels, []);
  }

  /**
   * One event: its effects are appended to the log, and with a document the
   * appended panel writes replay over the old map to the new map.
   */
  function Step(s: Store, e: UiEvent): (r: Store)
    ensures Extends(s, r)
    ensures e.Clicked? ==> Read(r.panels, e.element.id) == Target(e.element, Read(s.panels, e.element.id))
    ensures e.Clicked? ==> AgreeExcept(r.panels, s.panels, e.element.id)
    ensures e.WidgetCollapsed? ==> r == OnCollapse(s, e.panel)
    ensures e.WidgetExpanded? ==> r == OnExpand(s, e.panel)
    ensures e.LayoutSettled? ==> r.panels == s.panels
  {
    match e
    case Clicked(el, hasOnClick) =>
      ClickExtends(s, el, hasOnClick);
      Click(s, el, hasOnClick)
    case WidgetCollapsed(cfg) =>
      WriteBackExtends(s, OnCollapse(s, cfg), cfg.id, false);
      OnCollapse(s, cfg)
    case WidgetExpanded(cfg) =>
      WriteBackExtends(s, OnExpand(s, cfg), cfg.id, true);
      OnExpand(s, cfg)
    case LayoutSettled(sizes, hasOnLayout) =>
      LayoutExtends(s, sizes, hasOnLayout);
      s.(log := HandleOnLayout(s.log, sizes, hasOnLayout))
  }

  /** A sequence of events, in order. */
  function Run(s: Store, events: seq<UiEvent>): (r: Store)
    ensures r.hasDocument == s.hasDocument
    ensures |s.log| <= |r.log| && r.log[..|s.log|] == s.log
    decreases |events|
  {
    if events == [] then s else Run(Step(s, events[0]), events[1..])
  }

  /** Extending is transitive: the two appended stretches of the log replay one after the other. */
  lemma ExtendsTransitive(a: Store, b: Store, c: Store)
    requires Extends(a, b) && Extends(b, c)
    ensures Extends(a, c)
  {
    var first := b.log[|a.log|..];
    var rest := c.log[|b.log|..];
    assert c.log[..|a.log|] == a.log by {
      assert c.log[..|a.log|] == c.log[..|b.log|][..|a.log|];
    }
    assert c.log[|a.log|..] == first + rest by {
      assert c.log[..|b.log|] == b.log;
    }
    if a.hasDocument {
      ReplayAppend(a.panels, first, rest);
    } else {
      assert forall i :: 0 <= i < |first + rest| ==> (first + rest)[i] == (if i < |first| then first[i] else rest[i - |first|]);
    }
  }

  /** A whole session extends the store it started from. */
  lemma {:induction false} RunExtends(s: Store, events: seq<UiEvent>)
    ensures Extends(s, Run(s, events))
    decreases |events|
  {
    if events == [] {
      assert Run(s, events).log[|s.log|..] == [];
    } else {
      var s1 := Step(s, events[0]);
      RunExtends(s1, events[1..]);
      ExtendsTransitive(s, s1, Run(s1, events[1..]));
    }
  }

  /**
   * With a document, the persistence writes a session logs, replayed over the
   * map the session started from, give exactly the map it ends with.
   */
  lemma ReplayReproducesState(s: Store, events: seq<UiEvent>)
    requires s.hasDocument
    ensures Replay(s.panels, Run(s, events).log[|s.log|..]) == Run(s, events).panels
  {
    RunExtends(s, events);
  }

  /**
   * A provider seeded with the persisted record reads every panel exactly as
   * the session left it.
   */
  lemma ReloadShowsSameState(s: Store, events: seq<UiEvent>, id: string)
    requires s.hasDocument
    ensures Read(Provider(Wrappers.Some(Replay(s.panels, Run(s, events).log[|s.log|..])), true).panels, id)
            == Read(Run(s, events).panels, id)
  {
    RunExtends(s, events);
  }

  /** Without a document (a server render), no panel write is ever persisted. */
  lemma ServerSessionPersistsNothing(s: Store, events: seq<UiEvent>)
    requires !s.hasDocument
    ensures NoPanelWrites(Run(s, events).log[|s.log|..])
  {
    RunExtends(s, events);
  }

  /**
   * A fresh session (no initial state) where the nav trigger is clicked once:
   * the panel reads open and the one persistence write records it open.
   */
  lemma FreshSessionToggle()
    ensures Read(Run(Provider(Wrappers.None, true), [Clicked(Trigger("nav"), false)]).panels, "nav")
    ensures Run(Provider(Wrappers.None, true), [Clicked(Trigger("nav"), false)]).log == [PersistPanel("nav", true)]
  {
  }
}
