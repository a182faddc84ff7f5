/**
 * `ResizableLayoutGroup`: hands out the entries of `defaultLayout` by position to
 * the valid element children, and forwards settled size vectors.
 */
module LayoutGroup {
  import opened Wrappers
  import opened Effects

  /**
   * Which component a valid element child is. The group treats all kinds alike;
   * the kind only names the child in examples.
   */
  datatype Kind = PanelElement | ContentElement | OtherElement

  /**
   * A direct child of the group: a valid element with its own (possibly omitted)
   * `defaultSize` prop (fragments and other components are `OtherElement`), or a
   * child that is not a valid element: a string, a number or a portal.
   */
  datatype Child = Element(kind: Kind, defaultSize: Option<Percent>) | NonElement(text: string)

  /** Number of valid element children in `cs`. */
  function ElementCount(cs: seq<Child>): (n: nat)
    ensures n <= |cs|
  {
    if cs == [] then 0
    else (if cs[0].Element? then 1 else 0) + ElementCount(cs[1..])
  }

  /** The `defaultSize` prop after cloning with index `k`: the layout entry when it exists. */
  function AssignedSize(layout: Option<seq<Percent>>, k: nat, own: Option<Percent>): Option<Percent> {
    if layout.Some? && k < |layout.value| then Some(layout.value[k]) else own
  }

  /** The sizing props of the element children of `cs`, in order. */
  function ElementSizes(cs: seq<Child>): (sizes: seq<Option<Percent>>)
    ensures |sizes| == ElementCount(cs)
  {
    if cs == [] then []
    else if cs[0].Element? then [cs[0].defaultSize] + ElementSizes(cs[1..])
    else ElementSizes(cs[1..])
  }

  /** Counting the elements of a non-empty prefix peels off its first child. */
  lemma {:induction false} ElementCountPrefix(cs: seq<Child>, i: nat)
    requires 0 < i <= |cs|
    ensures ElementCount(cs[..i]) == (if cs[0].Element? then 1 else 0) + ElementCount(cs[1..][..i - 1])
  {
    assert cs[..i][0] == cs[0];
    assert cs[..i][1..] == cs[1..][..i - 1];
  }

  /**
   * Child i of `kids` is child i of `children` cloned as the group clones it,
   * with `panelIndex` elements counted before `children` starts: an element gets
   * the layout entry at its element index, anything else is kept as it is.
   */
  ghost predicate ClonedAt(children: seq<Child>, kids: seq<Child>, layout: Option<seq<Percent>>, panelIndex: nat, i: nat)
    requires i < |children| && i < |kids|
  {
    if children[i].Element? then
      kids[i] == children[i].(defaultSize :=
        AssignedSize(layout, panelIndex + ElementCount(children[..i]), children[i].defaultSize))
    else kids[i] == children[i]
  }

  /** One step of the map: a correct head followed by a correct tail is correct at every i. */
  lemma ClonedCons(children: seq<Child>, rest: seq<Child>, layout: Option<seq<Percent>>, panelIndex: nat, next: nat)
    requires children != [] && |rest| == |children| - 1
    requires next == panelIndex + (if children[0].Element? then 1 else 0)
    requires forall i :: 0 <= i < |rest| ==> ClonedAt(children[1..], rest, layout, next, i)
    ensures forall i :: 0 <= i < |children| ==>
              ClonedAt(children, [MapHead(children[0], layout, panelIndex)] + rest, layout, panelIndex, i)
  {
    var kids := [MapHead(children[0], layout, panelIndex)] + rest;
    forall i | 0 <= i < |children|
      ensures ClonedAt(children, kids, layout, panelIndex, i)
    {
      if i == 0 {
        assert children[..0] == [];
      } else {
        ElementCountPrefix(children, i);
        assert ClonedAt(children[1..], rest, layout, next, i - 1);
        assert kids[i] == rest[i - 1];
      }
    }
  }

  /** The clone of a single child at element index `panelIndex`. */
  function MapHead(c: Child, layout: Option<seq<Percent>>, panelIndex: nat): Child {
    if c.Element? then c.(defaultSize := AssignedSize(layout, panelIndex, c.defaultSize)) else c
  }

  /**
   * The `React.Children.map` pass, with `panelIndex` the number of elements
   * already seen: each element is cloned with the layout entry at its element
   * index; other children come back unchanged and do not advance the index.
   */
  function MapChildren(children: seq<Child>, layout: Option<seq<Percent>>, panelIndex: nat): (kids: seq<Child>)
    ensures |kids| == |children|
    ensures forall i :: 0 <= i < |children| ==> ClonedAt(children, kids, layout, panelIndex, i)
    decreases |children|
  {
    if children == [] then []
    else
      var next := if children[0].Element? then panelIndex + 1 else panelIndex;
      var rest := MapChildren(children[1..], layout, next);
      ClonedCons(children, rest, layout, panelIndex, next);
      [MapHead(children[0], layout, panelIndex)] + rest
  }

  /** The children the group renders for `children` and `defaultLayout`. */
  function Kids(children: seq<Child>, defaultLayout: Option<seq<Percent>>): (kids: seq<Child>)
    ensures |kids| == |children|
    ensures forall i :: 0 <= i < |children| ==> ClonedAt(children, kids, defaultLayout, 0, i)
  {
    MapChildren(children, defaultLayout, 0)
  }

  /**
   * Seen through the element children only, the k-th element's size is
   * `defaultLayout[k]` when that entry exists and its own prop otherwise.
   */
  lemma {:induction false} ElementSizesOverlay(children: seq<Child>, layout: Option<seq<Percent>>, panelIndex: nat)
    ensures ElementCount(MapChildren(children, layout, panelIndex)) == ElementCount(children)
    ensures forall k :: 0 <= k < ElementCount(children) ==>
              ElementSizes(MapChildren(children, layout, panelIndex))[k] ==
              AssignedSize(layout, panelIndex + k, ElementSizes(children)[k])
    decreases |children|
  {
    if children != [] {
      var c := children[0];
      var next := if c.Element? then panelIndex + 1 else panelIndex;
      var kids := MapChildren(children, layout, panelIndex);
      var rest := MapChildren(children[1..], layout, next);
      ElementSizesOverlay(children[1..], layout, next);
      assert kids[1..] == rest;
      assert kids[0].Element? == c.Element?;
      if c.Element? {
        assert kids[0].defaultSize == AssignedSize(layout, panelIndex, c.defaultSize) by {
          assert children[..0] == [];
        }
      }
    }
  }

  /** The group-level statement: the k-th element child receives `defaultLayout[k]`. */
  lemma PositionalSizes(children: seq<Child>, layout: Option<seq<Percent>>)
    ensures ElementCount(Kids(children, layout)) == ElementCount(children)
    ensures forall k :: 0 <= k < ElementCount(children) ==>
              ElementSizes(Kids(children, layout))[k] ==
              (if layout.Some? && k < |layout.value| then Some(layout.value[k]) else ElementSizes(children)[k])
  {
    ElementSizesOverlay(children, layout, 0);
  }

  /**
   * A three-child layout (panel 30, content 40, panel 30) seeded with
   * `[30, 70, 0]`: the content takes 70 and the right panel 0.
   */
  lemma ThreeColumnExample()
    ensures ElementSizes(Kids([Element(PanelElement, Some(30.0)), Element(ContentElement, Some(40.0)),
                               Element(PanelElement, Some(30.0))], Some([30.0, 70.0, 0.0])))
            == [Some(30.0), Some(70.0), Some(0.0)]
  {
  }

  /**
   * A short layout: with `[30]` and two elements, the second keeps its own
   * declared size instead of receiving nothing.
   */
  lemma ShortLayoutExample()
    ensures ElementSizes(Kids([Element(PanelElement, Some(35.0)), Element(ContentElement, Some(60.0))], Some([30.0])))
            == [Some(30.0), Some(60.0)]
  {
  }

  /** A text child between two elements is kept and does not use up a layout entry. */
  lemma NonElementExample()
    ensures Kids([Element(PanelElement, None), NonElement("x"), Element(ContentElement, None)], Some([25.0, 75.0]))
            == [Element(PanelElement, Some(25.0)), NonElement("x"), Element(ContentElement, Some(75.0))]
  {
  }

  /**
   * `handleOnLayout(sizes)`: the user's `onLayout`, when given, then the
   * persistence sink, both with the identical size vector; the panel map is not
   * involved.
   */
  function HandleOnLayout(log: seq<Effect>, sizes: seq<Percent>, hasOnLayout: bool): (r: seq<Effect>)
    ensures |log| < |r| && r[..|log|] == log
    ensures r[|r| - 1] == PersistSizes(sizes)
    ensures hasOnLayout ==> |r| == |log| + 2
    ensures !hasOnLayout ==> |r| == |log| + 1
    ensures hasOnLayout ==> r[|log|] == LayoutCallback(sizes)
    ensures NoPanelWrites(r[|log|..])
  {
    log + (if hasOnLayout then [LayoutCallback(sizes)] else []) + [PersistSizes(sizes)]
  }
}
