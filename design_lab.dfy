/**
 * The design lab page (src/app/design-lab/page-client.tsx): two state cells,
 * `currentDesign` and `selectedProduct`, and the callbacks its child panels
 * invoke. The page is a value; each callback is a transition.
 */
module DesignLab {
  import opened Wrappers
  import opened DesignModel
  import DesignCanvas

  /** The layer created for a picked media file; `id` stands for the fresh `crypto.randomUUID()`. */
  function NewLayer(id: string, mediaUrl: string, count: nat): (l: Layer)
    ensures l.id == id && l.kind == Image && l.src == mediaUrl
    ensures l.x == 0.0 && l.y == 0.0 && l.width == 200.0 && l.height == 200.0 && l.rotation == 0.0
    ensures l.zIndex == count && l.visible && l.dpi == 300.0
  {
    Layer(id, Image, mediaUrl, 0.0, 0.0, 200.0, 200.0, 0.0, count, true, 300.0)
  }

  /** `onSelectMedia(media)`: append a new layer on top; nothing happens without a design. */
  function SelectMedia(current: Option<Design>, mediaUrl: string, freshId: string): (r: Option<Design>)
    ensures current.None? ==> r.None?
    ensures current.Some? ==>
      var before := current.value.layers;
      && r.Some?
      && r.value.(layers := before) == current.value
      && |r.value.layers| == |before| + 1
      && r.value.layers[..|before|] == before
      && r.value.layers[|before|] == NewLayer(freshId, mediaUrl, |before|)
  {
    if current.None? then None
    else
      var d := current.value;
      var layers := d.layers + [NewLayer(freshId, mediaUrl, |d.layers|)];
      assert layers[..|d.layers|] == d.layers;
      Some(d.(layers := layers))
  }

  /** A fresh id keeps the layer ids pairwise distinct. */
  lemma SelectMediaKeepsIdsDistinct(d: Design, mediaUrl: string, freshId: string)
    requires DistinctIds(d.layers) && freshId !in Ids(d.layers)
    ensures DistinctIds(SelectMedia(Some(d), mediaUrl, freshId).value.layers)
  {
    var layers := SelectMedia(Some(d), mediaUrl, freshId).value.layers;
    var n := |d.layers|;
    forall i, j | 0 <= i < j < |layers|
      ensures layers[i].id != layers[j].id
    {
      if j == n {
        assert Ids(d.layers)[i] == d.layers[i].id;
        assert layers[i] == d.layers[i];
      } else {
        assert layers[i] == d.layers[i] && layers[j] == d.layers[j];
      }
    }
  }

  /** Appending to a design built only by appends: the z-index of each layer is its position. */
  lemma {:induction false} AppendsStackInOrder(d: Design, mediaUrls: seq<string>, freshIds: seq<string>)
    requires |mediaUrls| == |freshIds|
    requires forall i :: 0 <= i < |d.layers| ==> d.layers[i].zIndex == i
    ensures |AppendAll(d, mediaUrls, freshIds).layers| == |d.layers| + |mediaUrls|
    ensures AppendAll(d, mediaUrls, freshIds).layers[..|d.layers|] == d.layers
    ensures forall i :: 0 <= i < |AppendAll(d, mediaUrls, freshIds).layers| ==>
      AppendAll(d, mediaUrls, freshIds).layers[i].zIndex == i
    decreases |mediaUrls|
  {
    if mediaUrls != [] {
      var next := SelectMedia(Some(d), mediaUrls[0], freshIds[0]).value;
      assert forall i :: 0 <= i < |next.layers| ==> next.layers[i].zIndex == i by {
        forall i | 0 <= i < |next.layers|
          ensures next.layers[i].zIndex == i
        {
          if i < |d.layers| {
            assert next.layers[..|d.layers|][i] == d.layers[i];
          }
        }
      }
      AppendsStackInOrder(next, mediaUrls[1..], freshIds[1..]);
      var all := AppendAll(next, mediaUrls[1..], freshIds[1..]);
      assert all.layers[..|next.layers|] == next.layers;
      assert all.layers[..|d.layers|] == next.layers[..|d.layers|];
    }
  }

  /** Picking each media file in turn. */
  function AppendAll(d: Design, mediaUrls: seq<string>, freshIds: seq<string>): (r: Design)
    requires |mediaUrls| == |freshIds|
    ensures r.(layers := d.layers) == d
    ensures |r.layers| == |d.layers| + |mediaUrls|
    ensures r.layers[..|d.layers|] == d.layers
    ensures forall i :: 0 <= i < |mediaUrls| ==> r.layers[|d.layers| + i].src == mediaUrls[i]
    decreases |mediaUrls|
  {
    if mediaUrls == [] then d
    else
      var next := SelectMedia(Some(d), mediaUrls[0], freshIds[0]).value;
      var r := AppendAll(next, mediaUrls[1..], freshIds[1..]);
      assert r.layers[..|d.layers|] == r.layers[..|next.layers|][..|d.layers|];
      assert r.layers[|d.layers|] == next.layers[|d.layers|];
      assert forall i :: 1 <= i < |mediaUrls| ==> mediaUrls[i] == mediaUrls[1..][i - 1];
      r
  }

  /** The layers panel's `onChange`: replaces only the layers; nothing happens without a design. */
  function LayersChanged(current: Option<Design>, layers: seq<Layer>): (r: Option<Design>)
    ensures r.Some? <==> current.Some?
    ensures r.Some? ==> r.value.layers == layers && r.value.(layers := current.value.layers) == current.value
  {
    if current.None? then None else Some(current.value.(layers := layers))
  }

  /** The page's two state cells. */
  datatype LabState = LabState(currentDesign: Option<Design>, selectedProduct: Option<ProductRef>)

  /** Both cells start empty. */
  const Initial: LabState := LabState(None, None)

  /** Everything the child panels can call back with. */
  datatype LabEvent =
    | ProductSelected(product: ProductRef)           // the product picker's `onSelect`
    | MediaSelected(mediaUrl: string, freshId: string) // the media picker's `onSelectMedia`
    | LayersPanelChanged(layers: seq<Layer>)           // the layers panel's `onChange`
    | CanvasModified(canvas: Option<seq<DesignCanvas.CanvasObject>>) // the canvas's `object:modified`
    | DesignSaved(design: Design)                      // `handleSaveDesign`, an empty stub
    | DesignLoaded(designId: string)                   // `handleLoadDesign`, an empty stub

  /** One callback. The canvas's `onChange` is `setCurrentDesign`, reached only through `updateDesignFromCanvas`. */
  function Step(s: LabState, e: LabEvent): (r: LabState)
    ensures e.ProductSelected? ==> r == s.(selectedProduct := Some(e.product))
    ensures !e.ProductSelected? ==> r.selectedProduct == s.selectedProduct
    ensures e.DesignSaved? || e.DesignLoaded? ==> r == s
    ensures e.MediaSelected? ==> r.currentDesign == SelectMedia(s.currentDesign, e.mediaUrl, e.freshId)
    ensures e.LayersPanelChanged? ==> r.currentDesign == LayersChanged(s.currentDesign, e.layers)
    ensures e.CanvasModified? ==>
      var changed := DesignCanvas.SyncDesign(e.canvas, s.currentDesign);
      r.currentDesign == (if changed.Some? then changed else s.currentDesign)
  {
    match e
    case ProductSelected(p) => s.(selectedProduct := Some(p))
    case MediaSelected(url, id) => s.(currentDesign := SelectMedia(s.currentDesign, url, id))
    case LayersPanelChanged(layers) => s.(currentDesign := LayersChanged(s.currentDesign, layers))
    case CanvasModified(canvas) =>
      var changed := DesignCanvas.SyncDesign(canvas, s.currentDesign);
      if changed.Some? then s.(currentDesign := changed) else s
    case DesignSaved(_) => s
    case DesignLoaded(_) => s
  }

  /** A sequence of callbacks, in order. */
  function Run(s: LabState, events: seq<LabEvent>): (r: LabState)
    ensures events == [] ==> r == s
    ensures (forall i :: 0 <= i < |events| ==> !events[i].ProductSelected?) ==> r.selectedProduct == s.selectedProduct
    ensures events != [] && events[|events| - 1].ProductSelected? ==>
      r.selectedProduct == Some(events[|events| - 1].product)
    decreases |events|
  {
    if events == [] then s else Run(Step(s, events[0]), events[1..])
  }

  /** With no design, no single callback creates one. */
  lemma StepKeepsNoDesign(s: LabState, e: LabEvent)
    requires s.currentDesign.None?
    ensures Step(s, e).currentDesign.None?
  {
  }

  /** No callback ever sets a design: starting from the initial page, `currentDesign` stays null. */
  lemma {:induction false} NoDesignEver(events: seq<LabEvent>)
    ensures Run(Initial, events).currentDesign.None?
  {
    NoDesignFrom(Initial, events);
  }

  lemma {:induction false} NoDesignFrom(s: LabState, events: seq<LabEvent>)
    requires s.currentDesign.None?
    ensures Run(s, events).currentDesign.None?
    decreases |events|
  {
    if events != [] {
      StepKeepsNoDesign(s, events[0]);
      NoDesignFrom(Step(s, events[0]), events[1..]);
    }
  }
}
