/**
 * The design canvas (src/app/design-lab/_components/design-canvas.tsx): an
 * 800x600 drawing surface. Its objects are modelled as a snapshot list; the
 * drawing library is represented only by what the component reads back from it
 * and what it puts on it.
 */
module DesignCanvas {
  import opened Wrappers
  import opened DesignModel

  const CanvasWidth: real := 800.0
  const CanvasHeight: real := 600.0

  /** The natural size of a loaded image: always positive. */
  type Dim = r: real | r > 0.0 witness 1.0

  datatype ImageSize = ImageSize(width: Dim, height: Dim)

  /** The `data` tag the component puts on a layer's image object. */
  datatype Tag = Tag(id: string, dpi: real)

  /**
   * One object on the canvas. Picture fields are optional, as the `??`
   * defaults in the sync code allow.
   */
  datatype CanvasObject =
    | Text(text: string, textLeft: real, textTop: real, centred: bool)
    | Picture(
        data: Option<Tag>,
        left: Option<real>,
        top: Option<real>,
        angle: Option<real>,
        width: Option<real>,
        height: Option<real>,
        scaleX: Option<real>,
        scaleY: Option<real>)

  /** The layer id an object is tagged with, if any: only picture objects carry a tag. */
  function TagId(o: CanvasObject): (r: Option<string>)
    ensures r.Some? ==> o.Picture? && o.data.Some? && o.data.value.id == r.value
    ensures o.Text? ==> r.None?
  {
    if o.Picture? && o.data.Some? then Some(o.data.value.id) else None
  }

  /** The lookup of a layer's object on the canvas, as an index: the first object tagged with `id`. */
  function FindTagged(objects: seq<CanvasObject>, id: string): (r: Option<nat>)
    ensures r.None? ==> forall k :: 0 <= k < |objects| ==> TagId(objects[k]) != Some(id)
    ensures r.Some? ==>
      && r.value < |objects|
      && TagId(objects[r.value]) == Some(id)
      && forall k :: 0 <= k < r.value ==> TagId(objects[k]) != Some(id)
  {
    if objects == [] then None
    else if TagId(objects[0]) == Some(id) then Some(0)
    else
      match FindTagged(objects[1..], id)
      case None => None
      case Some(k) => Some(k + 1)
  }

  /** A missing number defaults to `d`. */
  function OrElse(v: Option<real>, d: real): real
  {
    if v.Some? then v.value else d
  }

  /** One layer of `updateDesignFromCanvas`: geometry is read back from its tagged object, if any. */
  function SyncLayer(objects: seq<CanvasObject>, layer: Layer): (r: Layer)
    ensures r.(x := layer.x, y := layer.y, width := layer.width, height := layer.height, rotation := layer.rotation) == layer
    ensures FindTagged(objects, layer.id).None? ==> r == layer
  {
    match FindTagged(objects, layer.id)
    case None => layer
    case Some(k) =>
      var o := objects[k];
      if o.Text? then layer  // a text object carries no tag, so it is never found
      else
        layer.(
          x := OrElse(o.left, 0.0),
          y := OrElse(o.top, 0.0),
          width := OrElse(o.width, 0.0) * OrElse(o.scaleX, 1.0),
          height := OrElse(o.height, 0.0) * OrElse(o.scaleY, 1.0),
          rotation := OrElse(o.angle, 0.0))
  }

  /** Every layer of the design, read back from the canvas in turn. */
  function SyncLayers(objects: seq<CanvasObject>, layers: seq<Layer>): (r: seq<Layer>)
    ensures |r| == |layers|
    ensures forall i :: 0 <= i < |layers| ==> r[i].id == layers[i].id && r[i].visible == layers[i].visible
  {
    seq(|layers|, i requires 0 <= i < |layers| => SyncLayer(objects, layers[i]))
  }

  /**
   * The merge keeps length, order and ids; a layer with no tagged object is
   * returned as it was; a matched layer takes x, y, width, height and rotation
   * from the first object tagged with its id and keeps every other field.
   */
  lemma SyncLayersMerge(objects: seq<CanvasObject>, layers: seq<Layer>)
    ensures |SyncLayers(objects, layers)| == |layers|
    ensures Ids(SyncLayers(objects, layers)) == Ids(layers)
    ensures forall i :: 0 <= i < |layers| && FindTagged(objects, layers[i].id).None? ==>
      SyncLayers(objects, layers)[i] == layers[i]
    ensures forall i :: 0 <= i < |layers| && FindTagged(objects, layers[i].id).Some? ==>
      var o := objects[FindTagged(objects, layers[i].id).value];
      var r := SyncLayers(objects, layers)[i];
      && r.x == OrElse(o.left, 0.0)
      && r.y == OrElse(o.top, 0.0)
      && r.width == OrElse(o.width, 0.0) * OrElse(o.scaleX, 1.0)
      && r.height == OrElse(o.height, 0.0) * OrElse(o.scaleY, 1.0)
      && r.rotation == OrElse(o.angle, 0.0)
      && r.(x := layers[i].x, y := layers[i].y, width := layers[i].width,
            height := layers[i].height, rotation := layers[i].rotation) == layers[i]
  {
    var r := SyncLayers(objects, layers);
    forall i | 0 <= i < |layers|
      ensures Ids(r)[i] == Ids(layers)[i]
    {
      assert r[i] == SyncLayer(objects, layers[i]);
    }
  }

  /**
   * `updateDesignFromCanvas`: `None` when there is no canvas or no design
   * (`onChange` is not called); otherwise the design handed to `onChange`.
   */
  function SyncDesign(canvas: Option<seq<CanvasObject>>, design: Option<Design>): (r: Option<Design>)
    ensures r.Some? <==> canvas.Some? && design.Some?
    ensures r.Some? ==>
      && r.value.(layers := design.value.layers) == design.value
      && r.value.layers == SyncLayers(canvas.value, design.value.layers)
      && Ids(r.value.layers) == Ids(design.value.layers)
  {
    if canvas.None? || design.None? then None
    else
      SyncLayersMerge(canvas.value, design.value.layers);
      Some(design.value.(layers := SyncLayers(canvas.value, design.value.layers)))
  }

  /** Where the background image goes: its uniform scale and its top-left corner. */
  datatype Placement = Placement(scale: real, left: real, top: real)

  /**
   * The contain fit of the product effect: compare aspect ratios with a strict
   * `>`; a wider image is scaled to the canvas width and centred vertically,
   * any other image to the canvas height and centred horizontally. The corner
   * the code does not assign stays at the library default 0.
   */
  function FitBackground(size: ImageSize): (p: Placement)
    ensures p.scale > 0.0
    ensures size.width * p.scale <= CanvasWidth && size.height * p.scale <= CanvasHeight
    ensures size.width * p.scale == CanvasWidth || size.height * p.scale == CanvasHeight
    ensures p.left == (CanvasWidth - size.width * p.scale) / 2.0 || p.top == (CanvasHeight - size.height * p.scale) / 2.0
  {
    var canvasAspect := CanvasWidth / CanvasHeight;
    var imgAspect := size.width / size.height;
    if imgAspect > canvasAspect then
      var s := CanvasWidth / size.width;
      WiderFits(size, s);
      Placement(s, 0.0, (CanvasHeight - size.height * s) / 2.0)
    else
      var s := CanvasHeight / size.height;
      TallerFits(size, s);
      Placement(s, (CanvasWidth - size.width * s) / 2.0, 0.0)
  }

  /** Comparing aspect ratios is comparing the cross products. */
  lemma CompareAspect(size: ImageSize)
    ensures size.width / size.height < CanvasWidth / CanvasHeight <==> size.width * CanvasHeight < CanvasWidth * size.height
    ensures size.width / size.height == CanvasWidth / CanvasHeight <==> size.width * CanvasHeight == CanvasWidth * size.height
  {
    var w, h := size.width, size.height;
    var a, c, k := w / h, CanvasWidth / CanvasHeight, h * CanvasHeight;
    var lhs, rhs := w * CanvasHeight, CanvasWidth * h;
    assert lhs == a * k by { assert a * h == w; }
    assert rhs == c * k by { assert c * CanvasHeight == CanvasWidth; }
    assert k > 0.0;
    if a < c {
      assert a * k < c * k;
    } else if a == c {
      assert a * k == c * k;
    } else {
      assert a * k > c * k;
    }
  }

  lemma WiderFits(size: ImageSize, s: real)
    requires size.width / size.height > CanvasWidth / CanvasHeight
    requires s == CanvasWidth / size.width
    ensures s > 0.0 && size.width * s == CanvasWidth && size.height * s < CanvasHeight
  {
    var w, h := size.width, size.height;
    CompareAspect(size);
    assert s * w == CanvasWidth;
    assert (h * s) * w == h * CanvasWidth;
    assert (h * s) * w < CanvasHeight * w;
  }

  lemma TallerFits(size: ImageSize, s: real)
    requires size.width / size.height <= CanvasWidth / CanvasHeight
    requires s == CanvasHeight / size.height
    ensures s > 0.0 && size.height * s == CanvasHeight && size.width * s <= CanvasWidth
    ensures size.width * s == CanvasWidth <==> size.width / size.height == CanvasWidth / CanvasHeight
  {
    var w, h := size.width, size.height;
    CompareAspect(size);
    assert s * h == CanvasHeight;
    assert (w * s) * h == w * CanvasHeight;
    assert (w * s) * h <= CanvasWidth * h;
    assert (w * s) * h == CanvasWidth * h <==> w * s == CanvasWidth;
  }

  /** An image wider than 4:3 fills the width and leaves an equal strip above and below. */
  lemma FitWideImage(size: ImageSize)
    requires size.width / size.height > CanvasWidth / CanvasHeight
    ensures size.width * FitBackground(size).scale == CanvasWidth
    ensures FitBackground(size).left == 0.0
    ensures FitBackground(size).top == (CanvasHeight - size.height * FitBackground(size).scale) / 2.0 > 0.0
  {
    WiderFits(size, CanvasWidth / size.width);
  }

  /**
   * Any other image fills the height and is centred horizontally; equal aspect
   * ratios land here, with no horizontal margin.
   */
  lemma FitOtherImage(size: ImageSize)
    requires size.width / size.height <= CanvasWidth / CanvasHeight
    ensures size.height * FitBackground(size).scale == CanvasHeight
    ensures FitBackground(size).top == 0.0
    ensures FitBackground(size).left == (CanvasWidth - size.width * FitBackground(size).scale) / 2.0 >= 0.0
    ensures FitBackground(size).left == 0.0 <==> size.width / size.height == CanvasWidth / CanvasHeight
  {
    TallerFits(size, CanvasHeight / size.height);
  }

  /** A 1600x800 product image is scaled to 800x400 and placed 100 from the top. */
  lemma FitScenario()
    ensures FitBackground(ImageSize(1600.0, 800.0)) == Placement(0.5, 0.0, 100.0)
  {
    assert 1600.0 / 800.0 > CanvasWidth / CanvasHeight;
  }

  /**
   * The background of the design effect: scaled to the canvas width at the
   * origin, with no centring, whatever the aspect ratio.
   */
  function RedrawnBackground(size: ImageSize): (p: Placement)
    ensures size.width * p.scale == CanvasWidth && p.left == 0.0 && p.top == 0.0
  {
    Placement(CanvasWidth / size.width, 0.0, 0.0)
  }

  /** A product image taller than 4:3 overflows the canvas height once the design effect redraws it. */
  lemma RedrawnBackgroundOverflows(size: ImageSize)
    requires size.width / size.height < CanvasWidth / CanvasHeight
    ensures size.height * RedrawnBackground(size).scale > CanvasHeight
  {
    var w, h := size.width, size.height;
    var s := RedrawnBackground(size).scale;
    CompareAspect(size);
    assert s * w == CanvasWidth;
    assert (h * s) * w == h * CanvasWidth;
    assert (h * s) * w > CanvasHeight * w;
  }

  /** The image object added for one visible layer, once its image has loaded with natural size `img`. */
  function RenderLayer(layer: Layer, img: ImageSize): (o: CanvasObject)
    ensures o.Picture? && o.data == Some(Tag(layer.id, layer.dpi))
    ensures TagId(o) == Some(layer.id)
    ensures o.left == Some(layer.x) && o.top == Some(layer.y) && o.angle == Some(layer.rotation)
    ensures o.width == Some(img.width) && o.height == Some(img.height)
    ensures o.scaleX.Some? && img.width * o.scaleX.value == layer.width
    ensures o.scaleY.Some? && img.height * o.scaleY.value == layer.height
  {
    Picture(
      Some(Tag(layer.id, layer.dpi)),
      Some(layer.x),
      Some(layer.y),
      Some(layer.rotation),
      Some(img.width),
      Some(img.height),
      Some(layer.width / img.width),
      Some(layer.height / img.height))
  }

  /**
   * The objects drawn for a design: the visible layers, in list order, each as
   * its image object; `sizeOf` gives the natural size of the image at a URL.
   */
  function RenderLayers(layers: seq<Layer>, sizeOf: string -> ImageSize): (r: seq<CanvasObject>)
    ensures |r| <= |layers|
    ensures |r| == |layers| <==> forall i :: 0 <= i < |layers| ==> layers[i].visible
    ensures forall k :: 0 <= k < |r| ==> TagId(r[k]).Some?
  {
    if layers == [] then []
    else
      (if layers[0].visible then [RenderLayer(layers[0], sizeOf(layers[0].src))] else [])
      + RenderLayers(layers[1..], sizeOf)
  }

  lemma {:induction false} RenderLayersAppend(layers: seq<Layer>, layer: Layer, sizeOf: string -> ImageSize)
    ensures RenderLayers(layers + [layer], sizeOf) ==
      RenderLayers(layers, sizeOf) + (if layer.visible then [RenderLayer(layer, sizeOf(layer.src))] else [])
  {
    if layers != [] {
      assert (layers + [layer])[1..] == layers[1..] + [layer];
      RenderLayersAppend(layers[1..], layer, sizeOf);
    } else {
      assert [] + [layer] == [layer];
    }
  }

  /** Only visible layers reach the canvas, each tagged with its own id. */
  lemma {:induction false} RenderedTags(layers: seq<Layer>, sizeOf: string -> ImageSize, id: string)
    requires forall i :: 0 <= i < |layers| && layers[i].visible ==> layers[i].id != id
    ensures FindTagged(RenderLayers(layers, sizeOf), id).None?
  {
    if layers != [] {
      RenderedTags(layers[1..], sizeOf, id);
      var objects := RenderLayers(layers, sizeOf);
      if layers[0].visible {
        assert objects[1..] == RenderLayers(layers[1..], sizeOf);
      }
    }
  }

  /** With distinct ids, a visible layer's tagged object is found and is the one rendered from it. */
  lemma {:induction false} RenderedLayerFound(layers: seq<Layer>, sizeOf: string -> ImageSize, i: nat)
    requires DistinctIds(layers) && i < |layers|
    ensures layers[i].visible ==>
      var objects := RenderLayers(layers, sizeOf);
      && FindTagged(objects, layers[i].id).Some?
      && objects[FindTagged(objects, layers[i].id).value] == RenderLayer(layers[i], sizeOf(layers[i].src))
    ensures !layers[i].visible ==> FindTagged(RenderLayers(layers, sizeOf), layers[i].id).None?
  {
    var objects := RenderLayers(layers, sizeOf);
    var tail := RenderLayers(layers[1..], sizeOf);
    if i == 0 {
      if !layers[0].visible {
        RenderedTags(layers[1..], sizeOf, layers[0].id);
      }
    } else {
      RenderedLayerFound(layers[1..], sizeOf, i - 1);
      assert layers[1..][i - 1] == layers[i];
      if layers[0].visible {
        assert objects[1..] == tail;
        assert TagId(objects[0]) == Some(layers[0].id) != Some(layers[i].id);
        if layers[i].visible {
          var k := FindTagged(tail, layers[i].id).value;
          assert FindTagged(objects, layers[i].id) == Some(k + 1);
          assert objects[k + 1] == tail[k];
        }
      } else {
        assert objects == tail;
      }
    }
  }

  /**
   * Drawing the layers and reading them back with no user edit gives the same
   * layers: scaleX = width / natural width undoes itself.
   */
  lemma SyncAfterRender(layers: seq<Layer>, sizeOf: string -> ImageSize)
    requires DistinctIds(layers)
    ensures SyncLayers(RenderLayers(layers, sizeOf), layers) == layers
  {
    var objects := RenderLayers(layers, sizeOf);
    var r := SyncLayers(objects, layers);
    forall i | 0 <= i < |layers|
      ensures r[i] == layers[i]
    {
      SyncAfterRenderAt(layers, sizeOf, i);
    }
  }

  /** One layer of the round trip. */
  lemma SyncAfterRenderAt(layers: seq<Layer>, sizeOf: string -> ImageSize, i: nat)
    requires DistinctIds(layers) && i < |layers|
    ensures SyncLayer(RenderLayers(layers, sizeOf), layers[i]) == layers[i]
  {
    var objects := RenderLayers(layers, sizeOf);
    RenderedLayerFound(layers, sizeOf, i);
    if layers[i].visible {
      SyncOfRendered(objects, layers[i], sizeOf(layers[i].src));
    }
  }

  /** A layer whose first tagged object is the one drawn from it reads back unchanged. */
  lemma SyncOfRendered(objects: seq<CanvasObject>, layer: Layer, img: ImageSize)
    requires FindTagged(objects, layer.id).Some?
    requires objects[FindTagged(objects, layer.id).value] == RenderLayer(layer, img)
    ensures SyncLayer(objects, layer) == layer
  {
    var o := RenderLayer(layer, img);
    assert OrElse(o.width, 0.0) * OrElse(o.scaleX, 1.0) == layer.width;
    assert OrElse(o.height, 0.0) * OrElse(o.scaleY, 1.0) == layer.height;
  }

  /** The product the canvas shows, with the natural size of its loaded image. */
  datatype ProductImage = ProductImage(imageUrl: string, size: ImageSize)

  /** The background image, placed. */
  datatype Background = Background(src: string, placement: Placement)

  /** The placeholder shown when no product is selected: centred at half the canvas size. */
  const Placeholder: CanvasObject := Text("Select a product to begin", CanvasWidth / 2.0, CanvasHeight / 2.0, true)

  /** The drawing surface: its objects and its background image. */
  class Canvas {
    var objects: seq<CanvasObject>
    var background: Option<Background>

    constructor ()
      ensures objects == [] && background == None
    {
      objects := [];
      background := None;
    }

    /** Clearing removes every object and the background. */
    method Clear()
      modifies this
      ensures objects == [] && background == None
    {
      objects := [];
      background := None;
    }

    /** Adding puts an object on top of the others. */
    method Add(o: CanvasObject)
      modifies this
      ensures objects == old(objects) + [o] && background == old(background)
    {
      objects := objects + [o];
    }

    /**
     * The effect run when the product changes: clear, then either the
     * placeholder text or the product image as a contain-fitted background.
     */
    method ShowProduct(product: Option<ProductImage>)
      modifies this
      ensures product.None? ==> objects == [Placeholder] && background == None
      ensures product.Some? ==>
        objects == [] && background == Some(Background(product.value.imageUrl, FitBackground(product.value.size)))
    {
      Clear();
      if product.None? {
        Add(Placeholder);
        return;
      }
      background := Some(Background(product.value.imageUrl, FitBackground(product.value.size)));
    }

    /**
     * The effect run when the design or the product changes: nothing without a
     * design; otherwise clear, redraw the background scaled to the width, and
     * add one image object per visible layer.
     */
    method ShowDesign(design: Option<Design>, product: Option<ProductImage>, sizeOf: string -> ImageSize)
      modifies this
      ensures design.None? ==> objects == old(objects) && background == old(background)
      ensures design.Some? ==> objects == RenderLayers(design.value.layers, sizeOf)
      ensures design.Some? && product.Some? ==>
        background == Some(Background(product.value.imageUrl, RedrawnBackground(product.value.size)))
      ensures design.Some? && product.None? ==> background == None
    {
      if design.None? {
        return;
      }
      Clear();
      if product.Some? {
        background := Some(Background(product.value.imageUrl, RedrawnBackground(product.value.size)));
      }
      var layers := design.value.layers;
      ghost var bg := background;
      for i := 0 to |layers|
        invariant objects == RenderLayers(layers[..i], sizeOf)
        invariant background == bg
      {
        RenderLayersAppend(layers[..i], layers[i], sizeOf);
        assert layers[..i + 1] == layers[..i] + [layers[i]];
        if layers[i].visible {
          Add(RenderLayer(layers[i], sizeOf(layers[i].src)));
        }
      }
      assert layers[..|layers|] == layers;
    }
  }
}
