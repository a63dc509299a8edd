/**
 * The design lab's value types: a `Design` is a product reference plus an
 * ordered list of `Layer` records (src/app/design-lab/page-client.tsx).
 * Canvas geometry and DPI are JavaScript numbers, modelled as `real`
 * (no floating-point rounding); `zIndex` is an integer.
 */
module DesignModel {
  import opened Wrappers

  /** The only layer type the code creates: `"image"`. */
  datatype LayerType = Image

  datatype Layer = Layer(
    id: string,
    kind: LayerType,
    src: string,
    x: real,
    y: real,
    width: real,
    height: real,
    rotation: real,
    zIndex: int,
    visible: bool,
    dpi: real)

  /** The product a design is drawn on. */
  datatype ProductRef = ProductRef(id: string, name: string, imageUrl: string)

  /** Timestamps are milliseconds since the epoch; `id` and the timestamps are optional. */
  datatype Design = Design(
    id: Option<string>,
    name: string,
    product: ProductRef,
    layers: seq<Layer>,
    createdAt: Option<int>,
    updatedAt: Option<int>)

  /** The layer ids, in list order. */
  function Ids(layers: seq<Layer>): seq<string>
  {
    seq(|layers|, i requires 0 <= i < |layers| => layers[i].id)
  }

  /** No two layers of the list share an id. */
  predicate DistinctIds(layers: seq<Layer>)
  {
    forall i, j :: 0 <= i < j < |layers| ==> layers[i].id != layers[j].id
  }
}
