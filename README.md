# Design lab and media/product services, modelled in Dafny

This project models the core of a print-on-demand storefront's **design lab**:

- **The lab page.** It holds two state cells: the current design and the selected product. It wires the child panels' callbacks to them.
- **The layers panel.** It toggles visibility, edits DPI and reorders layers by drag and drop, renumbering their z-index.
- **The design canvas.** It is an 800x600 drawing surface. It:
  - shows a placeholder or a contain-fitted product image;
  - redraws the visible layers of a design;
  - writes the geometry of edited objects back into the layers.
- **The saved-designs panel.** It saves named copies of the current design into component state and deletes them by id.
- **The product-image storage helpers.** These give the object path of an upload and the object path recovered from a URL on delete.
- **The media API route.** Its GET lists the user's media records plus the shared stock files. Its POST creates a media record.
- **The products API route.** Its GET lists the products, with image URLs rewritten to public bucket URLs.

The model is split into these files:

- `wrappers.dfy`: `Option`.
- `design_model.dfy`: `Layer`, `ProductRef`, `Design`, the layer ids.
- `design_layers.dfy`: the layers panel. The drag handler is a method over an array, following `Array.from` + `splice`.
- `design_canvas.dfy`: the canvas. The sync and fit computations are functions. The drawing surface is a class whose methods are the two effects.
- `design_lab.dfy`: the page as a state machine over its callbacks.
- `design_selector.dfy`: the saved-designs panel, a class with the panel's three state cells.
- `storage.dfy`, `media_api.dfy`, `products_api.dfy`: the storage helpers and the two routes.

Services are parameters. Their replies to each call are passed in as values:

- the auth service, the database, the storage buckets;
- `getPublicUrl`, as a function `string -> string`;
- the clock;
- `crypto.randomUUID()`, as a fresh id argument;
- the natural size of a loaded image, as `sizeOf: string -> ImageSize`.

Numbers are modelled as mathematical reals.

Some behaviours of the code, each proved below:

- **Z-indices after a drag.** The layers panel renumbers z-index to n, n-1, ..., 1 (top of the list highest), not 0..n-1. Three layers appended as A, B, C (z 0, 1, 2) and then dragged C-to-top end as C=3, A=2, B=1 (`DesignLayers.DragScenario`).
- **Aspect-ratio ties.** The product fit compares aspect ratios with a strict `>`. An image with exactly the canvas's 4:3 ratio therefore takes the scale-to-height branch (`DesignCanvas.FitOtherImage`).
- **Background redraw.** When a design is present, the background is redrawn with scale-to-width only. An image taller than 4:3 then overflows the canvas height (`DesignCanvas.RedrawnBackgroundOverflows`).
- **No design is ever created.** No callback of the page creates a design, so `currentDesign` stays null from the initial state. Every design-dependent callback is then a no-op (`DesignLab.NoDesignEver`).
- **Saved copies have no id.** A save copies the design, and the copy keeps the design's `id`. Since no design with an id is ever created, the delete button of a saved entry passes `undefined`, and the filter removes every saved entry (`DesignSelector.DeleteWithoutIds`).
- **DPI is not clamped.** The DPI input declares min 72 and max 300, but `updateDPI` stores the number it is given as it is (`DesignLayers.UpdateDpi`).
- **Image URLs get the prefix twice.** The products route prefixes every truthy `imageUrl`, even one that already is a full URL (`ProductsApi.PrefixAppliedTwice`).

## Model

| member | source | states |
|---|---|---|
| DesignLayers.ToggleVisibility | src/app/design-lab/_components/design-layers.tsx:17-25 | same length; `visible` is negated exactly on the layers whose id is the given one; every other field of every layer is unchanged |
| DesignLayers.UpdateDpi | src/app/design-lab/_components/design-layers.tsx:27-35 | same length; `dpi` becomes the given value exactly on the layers with the given id, with no clamping; all else unchanged |
| DesignLayers.ToggleTwice | src/app/design-lab/_components/design-layers.tsx:17-25 | toggling the same id twice restores the original list |
| DesignLayers.HandlersKeepIds | src/app/design-lab/_components/design-layers.tsx:17-35 | both handlers keep the sequence of layer ids (order and length) |
| DesignLayers.UnknownIdChangesNothing | src/app/design-lab/_components/design-layers.tsx:17-35 | an id carried by no layer leaves the list equal to the input under both handlers |
| DesignLayers.Move | src/app/design-lab/_components/design-layers.tsx:40-42 | the reorder keeps the length and puts the dragged item at the destination index |
| DesignLayers.MovePlacesItem | src/app/design-lab/_components/design-layers.tsx:40-42 | after the two splices the list has the same length, the dragged item sits at the destination index, and the other items keep their relative order |
| DesignLayers.MoveIsPermutation | src/app/design-lab/_components/design-layers.tsx:40-42 | the reordered list is a permutation (same multiset) of the original |
| DesignLayers.MoveBack | src/app/design-lab/_components/design-layers.tsx:40-42 | dragging the item back from the destination to the source restores the original list |
| DesignLayers.Renumber | src/app/design-lab/_components/design-layers.tsx:44-48 | the renumbering keeps the length, changes nothing but zIndex, and gives every z-index a value in 1..n |
| DesignLayers.RenumberStacking | src/app/design-lab/_components/design-layers.tsx:44-48 | after renumbering, layer i has zIndex n - i, z-indices strictly decrease down the list, and nothing but zIndex changes |
| DesignLayers.RenumberIsDense | src/app/design-lab/_components/design-layers.tsx:44-48 | the z-indices after renumbering are exactly the integers 1..n |
| DesignLayers.SpliceOut | src/app/design-lab/_components/design-layers.tsx:41 | returns the item at `from`, and the array's first n-1 slots hold the list without that item |
| DesignLayers.SpliceIn | src/app/design-lab/_components/design-layers.tsx:42 | the array holds the shortened list with the item inserted at `to` |
| DesignLayers.HandleDragEnd | src/app/design-lab/_components/design-layers.tsx:37-51 | no destination gives no change (`onChange` not called); otherwise the list handed to `onChange` is the moved list renumbered |
| DesignLayers.DragScenario | src/app/design-lab/_components/design-layers.tsx:37-51 | A, B, C with z 0, 1, 2, C dragged to the top, gives C=3, A=2, B=1 |
| DesignLab.NewLayer | src/app/design-lab/page-client.tsx:63-75 | a picked media file becomes a visible image layer at (0,0), 200x200, rotation 0, dpi 300, with zIndex the current layer count and the given fresh id |
| DesignLab.SelectMedia | src/app/design-lab/page-client.tsx:59-78 | without a design nothing happens; with one, the new layer is appended after the unchanged existing layers and every other design field is kept |
| DesignLab.SelectMediaKeepsIdsDistinct | src/app/design-lab/page-client.tsx:63-64 | a fresh id keeps the layer ids pairwise distinct |
| DesignLab.AppendAll | src/app/design-lab/page-client.tsx:59-78 | picking several media files in turn keeps every other design field and the existing layers, and adds one layer per file, in order, showing that file |
| DesignLab.AppendsStackInOrder | src/app/design-lab/page-client.tsx:72 | a design built by appends keeps its prefix and gives every layer a zIndex equal to its position |
| DesignLab.LayersChanged | src/app/design-lab/page-client.tsx:104-111 | the layers panel's callback replaces only the layers, and only when a design exists |
| DesignLab.Step | src/app/design-lab/page-client.tsx:39-111 | choosing a product sets only the selected product, and no other callback touches it; picking media, the layers panel and a canvas edit set the design to the result of `SelectMedia`, `LayersChanged` and `SyncDesign` (a canvas edit with no design or canvas leaves it as it was); the save and load stubs change nothing |
| DesignLab.Run | src/app/design-lab/page-client.tsx:39-111 | no callbacks leave the page as it was; without a product choice the selected product is kept; after a product choice as the last callback, that product is selected |
| DesignLab.StepKeepsNoDesign | src/app/design-lab/page-client.tsx:59-111 | with no design, no callback creates one |
| DesignLab.NoDesignFrom | src/app/design-lab/page-client.tsx:39-111 | from any state with no design, every sequence of callbacks ends with no design |
| DesignLab.NoDesignEver | src/app/design-lab/page-client.tsx:39-40 | from the initial state, `currentDesign` stays null after any sequence of callbacks |
| DesignCanvas.TagId | src/app/design-lab/_components/design-canvas.tsx:42 | only a picture object carries a tag, and the id returned is the id in its tag |
| DesignCanvas.FindTagged | src/app/design-lab/_components/design-canvas.tsx:41-43 | returns the index of the first object tagged with the id, or none exactly when no object carries that tag |
| DesignCanvas.SyncLayer | src/app/design-lab/_components/design-canvas.tsx:40-55 | a layer read back from the canvas differs at most in x, y, width, height and rotation, and is unchanged when no object carries its id |
| DesignCanvas.SyncLayers | src/app/design-lab/_components/design-canvas.tsx:40-56 | reading the layers back keeps their number, and each layer keeps its id and visibility |
| DesignCanvas.SyncLayersMerge | src/app/design-lab/_components/design-canvas.tsx:40-56 | the merge keeps length and ids; an untagged layer is unchanged; a matched layer takes x, y, rotation and scaled width/height from the first matching object (missing values default to 0 / scale 1) and keeps all other fields |
| DesignCanvas.SyncDesign | src/app/design-lab/_components/design-canvas.tsx:37-59 | a design is handed to `onChange` exactly when both canvas and design exist; it differs from the old design only in its layers, which are the layers read back from the canvas objects, with their ids kept |
| DesignCanvas.FitBackground | src/app/design-lab/_components/design-canvas.tsx:106-121 | the product image scale is positive, the scaled image fits inside 800x600, fills the width or the height, and is centred along the other axis |
| DesignCanvas.CompareAspect | src/app/design-lab/_components/design-canvas.tsx:108-111 | comparing the image and canvas aspect ratios agrees with comparing width x 600 to 800 x height, for less-than and for equality |
| DesignCanvas.WiderFits | src/app/design-lab/_components/design-canvas.tsx:111-115 | an image wider than 4:3 scaled to the canvas width is exactly 800 wide and less than 600 high |
| DesignCanvas.TallerFits | src/app/design-lab/_components/design-canvas.tsx:116-121 | any other image scaled to the canvas height is exactly 600 high and at most 800 wide, with equality exactly at 4:3 |
| DesignCanvas.FitWideImage | src/app/design-lab/_components/design-canvas.tsx:111-115 | a wider-than-4:3 image fills the width at left 0, with a positive equal margin above and below |
| DesignCanvas.FitOtherImage | src/app/design-lab/_components/design-canvas.tsx:116-121 | any other image fills the height at top 0, centred horizontally; its left margin is 0 exactly for a 4:3 image (the tie goes to this branch) |
| DesignCanvas.FitScenario | src/app/design-lab/_components/design-canvas.tsx:106-121 | a 1600x800 image is placed at scale 0.5, left 0, top 100 |
| DesignCanvas.RedrawnBackground | src/app/design-lab/_components/design-canvas.tsx:140-148 | the redrawn background is scaled to the canvas width at the origin |
| DesignCanvas.RedrawnBackgroundOverflows | src/app/design-lab/_components/design-canvas.tsx:140-148 | an image taller than 4:3 overflows the canvas height when redrawn |
| DesignCanvas.RenderLayer | src/app/design-lab/_components/design-canvas.tsx:153-161 | the image object drawn for a layer is tagged with that layer's id and dpi, sits at the layer's x, y and rotation, keeps the natural size, and is scaled so that its displayed width and height are the layer's |
| DesignCanvas.RenderLayers | src/app/design-lab/_components/design-canvas.tsx:151-166 | at most one object per layer, exactly one each when every layer is visible, and every object drawn is tagged |
| DesignCanvas.RenderLayersAppend | src/app/design-lab/_components/design-canvas.tsx:151-166 | drawing one more layer appends its object when it is visible and nothing otherwise |
| DesignCanvas.RenderedTags | src/app/design-lab/_components/design-canvas.tsx:151-162 | an id carried by no visible layer is found on no drawn object |
| DesignCanvas.RenderedLayerFound | src/app/design-lab/_components/design-canvas.tsx:151-162 | with distinct ids, a visible layer's first tagged object is the one drawn from it, and a hidden layer has no tagged object |
| DesignCanvas.SyncAfterRender | src/app/design-lab/_components/design-canvas.tsx:40-162 | drawing distinct-id layers and reading them back with no edit returns the same layers (hidden layers stay unchanged; visible ones round-trip through scale = width / natural width) |
| DesignCanvas.SyncAfterRenderAt | src/app/design-lab/_components/design-canvas.tsx:40-162 | one layer of the round trip: with distinct ids, a drawn layer reads back unchanged |
| DesignCanvas.SyncOfRendered | src/app/design-lab/_components/design-canvas.tsx:47-55 | a layer whose first tagged object is the one drawn from it reads back unchanged, because natural size x scale is the layer size |
| DesignCanvas.Canvas.constructor | src/app/design-lab/_components/design-canvas.tsx:65-70 | a new canvas has no objects and no background |
| DesignCanvas.Canvas.Clear | src/app/design-lab/_components/design-canvas.tsx:86 | clearing removes every object and the background |
| DesignCanvas.Canvas.Add | src/app/design-lab/_components/design-canvas.tsx:100 | adding appends the object and keeps the background |
| DesignCanvas.Canvas.ShowProduct | src/app/design-lab/_components/design-canvas.tsx:82-131 | without a product the canvas holds only the centred placeholder text; with one it holds no objects and the contain-fitted product background |
| DesignCanvas.Canvas.ShowDesign | src/app/design-lab/_components/design-canvas.tsx:133-167 | without a design nothing changes; with one, the objects are exactly the visible layers drawn in order, and the background is the product image scaled to width, or none |
| DesignSelector.SaveCopy | src/app/design-lab/_components/design-selector.tsx:32-36 | the saved copy carries the entered name and the save time, and every other field of the current design |
| DesignSelector.DeleteById | src/app/design-lab/_components/design-selector.tsx:44-47 | the result holds exactly the entries whose id differs from the given one, and never grows |
| DesignSelector.DeleteKeepsOrder | src/app/design-lab/_components/design-selector.tsx:46 | the delete filter distributes over concatenation, so survivors keep their order |
| DesignSelector.DeleteAbsent | src/app/design-lab/_components/design-selector.tsx:46 | deleting an id no entry carries changes nothing |
| DesignSelector.DeleteIdempotent | src/app/design-lab/_components/design-selector.tsx:46 | deleting the same id twice is the same as deleting it once |
| DesignSelector.DeleteUndefined | src/app/design-lab/_components/design-selector.tsx:46 | when no entry has an id, deleting `undefined` removes all entries |
| DesignSelector.DeleteWithoutIds | src/app/design-lab/_components/design-selector.tsx:95 | when saved entries have no id, the delete button of any entry empties the list |
| DesignSelector.SavedDesigns.constructor | src/app/design-lab/_components/design-selector.tsx:25-27 | the panel starts with no designs, the dialog closed and an empty name |
| DesignSelector.SavedDesigns.SetDesignName | src/app/design-lab/_components/design-selector.tsx:68 | the name field sets only the name |
| DesignSelector.SavedDesigns.SetDialogOpen | src/app/design-lab/_components/design-selector.tsx:53 | the dialog's open-change sets only the open flag |
| DesignSelector.SavedDesigns.HandleSave | src/app/design-lab/_components/design-selector.tsx:29-42 | with no design or an empty name nothing changes and nothing is saved; otherwise the named, time-stamped copy is reported, appended after the existing entries, the dialog closes and the name is cleared |
| DesignSelector.SavedDesigns.HandleDelete | src/app/design-lab/_components/design-selector.tsx:44-47 | the list becomes the filtered list; the dialog and name are unchanged |
| Storage.LastSegment | src/lib/storage.ts:14 | the segment is a suffix of the text holding no separator, preceded by a separator unless it is the whole text |
| Storage.LastSegmentAfterSeparator | src/lib/storage.ts:43 | for a text ending in the separator followed by a separator-free tail, the segment is that tail |
| Storage.LastSegmentWithoutSeparator | src/lib/storage.ts:14 | a file name without a dot is its own extension |
| Storage.EmptyLastSegment | src/lib/storage.ts:43-44 | the segment is empty exactly when the text is empty or ends with the separator |
| Storage.Extension | src/lib/storage.ts:14 | the extension is a suffix of the file name with no dot in it |
| Storage.UploadPath | src/lib/storage.ts:15-16 | the path is as long as `products/`, the product id, a dot and the extension together |
| Storage.UploadPathShape | src/lib/storage.ts:15-16 | the path is `products/`, then the product id, then a dot and the extension |
| Storage.UploadPathOverwrites | src/lib/storage.ts:14-22 | two files of one product with the same extension write to the same object path |
| Storage.UploadProductImage | src/lib/storage.ts:8-38 | the upload goes to bucket `products`, path `products/<id>.<ext>`, with upsert on; the result has an error exactly when it has no URL and exactly when the upload failed; the URL is the public URL of the path |
| Storage.DeleteProductImage | src/lib/storage.ts:40-54 | an URL with an empty last segment gives the invalid-URL error and removes nothing; otherwise `products/<last segment>` is removed and the service's reply is returned |
| Storage.UploadPathParts | src/lib/storage.ts:14-16 | the upload path is `products/` followed by the file name `<id>.<ext>` |
| Storage.UploadUrlSegment | src/lib/storage.ts:14-43 | the last `/`-segment of an URL ending in an upload path is `<id>.<ext>` when neither part holds `/` |
| Storage.DeleteRemovesSegment | src/lib/storage.ts:43-48 | a non-empty last segment is removed under the `products/` folder |
| Storage.DeleteAfterUpload | src/lib/storage.ts:14-48 | round trip: deleting by a URL that ends with an upload path removes exactly that path, when the product id and extension hold no `/` |
| MediaApi.StockEntryOf | src/app/api/media/route.ts:54-61 | a stock file's entry has id `stock-<name>`, its name, its public URL under `stock/` as both URL and signed URL, its mimetype or `image/jpeg`, and its creation time or the current time |
| MediaApi.StockFiles | src/app/api/media/route.ts:54 | the stock files are the listed ones, or none when the listing returned no data |
| MediaApi.StockEntries | src/app/api/media/route.ts:54-61 | one stock entry per listed file, in listing order, carrying the file's name |
| MediaApi.UserEntries | src/app/api/media/route.ts:64-67 | one user entry per database record, in order, carrying that record |
| MediaApi.Get | src/app/api/media/route.ts:7-84 | 500 when the auth call throws; 401 when it reports an error or no user; 500 when the record query or either bucket listing throws; entries exactly in the remaining case: the user's records, in order, each with its public URL, followed by one entry per listed stock file |
| MediaApi.StockIdsArePrefixed | src/app/api/media/route.ts:54-70 | every entry after the user's records is a stock entry whose id is `stock-` followed by its name |
| MediaApi.FailedListingAddsNothing | src/app/api/media/route.ts:41-54 | a failed stock listing is only logged and contributes no entries |
| MediaApi.Post | src/app/api/media/route.ts:86-154 | 500 when the auth call throws; 401 for an auth error or no user; 500 for an unparsable body; 400 when name, url or type is falsy; a record is submitted exactly in the remaining case, owned by the authenticated user, and the response is the created record or 500 |
| ProductsApi.PublicImageUrl | src/app/api/products/route.ts:26-28 | a truthy image URL becomes the public bucket prefix followed by it; a falsy one becomes null |
| ProductsApi.Get | src/app/api/products/route.ts:5-38 | a query error gives 400 with its message; an exception gives 500; otherwise every row is returned in order with only its image URL rewritten |
| ProductsApi.StatusOfGet | src/app/api/products/route.ts:15-37 | the status is 200 for rows, 400 for a query error, 500 for an exception |
| ProductsApi.PrefixAppliedTwice | src/app/api/products/route.ts:26-27 | the prefix is applied unconditionally, so an already-public URL gets it a second time |

## Left out

- Asynchronous image loading of the drawing library. `ShowProduct` and `ShowDesign` place each image as if its load callback had run at once, in list order. The final order of layer objects on the real canvas follows load completion, which is not modelled.
- The canvas lifecycle: the one-time initialisation guard, the `object:modified` subscription and `dispose` on unmount. An edit notification is modelled as the `CanvasModified` page event carrying the canvas objects.
- The canvas background colour and `renderAll`, which have no effect on state the component reads back.
- Floating-point arithmetic. All coordinates, scales and sizes are mathematical reals, so rounding in the fit and in the render/read-back round trip is not captured.
- DesignCanvas.FitBackground, DesignCanvas.RedrawnBackground, DesignCanvas.RenderLayer, DesignCanvas.RenderLayers, DesignCanvas.SyncAfterRender and DesignCanvas.Canvas.ShowDesign: the natural size of a loaded image is assumed positive (`Dim`). A zero-sized image, which would divide by zero in the source, is not modelled.
- DesignLayers.HandleDragEnd: requires both drag indices to be within the list when a destination exists. The drag library only reports indices of the list it renders; out-of-range indices are not modelled.
- The contents of the user-folder bucket listing of the media GET (route line 37). They are only logged, so only the listing's failure is modelled. An auth call or listing that throws is one case each; the exception's value is not modelled.
- Console logging in both routes, and the `details` field of the POST error body.
- MediaApi.Post: body fields are modelled as optional strings. A JSON value of another type (a number, an object) is not modelled. A parse failure of the body is one case (`None`), which goes to the 500 path.
- ProductsApi.Get: a `null` row list without an error, which would throw inside `map` and give 500, is not modelled. The configured service URL is a parameter, so an unset environment variable (rendered as `undefined`) is just one possible value of it.
- Storage client construction from environment variables, and the network behaviour of the storage service. Its replies are inputs.
- The page's save and load handlers are empty stubs in the source. They are modelled as events that change nothing.
- Rendering, styling and the dialog/button markup of every component. The product and media pickers beyond their callbacks are not part of this model.
