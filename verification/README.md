# coco-viewer annotation pipeline in Dafny

This project models the annotation-to-overlay pipeline of the COCO viewer's
`App` class (`app.py`). The viewer reads a COCO-style annotation record with
three arrays: `images`, `annotations` and `categories`. It builds the ordered
image list that drives navigation. It assigns each category a name and a
colour from an 80-entry palette. For the current image it draws every
polygon mask and then one outlined box per object.

The model keeps the pure data flow and replaces the PIL drawing with an
ordered list of draw commands (`Render.DrawCmd`: `Polygon(points, outline,
fill)` or `Rectangle(box, edge)`). The Python exceptions raised along the way
become `Err` values of `Wrappers.Result`:

- a category id missing from the table becomes `UnknownCategory`, where the source raises `KeyError`;
- a bbox with fewer than four numbers becomes `BboxTooShort`, where the source raises `IndexError`;
- an empty polygon list becomes `NoPolygon`, where the source raises `IndexError` on `m[0]`.

Modules:

- `Wrappers` (`wrappers.dfy`): the `Result` type.
- `Records` (`records.dfy`): the parsed record (`Instances`, `ImageRecord`,
  `Annotation`, `Segmentation`, `CategoryRecord`) and the colour types.
- `Annotations` (`annotations.dfy`): `get_images` and `get_objects`.
- `Categories` (`categories.dfy`): the palette's hue tuples, Python's
  `dict(pairs)` and the category table.
- `Render` (`render.dfy`): bbox conversion, the category lookup, mask
  selection and the full plan of `load_image`. The predicate `IsPlan`
  says declaratively what a plan for a list of objects looks like.
  `PlanImage` computes one stage by stage, as the source does, and its
  contract ties the two together.
- `Viewer` (`viewer.dfy`): the whole pipeline for the k-th image, and the
  properties that span several steps.

Error precedence follows Python's evaluation order in `load_image`. Line 100
looks up the category of every object before line 103 reads any bbox. The
mask loop at lines 114-124 runs after both. Each stage reports its first
failing object.

Behaviour of the code worth noting:

- `zip` stops at the shorter of the category list and the 80-colour
  palette, so categories past the 80th get no colour. Looking up an id that
  is declared only past the 80th category fails (`UnknownCategory`). An id
  that also occurs among the first 80 is still a key.
- Masks are always drawn: the `masks = True` switch at line 108 is fixed.
  Their alpha is the constant 75, and boxes use the default outline width.

## Model

| member | source | states |
|---|---|---|
| Annotations.GetImages | app.py:56-59 | one `(id, file_name)` entry per image record, same length and same order as `images` |
| Annotations.GetObjects | app.py:61-64 | the result is no longer than `annotations` and every object in it has the requested `image_id` |
| Annotations.GetObjectsExact | app.py:61-64 | each annotation occurs in the result exactly as often as in `annotations` if its `image_id` matches, and never otherwise |
| Annotations.GetObjectsMembership | app.py:64 | an annotation is returned iff it is in `annotations` and its `image_id` equals the argument |
| Annotations.GetObjectsIsSubsequence | app.py:64 | the result is a subsequence of `annotations`, so their relative order is kept |
| Annotations.GetObjectsIdempotent | app.py:64 | filtering the result again by the same id returns it unchanged |
| Annotations.GetObjectsAppend | app.py:64 | filtering a concatenation equals concatenating the filtered parts |
| Categories.HueTuples | app.py:70 | exactly 80 palette hues with saturation and value 1, evenly spaced by 1/80 from 0 and all below 1 |
| Categories.HuesDistinct | app.py:70 | palette positions in increasing order have strictly increasing hues |
| Categories.LastIndexOf | app.py:79 | the position of the last pair with a key, with no later pair carrying that key, or -1 when no pair has it |
| Categories.DictOf | app.py:79 | `dict(pairs)` has exactly the keys of the pairs, and each key maps to the value of the LAST pair with that key |
| Categories.DictOfSize | app.py:79 | the dictionary has at most one entry per pair |
| Categories.ZipWithPalette | app.py:78 | `zip` pairs category i with palette colour i and stops at the shorter of the two lists |
| Categories.CategoryTable | app.py:78-79 | keys are exactly the ids of the first min(#categories, #palette) categories. Each id maps to (name, palette colour) at the last such position with that id |
| Categories.CategoriesFromPairs | app.py:78-79 | the table's key set and values, read off the zipped pairs by the last-one-wins rule |
| Categories.CategoryPastPaletteDropped | app.py:70-79 | with a palette of one colour per hue tuple (80), an id declared only at position 80 or later is not a key |
| Render.ToCorners | app.py:103-106 | `[x, y, w, h]` becomes corners that convert back to the first four entries. Corners are ordered iff `w >= 0` and `h >= 0` |
| Render.CornersRoundTrip | app.py:103-106 | corners converted to `[x, y, w, h]` and back are unchanged |
| Render.MaskColor | app.py:115-116 | a mask's colour has the category's RGB as its first three components and alpha 75 |
| Render.MaskForShape | app.py:115-119 | the mask of one object is its first polygon, with outline equal to fill, and the fill is the category RGB at alpha 75 |
| Render.LookupStyles | app.py:100 | succeeds iff every object's category id is a key. Then it holds each object's style, in object order. Otherwise it fails with the id of the first object whose category is missing |
| Render.ConvertBoxes | app.py:103-106 | one corner box per object, in object order, iff every bbox has four entries. Otherwise it fails naming the first object with a short bbox |
| Render.PolygonIndices | app.py:113-118 | every listed position is a valid object index whose segmentation is a polygon list |
| Render.PolygonIndicesIncreasing | app.py:113-118 | the listed positions strictly increase, so masks follow object order |
| Render.PolygonIndicesComplete | app.py:113-118 | every object whose segmentation is a polygon list is listed |
| Render.MasksInOrderExtend | app.py:113-124 | handling one more object (draw or skip) keeps the masks in object order |
| Render.MaskCommands | app.py:113-124 | succeeds iff no polygon list is empty. It then draws the first polygon of exactly the list-form objects, in order, with fill = outline = category colour + alpha 75. RLE objects yield no command and no error. Otherwise it fails naming the first object with an empty list |
| Render.RectCommands | app.py:127-128 | one rectangle per box, outlined in the matching object's category colour |
| Render.AssemblePlan | app.py:99-128 | the looked-up styles, converted boxes and drawn masks, followed by the rectangles, have the shape of a plan |
| Render.PlanImage | app.py:99-128 | the plan exists iff every object is drawable. It then has the shape of a plan: the masks of the list-form objects in object order, each in its category colour at alpha 75, then one rectangle per object in object order at its corners, outlined in its category RGB. On failure it names the first failing object of the first failing stage: the first unknown category, else the first short bbox, else the first empty polygon list |
| Render.MasksPrecedeRectangles | app.py:109-128 | in a plan, exactly the commands before the mask count are polygons, so no polygon follows a rectangle |
| Render.PlanRectangleFrom | app.py:126-128 | a rectangle at position k of a plan belongs to object k minus the mask count, and is that object's box in its category colour |
| Render.PlanRectangleOwner | app.py:126-128 | every rectangle of a plan outlines one of the objects, in that object's category colour |
| Render.LoadImage | app.py:84-128 | fetching the image's objects and planning them succeeds iff every annotation of that image is drawable. A result is a plan for exactly the annotations of that image, in file order |
| Viewer.ShowImage | app.py:56-128 | for a palette with one colour per hue tuple, the k-th navigation entry can be drawn iff every annotation of that image is drawable with the table built from the record. A result is a plan for exactly the annotations of that image |
| Viewer.PlanOutlinesEveryAnnotation | app.py:98-128 | a plan for an image's annotations contains, for each annotation of that image, its rectangle in its category colour |
| Viewer.PlanOutlinesOnlyThisImage | app.py:98-128 | every rectangle of such a plan outlines an annotation of that image |
| Viewer.CategoryPastPaletteFails | app.py:70-100 | an image holding an object whose category is declared only past position 80 cannot be drawn: the lookup fails with `UnknownCategory` |
| Viewer.SingleCategoryTable | app.py:78-79 | a single declared category gets the first palette colour |
| Viewer.TriangleBoxPlan | app.py:99-128 | the concrete plan for one object with a triangle mask and box `[10, 10, 50, 50]` |
| Viewer.OneBoxExample | app.py:56-128 | one image, category 7 "cat", box `[10, 10, 50, 50]`: the triangle mask at alpha 75, then the rectangle `(10, 10)-(60, 60)` in the category colour |

## Left out

- The hue-saturation-value to RGB conversion and the `int(x * 255)` truncation (app.py:71-72) are floating-point arithmetic. The palette is an input instead.
- The seeded shuffle and the reseed (app.py:73-75) rely on Python's Mersenne Twister. The shuffled palette is an input, so the model says nothing about which colour lands where.
- JSON loading (app.py:46-54) is I/O. The model starts from the parsed record. A missing key or a value of the wrong JSON type is not modelled. Only the bbox length and the segmentation form are.
- Image opening and path joining (app.py:87-90) are file I/O. The PIL layer, drawing and `alpha_composite` (app.py:93-132) belong to a raster library. Pillow's own errors, such as a rectangle with `x1 < x0` or an odd-length polygon, are outside the model.
- The Tk widgets, key bindings and logging (app.py:27-44, 134-158) and the command-line entry point `cocoviewer.py` are UI glue.
- `ImageList` navigation (the wrap-around cursor behind `next`/`prev`, app.py:35, 40, 152, 158): navigation.py is not part of this model. `Viewer.ShowImage` takes the cursor position as a parameter.
- Render.ToCorners: coordinates are exact reals standing in for Python's doubles (app.py:105-106 adds floats). The round trip back to `[x, y, w, h]` and the "ordered iff `w, h >= 0`" equivalence hold only in exact arithmetic. Under rounding, `0.1 + 0.2` is not `0.3`, and `1e16 + -1.0` rounds back to `1e16`. Only the direction "`w, h >= 0` implies ordered corners" survives rounding.
- Render.CornersRoundTrip: holds only in exact real arithmetic, for the same reason. With doubles, `x0 + (x1 - x0)` need not equal `x1`.
- Categories.HueTuples: the hues are the exact reals `i / 80`. Python's `x / 80` (app.py:70) gives the nearest doubles, which are not spaced by exactly 1/80. The count of 80, the saturation and value of 1, and the strict increase of the hues hold for both.
