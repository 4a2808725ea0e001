/** The drawing plan of `load_image` (app.py lines 99-128). The PIL calls
    become an ordered list of draw commands: one polygon per object whose
    segmentation is a polygon list, then one outlined rectangle per object. */
module Render {
  import opened Wrappers
  import opened Records
  import opened Categories
  import opened Annotations

  /** Alpha channel of every mask fill. */
  const MaskAlpha: Byte := 75

  /** A box as the drawing call takes it: top-left and bottom-right corner. */
  datatype Corners = Corners(x0: real, y0: real, x1: real, y1: real)

  /** `draw.polygon(points, outline, fill)` and `draw.rectangle(box, outline)`; `edge` is the outline colour. */
  datatype DrawCmd =
    | Polygon(points: seq<real>, outline: Rgba, fill: Rgba)
    | Rectangle(box: Corners, edge: Rgb)

  /** Why a plan could not be built: the source raises KeyError on an
      unknown category and IndexError on a short bbox or an empty polygon list. */
  datatype RenderError =
    | UnknownCategory(categoryId: int)
    | BboxTooShort(annotationId: int)
    | NoPolygon(annotationId: int)

  /** COCO's `[x, y, w, h]` back from the corners. */
  function ToXywh(c: Corners): seq<real> {
    [c.x0, c.y0, c.x1 - c.x0, c.y1 - c.y0]
  }

  /** Corners of a `[x, y, w, h]` box. The conversion loses nothing but the
      entries past the fourth, and the corners are ordered exactly when the
      width and height are non-negative. */
  function ToCorners(bbox: seq<real>): (c: Corners)
    requires |bbox| >= 4
    ensures ToXywh(c) == bbox[..4]
    ensures (c.x0 <= c.x1 && c.y0 <= c.y1) <==> (bbox[2] >= 0.0 && bbox[3] >= 0.0)
  {
    Corners(bbox[0], bbox[1], bbox[0] + bbox[2], bbox[1] + bbox[3])
  }

  /** Converting corners to `[x, y, w, h]` and back is the identity. */
  lemma CornersRoundTrip(c: Corners)
    ensures |ToXywh(c)| == 4 && ToCorners(ToXywh(c)) == c
  {
  }

  /** A mask's fill (and outline): the category colour with alpha 75. */
  function MaskColor(color: Rgb): (fill: Rgba)
    ensures fill.a == MaskAlpha
    ensures Rgb(fill.r, fill.g, fill.b) == color
  {
    Rgba(color.r, color.g, color.b, MaskAlpha)
  }

  /** The object's segmentation can be drawn or skipped without error:
      an RLE dictionary is skipped, a polygon list needs a first polygon. */
  predicate SegmentationUsable(a: Annotation) {
    a.segmentation.Polygons? ==> |a.segmentation.polygons| > 0
  }

  /** Everything `load_image` reads from one object succeeds. */
  predicate Drawable(table: map<int, Style>, a: Annotation) {
    a.categoryId in table && |a.bbox| >= 4 && SegmentationUsable(a)
  }

  /** The mask command for one object: its first polygon, filled and outlined. */
  function MaskFor(style: Style, a: Annotation): DrawCmd
    requires a.segmentation.Polygons? && |a.segmentation.polygons| > 0
  {
    var fill := MaskColor(style.color);
    Polygon(a.segmentation.polygons[0], fill, fill)
  }

  /** A mask is the object's first polygon, outlined and filled alike in
      the category colour at alpha 75. */
  lemma MaskForShape(style: Style, a: Annotation)
    requires a.segmentation.Polygons? && |a.segmentation.polygons| > 0
    ensures var cmd := MaskFor(style, a);
            && cmd.Polygon? && cmd.points == a.segmentation.polygons[0]
            && cmd.outline == cmd.fill && cmd.fill.a == MaskAlpha
            && Rgb(cmd.fill.r, cmd.fill.g, cmd.fill.b) == style.color
  {
  }

  /** The category style of each object (`obj_categories`, line 100), or
      the id of the first object's category missing from the table. */
  function LookupStyles(objs: seq<Annotation>, table: map<int, Style>): (r: Result<seq<Style>, RenderError>)
    ensures r.Ok? <==> forall i :: 0 <= i < |objs| ==> objs[i].categoryId in table
    ensures r.Ok? ==>
              && |r.value| == |objs|
              && forall i :: 0 <= i < |objs| ==> objs[i].categoryId in table && r.value[i] == table[objs[i].categoryId]
    ensures r.Err? ==>
              exists i ::
                && 0 <= i < |objs| && objs[i].categoryId !in table
                && (forall j :: 0 <= j < i ==> objs[j].categoryId in table)
                && r.error == UnknownCategory(objs[i].categoryId)
  {
    if objs == [] then Ok([])
    else
      var n := |objs| - 1;
      assert forall i :: 0 <= i < n ==> objs[..n][i] == objs[i];
      match LookupStyles(objs[..n], table)
      case Err(e) => Err(e)
      case Ok(styles) =>
        if objs[n].categoryId in table then Ok(styles + [table[objs[n].categoryId]])
        else Err(UnknownCategory(objs[n].categoryId))
  }

  /** The corners of each object's bbox (lines 103-106), or the id of the
      first object whose bbox has fewer than four entries. */
  function ConvertBoxes(objs: seq<Annotation>): (r: Result<seq<Corners>, RenderError>)
    ensures r.Ok? <==> forall i :: 0 <= i < |objs| ==> |objs[i].bbox| >= 4
    ensures r.Ok? ==>
              && |r.value| == |objs|
              && forall i :: 0 <= i < |objs| ==> |objs[i].bbox| >= 4 && r.value[i] == ToCorners(objs[i].bbox)
    ensures r.Err? ==>
              exists i ::
                && 0 <= i < |objs| && |objs[i].bbox| < 4
                && (forall j :: 0 <= j < i ==> |objs[j].bbox| >= 4)
                && r.error == BboxTooShort(objs[i].id)
  {
    if objs == [] then Ok([])
    else
      var n := |objs| - 1;
      assert forall i :: 0 <= i < n ==> objs[..n][i] == objs[i];
      match ConvertBoxes(objs[..n])
      case Err(e) => Err(e)
      case Ok(boxes) =>
        if |objs[n].bbox| >= 4 then Ok(boxes + [ToCorners(objs[n].bbox)])
        else Err(BboxTooShort(objs[n].id))
  }

  /** Positions of the objects whose segmentation is a polygon list, in
      increasing order: the objects that get a mask. */
  function PolygonIndices(objs: seq<Annotation>): (idx: seq<int>)
    ensures forall k :: 0 <= k < |idx| ==> 0 <= idx[k] < |objs| && objs[idx[k]].segmentation.Polygons?
  {
    if objs == [] then []
    else
      var n := |objs| - 1;
      PolygonIndices(objs[..n]) + (if objs[n].segmentation.Polygons? then [n] else [])
  }

  /** `PolygonIndices` lists positions in increasing order, so masks are
      drawn in object order. */
  lemma {:induction false} PolygonIndicesIncreasing(objs: seq<Annotation>)
    ensures forall k, l :: 0 <= k < l < |PolygonIndices(objs)| ==> PolygonIndices(objs)[k] < PolygonIndices(objs)[l]
    decreases |objs|
  {
    if objs != [] {
      var n := |objs| - 1;
      var prefix := PolygonIndices(objs[..n]);
      PolygonIndicesIncreasing(objs[..n]);
      var idx := PolygonIndices(objs);
      assert idx == prefix + (if objs[n].segmentation.Polygons? then [n] else []);
      forall k, l | 0 <= k < l < |idx| ensures idx[k] < idx[l] {
        assert idx[k] == prefix[k] && 0 <= prefix[k] < |objs[..n]|;
        if l < |prefix| {
          assert idx[l] == prefix[l];
          assert prefix[k] < prefix[l];
        } else {
          assert idx[l] == n;
        }
      }
    }
  }

  /** No object with a polygon list is left out of `PolygonIndices`. */
  lemma {:induction false} PolygonIndicesComplete(objs: seq<Annotation>, i: int)
    requires 0 <= i < |objs| && objs[i].segmentation.Polygons?
    ensures i in PolygonIndices(objs)
    decreases |objs|
  {
    var n := |objs| - 1;
    if i < n {
      PolygonIndicesComplete(objs[..n], i);
    }
  }

  /** `cmds` are, in order, the masks of exactly the objects whose
      segmentation is a polygon list, each in its own object's style. */
  predicate MasksInOrder(cmds: seq<DrawCmd>, styles: seq<Style>, objs: seq<Annotation>)
    requires |styles| == |objs|
  {
    var idx := PolygonIndices(objs);
    && |cmds| == |idx|
    && forall k :: 0 <= k < |idx| ==>
         && SegmentationUsable(objs[idx[k]])
         && cmds[k] == MaskFor(styles[idx[k]], objs[idx[k]])
  }

  /** Handling one more object keeps the masks in order. */
  lemma MasksInOrderExtend(styles: seq<Style>, objs: seq<Annotation>, masks: seq<DrawCmd>)
    requires |styles| == |objs| > 0
    requires MasksInOrder(masks, styles[..|objs| - 1], objs[..|objs| - 1])
    requires SegmentationUsable(objs[|objs| - 1])
    ensures var n := |objs| - 1;
            MasksInOrder(masks + (if objs[n].segmentation.Polygons? then [MaskFor(styles[n], objs[n])] else []),
                         styles, objs)
  {
    var n := |objs| - 1;
    var prefix := PolygonIndices(objs[..n]);
    var idx := PolygonIndices(objs);
    assert idx == prefix + (if objs[n].segmentation.Polygons? then [n] else []);
    forall k | 0 <= k < |prefix|
      ensures objs[..n][prefix[k]] == objs[idx[k]] && styles[..n][prefix[k]] == styles[idx[k]]
    {
    }
  }

  /** The mask loop (lines 114-124): a polygon for each object with a
      polygon-list segmentation, in object order; other forms are skipped. */
  function MaskCommands(styles: seq<Style>, objs: seq<Annotation>): (r: Result<seq<DrawCmd>, RenderError>)
    requires |styles| == |objs|
    ensures r.Ok? <==> forall i :: 0 <= i < |objs| ==> SegmentationUsable(objs[i])
    ensures r.Ok? ==> MasksInOrder(r.value, styles, objs)
    ensures r.Err? ==>
              exists i ::
                && 0 <= i < |objs| && !SegmentationUsable(objs[i])
                && (forall j :: 0 <= j < i ==> SegmentationUsable(objs[j]))
                && r.error == NoPolygon(objs[i].id)
  {
    if objs == [] then Ok([])
    else
      var n := |objs| - 1;
      assert forall i :: 0 <= i < n ==> objs[..n][i] == objs[i];
      match MaskCommands(styles[..n], objs[..n])
      case Err(e) => Err(e)
      case Ok(masks) =>
        match objs[n].segmentation
        case Polygons(ps) =>
          if |ps| == 0 then Err(NoPolygon(objs[n].id))
          else
            MasksInOrderExtend(styles, objs, masks);
            Ok(masks + [MaskFor(styles[n], objs[n])])
        case Rle(_, _) =>
          MasksInOrderExtend(styles, objs, masks);
          Ok(masks)
  }

  /** The rectangle loop (lines 127-128). */
  function RectCommands(styles: seq<Style>, boxes: seq<Corners>): (rects: seq<DrawCmd>)
    requires |styles| == |boxes|
    ensures |rects| == |boxes|
    ensures forall i :: 0 <= i < |boxes| ==> rects[i] == Rectangle(boxes[i], styles[i].color)
  {
    if boxes == [] then []
    else
      var n := |boxes| - 1;
      RectCommands(styles[..n], boxes[..n]) + [Rectangle(boxes[n], styles[n].color)]
  }

  /** The declarative shape of a drawing plan: every object is drawable,
      the first `|PolygonIndices(objs)|` commands are the masks of the
      objects with a polygon list in object order, and then comes one
      rectangle per object, each in its category colour. */
  predicate IsPlan(cmds: seq<DrawCmd>, objs: seq<Annotation>, table: map<int, Style>) {
    var idx := PolygonIndices(objs);
    && (forall i :: 0 <= i < |objs| ==> Drawable(table, objs[i]))
    && |cmds| == |idx| + |objs|
    && (forall k :: 0 <= k < |idx| ==> cmds[k] == MaskFor(table[objs[idx[k]].categoryId], objs[idx[k]]))
    && (forall i :: 0 <= i < |objs| ==>
          cmds[|idx| + i] == Rectangle(ToCorners(objs[i].bbox), table[objs[i].categoryId].color))
  }

  /** The masks computed by `MaskCommands` open the plan. */
  lemma AssembleMasks(objs: seq<Annotation>, table: map<int, Style>,
                      styles: seq<Style>, masks: seq<DrawCmd>, rects: seq<DrawCmd>)
    requires |styles| == |objs|
    requires forall i :: 0 <= i < |objs| ==> objs[i].categoryId in table && styles[i] == table[objs[i].categoryId]
    requires MasksInOrder(masks, styles, objs)
    ensures var idx := PolygonIndices(objs);
            forall k :: 0 <= k < |idx| ==>
              && objs[idx[k]].categoryId in table && SegmentationUsable(objs[idx[k]])
              && (masks + rects)[k] == MaskFor(table[objs[idx[k]].categoryId], objs[idx[k]])
  {
    var idx := PolygonIndices(objs);
    forall k | 0 <= k < |idx|
      ensures (masks + rects)[k] == MaskFor(table[objs[idx[k]].categoryId], objs[idx[k]])
    {
      assert (masks + rects)[k] == masks[k];
    }
  }

  /** The rectangles computed by `RectCommands` follow the masks. */
  lemma AssembleRects(objs: seq<Annotation>, table: map<int, Style>,
                      styles: seq<Style>, boxes: seq<Corners>, masks: seq<DrawCmd>)
    requires |styles| == |objs| == |boxes|
    requires forall i :: 0 <= i < |objs| ==> objs[i].categoryId in table && styles[i] == table[objs[i].categoryId]
    requires forall i :: 0 <= i < |objs| ==> |objs[i].bbox| >= 4 && boxes[i] == ToCorners(objs[i].bbox)
    ensures forall i :: 0 <= i < |objs| ==>
              (masks + RectCommands(styles, boxes))[|masks| + i] ==
              Rectangle(ToCorners(objs[i].bbox), table[objs[i].categoryId].color)
  {
    var rects := RectCommands(styles, boxes);
    forall i | 0 <= i < |objs|
      ensures (masks + rects)[|masks| + i] == Rectangle(ToCorners(objs[i].bbox), table[objs[i].categoryId].color)
    {
      assert (masks + rects)[|masks| + i] == rects[i];
    }
  }

  /** The masks and rectangles computed stage by stage form a plan. */
  lemma AssemblePlan(objs: seq<Annotation>, table: map<int, Style>,
                     styles: seq<Style>, boxes: seq<Corners>, masks: seq<DrawCmd>)
    requires forall i :: 0 <= i < |objs| ==> Drawable(table, objs[i])
    requires |styles| == |objs| == |boxes|
    requires forall i :: 0 <= i < |objs| ==> objs[i].categoryId in table && styles[i] == table[objs[i].categoryId]
    requires forall i :: 0 <= i < |objs| ==> |objs[i].bbox| >= 4 && boxes[i] == ToCorners(objs[i].bbox)
    requires MasksInOrder(masks, styles, objs)
    ensures IsPlan(masks + RectCommands(styles, boxes), objs, table)
  {
    AssembleMasks(objs, table, styles, masks, RectCommands(styles, boxes));
    AssembleRects(objs, table, styles, boxes, masks);
  }

  /** The drawing plan for one image's objects: every mask, then one
      rectangle per object outlined in its category colour. Errors surface
      in the order the source evaluates: all category lookups first, then
      all bboxes, then the masks. */
  function PlanImage(objs: seq<Annotation>, table: map<int, Style>): (r: Result<seq<DrawCmd>, RenderError>)
    ensures r.Ok? <==> forall i :: 0 <= i < |objs| ==> Drawable(table, objs[i])
    ensures r.Ok? ==> IsPlan(r.value, objs, table)
    ensures (exists i :: 0 <= i < |objs| && objs[i].categoryId !in table) ==>
              && r.Err?
              && exists i ::
                   && 0 <= i < |objs| && objs[i].categoryId !in table
                   && (forall j :: 0 <= j < i ==> objs[j].categoryId in table)
                   && r.error == UnknownCategory(objs[i].categoryId)
    ensures (forall i :: 0 <= i < |objs| ==> objs[i].categoryId in table) &&
            (exists i :: 0 <= i < |objs| && |objs[i].bbox| < 4) ==>
              && r.Err?
              && exists i ::
                   && 0 <= i < |objs| && |objs[i].bbox| < 4
                   && (forall j :: 0 <= j < i ==> |objs[j].bbox| >= 4)
                   && r.error == BboxTooShort(objs[i].id)
    ensures (forall i :: 0 <= i < |objs| ==> objs[i].categoryId in table && |objs[i].bbox| >= 4) && r.Err? ==>
              exists i ::
                && 0 <= i < |objs| && !SegmentationUsable(objs[i])
                && (forall j :: 0 <= j < i ==> SegmentationUsable(objs[j]))
                && r.error == NoPolygon(objs[i].id)
  {
    var styles :- LookupStyles(objs, table);
    var boxes :- ConvertBoxes(objs);
    var masks :- MaskCommands(styles, objs);
    AssemblePlan(objs, table, styles, boxes, masks);
    Ok(masks + RectCommands(styles, boxes))
  }

  /** `load_image` for one entry of the navigation list: the plan for the
      annotations of that image. */
  function LoadImage(inst: Instances, table: map<int, Style>, entry: ImageEntry): (r: Result<seq<DrawCmd>, RenderError>)
    ensures r.Ok? <==>
              forall a :: a in inst.annotations && a.imageId == entry.id ==> Drawable(table, a)
    ensures r.Ok? ==> IsPlan(r.value, GetObjects(inst.annotations, entry.id), table)
  {
    var objs := GetObjects(inst.annotations, entry.id);
    forall a | a in inst.annotations && a.imageId == entry.id ensures a in objs {
      GetObjectsMembership(inst.annotations, entry.id, a);
    }
    forall i | 0 <= i < |objs| ensures objs[i] in inst.annotations && objs[i].imageId == entry.id {
      GetObjectsMembership(inst.annotations, entry.id, objs[i]);
    }
    PlanImage(objs, table)
  }

  /** In a plan, the commands before the mask count are polygons and the
      rest are rectangles; so no mask comes after a rectangle. */
  lemma MasksPrecedeRectangles(cmds: seq<DrawCmd>, objs: seq<Annotation>, table: map<int, Style>)
    requires IsPlan(cmds, objs, table)
    ensures forall k :: 0 <= k < |cmds| ==> (cmds[k].Polygon? <==> k < |PolygonIndices(objs)|)
    ensures forall i, j :: 0 <= i < j < |cmds| && cmds[j].Polygon? ==> cmds[i].Polygon?
  {
    var m := |PolygonIndices(objs)|;
    forall k | m <= k < |cmds| ensures cmds[k].Rectangle? {
      var i := k - m;
      assert cmds[m + i] == Rectangle(ToCorners(objs[i].bbox), table[objs[i].categoryId].color);
    }
  }

  /** Every rectangle in a plan is the rectangle of one of the objects,
      outlined in that object's category colour. */
  lemma PlanRectangleFrom(cmds: seq<DrawCmd>, objs: seq<Annotation>, table: map<int, Style>, k: int)
    requires IsPlan(cmds, objs, table)
    requires 0 <= k < |cmds| && cmds[k].Rectangle?
    ensures var i := k - |PolygonIndices(objs)|;
            && 0 <= i < |objs|
            && Drawable(table, objs[i])
            && cmds[k] == Rectangle(ToCorners(objs[i].bbox), table[objs[i].categoryId].color)
  {
    var idx := PolygonIndices(objs);
    var m := |idx|;
    assert k >= m;
    assert cmds[m + (k - m)] == cmds[k];
  }

  /** Every rectangle command of a plan outlines some object of the plan. */
  lemma PlanRectangleOwner(cmds: seq<DrawCmd>, objs: seq<Annotation>, table: map<int, Style>, c: DrawCmd)
    requires IsPlan(cmds, objs, table)
    requires c in cmds && c.Rectangle?
    ensures exists i :: && 0 <= i < |objs| && Drawable(table, objs[i])
                        && c == Rectangle(ToCorners(objs[i].bbox), table[objs[i].categoryId].color)
  {
    var k :| 0 <= k < |cmds| && cmds[k] == c;
    PlanRectangleFrom(cmds, objs, table, k);
  }
}
