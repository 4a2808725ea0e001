/** The viewer's pipeline from the annotation record to the drawing plan
    of an image in the navigation list, and properties that span the
    extraction, category and rendering steps. */
module Viewer {
  import opened Wrappers
  import opened Records
  import opened Annotations
  import opened Categories
  import opened Render

  /** The plan for the `k`-th image of the navigation list, with the
      category table built from the record and the given shuffled palette. */
  function ShowImage(inst: Instances, palette: seq<Rgb>, k: int): (r: Result<seq<DrawCmd>, RenderError>)
    requires 0 <= k < |inst.images|
    requires |palette| == |HueTuples()|
    ensures r.Ok? <==>
              forall a :: a in inst.annotations && a.imageId == inst.images[k].id ==>
                Drawable(CategoryTable(inst.categories, palette), a)
    ensures r.Ok? ==>
              IsPlan(r.value, GetObjects(inst.annotations, inst.images[k].id), CategoryTable(inst.categories, palette))
  {
    LoadImage(inst, CategoryTable(inst.categories, palette), GetImages(inst.images)[k])
  }

  /** A plan for the annotations of an image outlines every one of them,
      in its category colour. */
  lemma PlanOutlinesEveryAnnotation(inst: Instances, table: map<int, Style>, entry: ImageEntry,
                                    cmds: seq<DrawCmd>, a: Annotation)
    requires IsPlan(cmds, GetObjects(inst.annotations, entry.id), table)
    requires a in inst.annotations && a.imageId == entry.id
    ensures Drawable(table, a)
    ensures Rectangle(ToCorners(a.bbox), table[a.categoryId].color) in cmds
  {
    var objs := GetObjects(inst.annotations, entry.id);
    var m := |PolygonIndices(objs)|;
    GetObjectsMembership(inst.annotations, entry.id, a);
    var i :| 0 <= i < |objs| && objs[i] == a;
    assert cmds[m + i] == Rectangle(ToCorners(a.bbox), table[a.categoryId].color);
  }

  /** Every rectangle of a plan for the annotations of an image outlines
      an annotation of that image, in that annotation's category colour. */
  lemma PlanOutlinesOnlyThisImage(inst: Instances, table: map<int, Style>, entry: ImageEntry,
                                  cmds: seq<DrawCmd>, c: DrawCmd)
    requires IsPlan(cmds, GetObjects(inst.annotations, entry.id), table)
    requires c in cmds && c.Rectangle?
    ensures exists a :: && a in inst.annotations && a.imageId == entry.id && Drawable(table, a)
                        && c == Rectangle(ToCorners(a.bbox), table[a.categoryId].color)
  {
    var objs := GetObjects(inst.annotations, entry.id);
    PlanRectangleOwner(cmds, objs, table, c);
    var i :| && 0 <= i < |objs| && Drawable(table, objs[i])
             && c == Rectangle(ToCorners(objs[i].bbox), table[objs[i].categoryId].color);
    GetObjectsMembership(inst.annotations, entry.id, objs[i]);
  }

  /** With the viewer's palette, one colour per hue tuple, an image holding
      an object whose category is declared only past position 80 cannot be
      shown: the category lookup fails. */
  lemma CategoryPastPaletteFails(inst: Instances, palette: seq<Rgb>, k: int, a: Annotation)
    requires |palette| == |HueTuples()|
    requires 0 <= k < |inst.images|
    requires a in inst.annotations && a.imageId == inst.images[k].id
    requires forall i :: 0 <= i < |inst.categories| && inst.categories[i].id == a.categoryId ==> i >= PaletteSize
    ensures ShowImage(inst, palette, k).Err?
    ensures ShowImage(inst, palette, k).error.UnknownCategory?
  {
    var table := CategoryTable(inst.categories, palette);
    var objs := GetObjects(inst.annotations, inst.images[k].id);
    CategoryPastPaletteDropped(inst.categories, palette, a.categoryId);
    GetObjectsMembership(inst.annotations, inst.images[k].id, a);
    var i :| 0 <= i < |objs| && objs[i] == a;
    assert objs[i].categoryId !in table;
  }

  /** A single declared category takes the first palette colour. */
  lemma SingleCategoryTable(palette: seq<Rgb>, id: int, name: string)
    requires |palette| == |HueTuples()|
    ensures CategoryTable([CategoryRecord(id, name)], palette) == map[id := Style(name, palette[0])]
  {
    assert CategoryTable([CategoryRecord(id, name)], palette).Keys == {id};
  }

  /** The plan for one object of category 7 with a triangle mask and box
      `[10, 10, 50, 50]`:
      the mask, then the box. */
  lemma TriangleBoxPlan(c: Rgb)
    ensures var tri := [10.0, 10.0, 60.0, 10.0, 60.0, 60.0];
            var ann := Annotation(1, 1, 7, [10.0, 10.0, 50.0, 50.0], Polygons([tri]));
            var fill := Rgba(c.r, c.g, c.b, 75);
            PlanImage([ann], map[7 := Style("cat", c)]) ==
              Ok([Polygon(tri, fill, fill), Rectangle(Corners(10.0, 10.0, 60.0, 60.0), c)])
  {
    var tri := [10.0, 10.0, 60.0, 10.0, 60.0, 60.0];
    var ann := Annotation(1, 1, 7, [10.0, 10.0, 50.0, 50.0], Polygons([tri]));
    var table := map[7 := Style("cat", c)];
    var fill := Rgba(c.r, c.g, c.b, 75);
    assert PolygonIndices([ann]) == [0];
    var styles := LookupStyles([ann], table).value;
    assert styles == [Style("cat", c)];
    var boxes := ConvertBoxes([ann]).value;
    assert boxes == [Corners(10.0, 10.0, 60.0, 60.0)];
    var masks := MaskCommands(styles, [ann]).value;
    assert masks == [Polygon(tri, fill, fill)];
    assert RectCommands(styles, boxes) == [Rectangle(Corners(10.0, 10.0, 60.0, 60.0), c)];
    assert PlanImage([ann], table) == Ok(masks + RectCommands(styles, boxes));
    assert masks + RectCommands(styles, boxes) ==
           [Polygon(tri, fill, fill), Rectangle(Corners(10.0, 10.0, 60.0, 60.0), c)];
  }

  /** One image, one category (id 7, "cat") and one box `[10, 10, 50, 50]`
      with a triangle mask: the plan is that triangle in the category colour
      at alpha 75, then the rectangle `(10, 10)-(60, 60)` outlined in the
      category colour. */
  lemma OneBoxExample(palette: seq<Rgb>)
    requires |palette| == |HueTuples()|
    ensures var tri := [10.0, 10.0, 60.0, 10.0, 60.0, 60.0];
            var inst := Instances(
              [ImageRecord(1, "a.jpg")],
              [Annotation(1, 1, 7, [10.0, 10.0, 50.0, 50.0], Polygons([tri]))],
              [CategoryRecord(7, "cat")]);
            var fill := Rgba(palette[0].r, palette[0].g, palette[0].b, 75);
            ShowImage(inst, palette, 0) ==
              Ok([Polygon(tri, fill, fill), Rectangle(Corners(10.0, 10.0, 60.0, 60.0), palette[0])])
  {
    var tri := [10.0, 10.0, 60.0, 10.0, 60.0, 60.0];
    var ann := Annotation(1, 1, 7, [10.0, 10.0, 50.0, 50.0], Polygons([tri]));
    var inst := Instances([ImageRecord(1, "a.jpg")], [ann], [CategoryRecord(7, "cat")]);
    SingleCategoryTable(palette, 7, "cat");
    TriangleBoxPlan(palette[0]);
    assert [ann][..0] == [];
    assert GetObjects(inst.annotations, 1) == [ann];
    assert GetImages(inst.images)[0].id == 1;
  }
}
