/** The parsed COCO-style annotation record, as the viewer reads it after
    `json.load`: three arrays of typed entries, plus colour types. */
module Records {

  /** An 8-bit colour channel. */
  type Byte = x: int | 0 <= x < 256

  datatype Rgb = Rgb(r: Byte, g: Byte, b: Byte)

  datatype Rgba = Rgba(r: Byte, g: Byte, b: Byte, a: Byte)

  /** One entry of the `images` array, with the two fields the viewer reads. */
  datatype ImageRecord = ImageRecord(id: int, fileName: string)

  /** One entry of the `categories` array. */
  datatype CategoryRecord = CategoryRecord(id: int, name: string)

  /** The `segmentation` field: either a JSON list of polygons (each a flat
      list x1, y1, x2, y2, ...) or the run-length-encoded dictionary form. */
  datatype Segmentation =
    | Polygons(polygons: seq<seq<real>>)
    | Rle(counts: seq<int>, size: seq<int>)

  /** One entry of the `annotations` array. `bbox` is `[x, y, w, h]` as
      stored in the file; nothing guarantees it has four entries. */
  datatype Annotation = Annotation(
    id: int,
    imageId: int,
    categoryId: int,
    bbox: seq<real>,
    segmentation: Segmentation)

  /** The whole record (`self.instances`). */
  datatype Instances = Instances(
    images: seq<ImageRecord>,
    annotations: seq<Annotation>,
    categories: seq<CategoryRecord>)
}
