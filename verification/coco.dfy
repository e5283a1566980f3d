/**
 * The records of a COCO-style (Common Objects in Context) dataset as the
 * downloader deserialises them: every field is optional, identifiers are
 * unsigned 32-bit integers, and the payload fields that no filter reads are
 * kept opaque.
 */
module Coco {
  import opened Wrappers

  /** Rust's `u32`. */
  type U32 = x: int | 0 <= x < 0x1_0000_0000

  /** A `serde_json::Value`, held as its JSON text; nothing here inspects it. */
  datatype JsonValue = JsonValue(text: string)

  /** An `f32`, held as its IEEE 754 bit pattern; nothing here inspects it. */
  datatype F32 = F32(bits: bv32)

  /** The four-element `bbox` array. */
  datatype BoundingBox = BoundingBox(x: JsonValue, y: JsonValue, width: JsonValue, height: JsonValue)

  datatype Image = Image(
    id: Option<U32>,
    width: Option<U32>,
    height: Option<U32>,
    fileName: Option<string>,
    license: Option<string>,
    flickrUrl: Option<string>,
    cocoUrl: Option<string>,
    dateCaptured: Option<string>,
    flickr640Url: Option<string>)

  datatype Annotation = Annotation(
    id: Option<U32>,
    imageId: Option<U32>,
    categoryId: Option<U32>,
    segmentation: Option<seq<seq<JsonValue>>>,
    area: Option<F32>,
    bbox: Option<BoundingBox>,
    iscrowd: Option<U32>)

  datatype Category = Category(
    id: Option<U32>,
    name: Option<string>,
    supercategory: Option<string>)

  datatype Dataset = Dataset(
    images: seq<Image>,
    annotations: seq<Annotation>,
    categories: seq<Category>)

  /** The record fields whose `unwrap()` the filtering code performs. */
  datatype Field =
    | CategoryName
    | CategoryId
    | AnnotationCategoryId
    | AnnotationImageId
    | ImageId
    | ImageFileName

  /** The panic raised by `unwrap()` on a `None` field, which ends the program. */
  datatype Panic = UnwrapNone(field: Field)
}
