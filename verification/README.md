# TacoDownloader filter core, in Dafny

TacoDownloader reads a COCO-style (Common Objects in Context) annotation file
and narrows it to the categories it wants. It keeps the categories whose name
is in a fixed target list (`["Aluminium foil"]`). It keeps the annotations of
those categories. It keeps the images those annotations reference. It then
downloads each kept image to a fixed root directory and assembles the three
narrowed lists into a new `Dataset`.

This project models that narrowing as pure functions over sequences of
immutable records, and proves what each stage keeps, in what order, and when
it panics. The download destination path is modelled as well.

- `wrappers.dfy` (`Wrappers`): Rust's `Option` and `Result`.
- `coco.dfy` (`Coco`): the `Dataset`, `Image`, `Annotation` and `Category`
  records with every field optional, `U32` for `u32`, and the `Panic` raised
  by `unwrap()` on `None`.
- `filtering.dfy` (`Filtering`): `iter().cloned().filter(p).collect()` as
  `Filter`, its fallible form `TryFilter` (a panic inside the predicate ends
  the pass), and the generic facts about both.
- `stages.dfy` (`Stages`): the three stages and the short-circuiting `any`
  scan the last two use.
- `pipeline.dfy` (`Pipeline`): the whole narrowing (`Narrow`), its
  dataset-level properties, and the destination path.
- `scenarios.dfy` (`Scenarios`): concrete runs with the real target list.

Each `unwrap()` on a `None` field is an `Err(UnwrapNone(field))` result, not a
precondition. The model keeps the exact order in which the code unwraps:

- every category's name is unwrapped, kept or not;
- inside `any`, the list element's key is unwrapped before the probed record's
  key;
- the scan stops at the first match;
- an empty list unwraps nothing.

So an annotation without a `category_id` goes unnoticed when no category was
kept, and a kept category without an `id` goes unnoticed while an earlier
kept category matches.

A category with no name is not skipped: the code unwraps the name and
panics, and so does `SelectCategories`. There is no per-category cap and no
`iscrowd` ordering: every matching annotation is kept, in input order.

The `Coco` records (`Dataset`, `Image`, `Annotation`, `Category`) mirror the
structs of src/main.rs:6-42 field for field, and `Pipeline.TargetCategories`
is the target list of src/main.rs:56.

## Model

| member | source | states |
|---|---|---|
| Filtering.Filter | src/main.rs:58-74 | the filtered output is never longer than its input |
| Filtering.FilterMembers | src/main.rs:58-62 | every output element is an input element satisfying the predicate, and every input element satisfying it is in the output |
| Filtering.FilterPositions | src/main.rs:58-74 | the output is exactly the input elements at the positions that satisfy the predicate, in increasing position order, each copied unchanged (a subsequence of the input) |
| Filtering.FilterCount | src/main.rs:70-74 | a kept value occurs in the output exactly as often as in the input and a dropped one never, so an image referenced by several annotations is still kept once |
| Filtering.FilterIdempotent | src/main.rs:58-74 | filtering the output again with the same predicate returns it unchanged |
| Filtering.TryFilter | src/main.rs:58-62 | the pass succeeds iff the predicate succeeds on every element; on success it equals the plain filter on the accepted elements; on failure it reports the error of the first failing element, all earlier ones having succeeded |
| Filtering.TryFilterIdempotent | src/main.rs:58-74 | a successful fallible pass succeeds again on its own output and returns it unchanged |
| Stages.AnyKeyEquals | src/main.rs:67 | `any` with two unwraps panics iff the list is non-empty and either the probe is `None` or a `None` key is reached before any match; the panic names the probe's field only when the probe is `None` and the first key is present; on success it is true iff some present key equals the probe |
| Stages.SelectCategories | src/main.rs:56-62 | the stage panics iff some category has no name, with the name as the panicking field; otherwise it keeps exactly the categories whose name is a target, in input order |
| Stages.SelectAnnotations | src/main.rs:64-68 | the stage succeeds iff no annotation's scan over the kept categories panics; a panic names a field that is really `None` in a kept category or an annotation; otherwise it keeps exactly the annotations whose category id is the id of a kept category, in input order; with no kept category it keeps nothing and never panics |
| Stages.SelectImages | src/main.rs:70-74 | the stage succeeds iff no image's scan over the kept annotations panics; a panic names a field that is really `None`; otherwise it keeps exactly the images whose id is the image id of a kept annotation, in input order; with no kept annotation it keeps nothing and never panics |
| Stages.SelectCategoriesIdempotent | src/main.rs:58-62 | selecting categories again from the selected ones returns them unchanged |
| Stages.SelectAnnotationsIdempotent | src/main.rs:64-68 | selecting annotations again from the kept ones, with the same categories, returns them unchanged |
| Stages.SelectImagesIdempotent | src/main.rs:70-74 | selecting images again from the kept ones, with the same annotations, returns them unchanged |
| Pipeline.Narrow | src/main.rs:58-97 | a panic names a field that is `None` in some record of the dataset; a dataset with every unwrapped field present never panics; on success the new dataset holds exactly the three stage outputs, each stage filtering against the previous stage's output |
| Pipeline.NarrowReferentialIntegrity | src/main.rs:64-74 | every kept record is an input record; every kept category's name is a target; every kept annotation's category id is a kept category's id; every kept image's id is a kept annotation's image id |
| Pipeline.NarrowIdempotent | src/main.rs:58-97 | narrowing the narrowed dataset with the same targets returns it unchanged |
| Pipeline.NoTargetEmptiesDataset | src/main.rs:64-74 | when every category has a name and none is a target, the result is the empty dataset, whatever the annotations and images hold |
| Pipeline.EmptyTargetsEmptyDataset | src/main.rs:56-74 | with an empty target list the run succeeds exactly when every category has a name, and then keeps nothing |
| Pipeline.DestinationPath | src/main.rs:80 | the path exists iff the image has a file name (otherwise the unwrap panics); it starts with the storage root and the rest is the file name |
| Pipeline.RelativeName | src/main.rs:80 | recovers the part after the storage root exactly for paths under the root |
| Pipeline.DestinationPathRoundTrip | src/main.rs:80 | the file name is recovered from the destination path |
| Pipeline.DestinationPathInjective | src/main.rs:80 | two images get the same destination iff they have the same file name |
| Scenarios.FoilScenario | src/main.rs:56-97 | with the real target list, a foil category is kept and a bottle category dropped; two foil annotations of one image keep that image once; an unreferenced image is dropped |
| Scenarios.NamelessCategoryPanics | src/main.rs:61 | a nameless category panics even though it could never be kept |
| Scenarios.MissingCategoryIdPanicsOnlyWhenScanned | src/main.rs:67 | an annotation with no category id passes unnoticed when no category is kept, and panics once one is |

## Left out

- HTTP download (src/main.rs:76-95): the `reqwest` GET, its status check and
  the body copy are network I/O through a foreign library. The `unwrap()` of
  `flickr_url` and of the response at line 78 are left out with it.
- Directory and file creation (src/main.rs:82-89): filesystem I/O.
- Command-line handling, file reading and JSON deserialisation
  (src/main.rs:46-54): I/O and a library parser. The dataset is a parameter.
- Console output (src/main.rs:49, 84, 99).
- The `serde_json::Value` contents of `segmentation` and `bbox`, and the `f32`
  `area`: no filter reads them. They are held as opaque values (JSON text, an
  IEEE bit pattern), so a float NaN compares equal to itself here.
- Pipeline.Narrow: in the code the new `Dataset` is built only after every
  download has finished, so a panic in the download loop also prevents it.
  `Narrow` models the narrowing and the assembly, not that ordering with the
  download loop.
