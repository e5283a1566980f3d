/**
 * The whole narrowing of a dataset, assembled into a new `Dataset`, and the
 * local path each kept image is downloaded to.
 */
module Pipeline {
  import opened Wrappers
  import opened Filtering
  import opened Coco
  import opened Stages

  /** The category names the downloader keeps. */
  const TargetCategories: seq<string> := ["Aluminium foil"]

  /** The fixed directory the images are written under. */
  const StorageRoot: string := "/Volumes/Elements/"

  /** Some record of the kind `f` belongs to has `None` in field `f`. */
  predicate HasNone(d: Dataset, f: Field)
  {
    match f
    case CategoryName => exists c :: c in d.categories && c.name.None?
    case CategoryId => exists c :: c in d.categories && c.id.None?
    case AnnotationCategoryId => exists an :: an in d.annotations && an.categoryId.None?
    case AnnotationImageId => exists an :: an in d.annotations && an.imageId.None?
    case ImageId => exists im :: im in d.images && im.id.None?
    case ImageFileName => exists im :: im in d.images && im.fileName.None?
  }

  /** Every field the three filters unwrap is present. */
  predicate FiltersTotal(d: Dataset)
  {
    && (forall c :: c in d.categories ==> c.name.Some? && c.id.Some?)
    && (forall an :: an in d.annotations ==> an.categoryId.Some? && an.imageId.Some?)
    && (forall im :: im in d.images ==> im.id.Some?)
  }

  /**
   * The three stages in sequence, their outputs assembled into a new
   * dataset; the first panic of any stage ends the run.
   */
  function Narrow(d: Dataset, targets: seq<string>): (r: Result<Dataset, Panic>)
    ensures r.Err? ==> HasNone(d, r.error.field)
    ensures FiltersTotal(d) ==> r.Ok?
    ensures r.Ok? ==> r.value.categories == Filter(d.categories, CategorySelected(targets))
    ensures r.Ok? ==> r.value.annotations == Filter(d.annotations, AnnotationSelected(r.value.categories))
    ensures r.Ok? ==> r.value.images == Filter(d.images, ImageSelected(r.value.annotations))
  {
    match SelectCategories(d.categories, targets)
    case Err(e) => Err(e)
    case Ok(cats) =>
      match SelectAnnotations(d.annotations, cats)
      case Err(e) => Err(e)
      case Ok(anns) =>
        match SelectImages(d.images, anns)
        case Err(e) => Err(e)
        case Ok(imgs) => Ok(Dataset(imgs, anns, cats))
  }

  /**
   * Every kept category is a target, every kept annotation belongs to a
   * kept category, and every kept image is referenced by a kept annotation.
   */
  lemma NarrowReferentialIntegrity(d: Dataset, targets: seq<string>)
    ensures Narrow(d, targets).Ok? ==> var n := Narrow(d, targets).value;
      && (forall c :: c in n.categories ==> c in d.categories && c.name.Some? && c.name.value in targets)
      && (forall an :: an in n.annotations ==>
            an in d.annotations && exists c :: c in n.categories && c.id.Some? && c.id == an.categoryId)
      && (forall im :: im in n.images ==>
            im in d.images && exists an :: an in n.annotations && an.imageId.Some? && an.imageId == im.id)
  {
  }

  /** Narrowing an already narrowed dataset with the same targets returns it unchanged. */
  lemma NarrowIdempotent(d: Dataset, targets: seq<string>)
    ensures Narrow(d, targets).Ok? ==> Narrow(Narrow(d, targets).value, targets) == Narrow(d, targets)
  {
    if Narrow(d, targets).Ok? {
      var cats := SelectCategories(d.categories, targets).value;
      var anns := SelectAnnotations(d.annotations, cats).value;
      SelectCategoriesIdempotent(d.categories, targets);
      SelectAnnotationsIdempotent(d.annotations, cats);
      SelectImagesIdempotent(d.images, anns);
    }
  }

  /**
   * When no category is a target, nothing downstream is unwrapped: the
   * result is the empty dataset as soon as every category has a name.
   */
  lemma NoTargetEmptiesDataset(d: Dataset, targets: seq<string>)
    requires forall c :: c in d.categories ==> c.name.Some? && c.name.value !in targets
    ensures Narrow(d, targets) == Ok(Dataset([], [], []))
  {
    FilterKeepsNone(d.categories, CategorySelected(targets));
  }

  /** With an empty target list the run succeeds exactly when every category has a name, and keeps nothing. */
  lemma EmptyTargetsEmptyDataset(d: Dataset)
    ensures Narrow(d, []).Ok? <==> forall c :: c in d.categories ==> c.name.Some?
    ensures Narrow(d, []).Ok? ==> Narrow(d, []).value == Dataset([], [], [])
  {
    if forall c :: c in d.categories ==> c.name.Some? {
      NoTargetEmptiesDataset(d, []);
    }
  }

  // ---------------------------------------------------------------------
  // Destination of a download
  // ---------------------------------------------------------------------

  /** The storage root followed by the image's file name; a missing file name panics. */
  function DestinationPath(im: Image): (r: Result<string, Panic>)
    ensures r.Ok? <==> im.fileName.Some?
    ensures r.Err? ==> r.error == UnwrapNone(ImageFileName)
    ensures r.Ok? ==> StorageRoot <= r.value && r.value[|StorageRoot|..] == im.fileName.value
  {
    match im.fileName
    case None => Err(UnwrapNone(ImageFileName))
    case Some(name) => Ok(StorageRoot + name)
  }

  /** The file name a path under the storage root stands for. */
  function RelativeName(path: string): (r: Option<string>)
    ensures r.Some? <==> StorageRoot <= path
    ensures r.Some? ==> StorageRoot + r.value == path
  {
    if StorageRoot <= path then Some(path[|StorageRoot|..]) else None
  }

  /** The file name is recovered from the destination path. */
  lemma DestinationPathRoundTrip(im: Image)
    requires im.fileName.Some?
    ensures DestinationPath(im).Ok?
    ensures RelativeName(DestinationPath(im).value) == im.fileName
  {
  }

  /** Two images share a destination exactly when they share a file name. */
  lemma DestinationPathInjective(a: Image, b: Image)
    requires a.fileName.Some? && b.fileName.Some?
    ensures DestinationPath(a) == DestinationPath(b) <==> a.fileName == b.fileName
  {
    if DestinationPath(a) == DestinationPath(b) {
      DestinationPathRoundTrip(a);
      DestinationPathRoundTrip(b);
    }
  }
}
