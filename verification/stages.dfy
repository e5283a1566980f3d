/**
 * The three filter stages of the downloader: categories by name, then
 * annotations by kept category, then images by kept annotation. Each stage
 * copies the input records it keeps, in input order, and panics (an `Err`
 * here) exactly where the code's `unwrap()` meets a `None`.
 */
module Stages {
  import opened Wrappers
  import opened Filtering
  import opened Coco

  // ---------------------------------------------------------------------
  // `iter().any(|x| key(x).unwrap() == probe.unwrap())`
  // ---------------------------------------------------------------------

  /**
   * Scanning `xs` in order, some element's key is `None` before any key has
   * matched `probe`: the scan unwraps that key and panics.
   */
  predicate ReachesMissingKey<T>(xs: seq<T>, key: T -> Option<U32>, probe: Option<U32>)
  {
    exists k :: 0 <= k < |xs| && key(xs[k]).None? && forall j :: 0 <= j < k ==> key(xs[j]) != probe
  }

  /** The short-circuiting scan of `xs` for `probe` panics. */
  predicate ScanPanics<T>(xs: seq<T>, key: T -> Option<U32>, probe: Option<U32>)
  {
    |xs| > 0 && (probe.None? || ReachesMissingKey(xs, key, probe))
  }

  /**
   * Rust's `xs.iter().any(|x| key(x).unwrap() == probe.unwrap())`: the
   * element's key is unwrapped before the probe, and the scan stops at the
   * first match, so keys after a match are never unwrapped and an empty
   * `xs` unwraps nothing at all.
   */
  function AnyKeyEquals<T>(xs: seq<T>, key: T -> Option<U32>, keyField: Field,
                           probe: Option<U32>, probeField: Field): (r: Result<bool, Panic>)
    ensures r.Err? <==> ScanPanics(xs, key, probe)
    ensures r.Err? ==> r.error == UnwrapNone(if probe.None? && key(xs[0]).Some? then probeField else keyField)
    ensures r.Ok? ==> (r.value <==> exists i :: 0 <= i < |xs| && key(xs[i]).Some? && key(xs[i]) == probe)
    decreases |xs|
  {
    if |xs| == 0 then Ok(false)
    else
      match key(xs[0])
      case None => Err(UnwrapNone(keyField))
      case Some(k) =>
        match probe
        case None => Err(UnwrapNone(probeField))
        case Some(v) =>
          if k == v then Ok(true)
          else
            var r := AnyKeyEquals(xs[1..], key, keyField, probe, probeField);
            assert ReachesMissingKey(xs, key, probe) <==> ReachesMissingKey(xs[1..], key, probe) by {
              if ReachesMissingKey(xs[1..], key, probe) {
                var k :| 0 <= k < |xs[1..]| && key(xs[1..][k]).None?
                         && forall j :: 0 <= j < k ==> key(xs[1..][j]) != probe;
                assert key(xs[k + 1]).None?;
                forall j | 0 <= j < k + 1
                  ensures key(xs[j]) != probe
                {
                  if j > 0 {
                    assert xs[j] == xs[1..][j - 1];
                  }
                }
              }
              if ReachesMissingKey(xs, key, probe) {
                var k :| 0 <= k < |xs| && key(xs[k]).None? && forall j :: 0 <= j < k ==> key(xs[j]) != probe;
                assert k > 0;
                assert key(xs[1..][k - 1]).None?;
                forall j | 0 <= j < k - 1
                  ensures key(xs[1..][j]) != probe
                {
                  assert xs[1..][j] == xs[j + 1];
                }
              }
            }
            assert (exists i :: 0 <= i < |xs| && key(xs[i]).Some? && key(xs[i]) == probe)
              <==> (exists i :: 0 <= i < |xs[1..]| && key(xs[1..][i]).Some? && key(xs[1..][i]) == probe) by {
              if exists i :: 0 <= i < |xs| && key(xs[i]).Some? && key(xs[i]) == probe {
                var i :| 0 <= i < |xs| && key(xs[i]).Some? && key(xs[i]) == probe;
                assert i > 0;
                assert xs[1..][i - 1] == xs[i];
              }
            }
            r
  }

  // ---------------------------------------------------------------------
  // Stage 1: categories whose name is in the target list
  // ---------------------------------------------------------------------

  /** The reference rule of stage 1: the category has a name and it is a target. */
  function CategorySelected(targets: seq<string>): Category -> bool
  {
    (c: Category) => c.name.Some? && c.name.value in targets
  }

  /** Whether the category's name is one of `targets`; a missing name panics. */
  function NameTest(targets: seq<string>): Category -> Result<bool, Panic>
  {
    (c: Category) => if c.name.None? then Err(UnwrapNone(CategoryName)) else Ok(c.name.value in targets)
  }

  /**
   * The categories named in `targets`, in input order. Every category is
   * tested, so a single nameless category anywhere makes the stage panic.
   */
  function SelectCategories(cats: seq<Category>, targets: seq<string>): (r: Result<seq<Category>, Panic>)
    ensures r.Ok? <==> forall i :: 0 <= i < |cats| ==> cats[i].name.Some?
    ensures r.Err? ==> r.error == UnwrapNone(CategoryName)
    ensures r.Ok? ==> r.value == Filter(cats, CategorySelected(targets))
    ensures r.Ok? ==> forall c :: c in r.value <==> c in cats && c.name.Some? && c.name.value in targets
  {
    var r := TryFilter(cats, NameTest(targets));
    if r.Ok? then
      FilterAgree(cats, Accepts(NameTest(targets)), CategorySelected(targets));
      FilterMembers(cats, CategorySelected(targets));
      r
    else
      r
  }

  // ---------------------------------------------------------------------
  // Stage 2: annotations whose category was kept
  // ---------------------------------------------------------------------

  function CategoryKey(c: Category): Option<U32>
  {
    c.id
  }

  /** The reference rule of stage 2: the annotation's category id is the id of a kept category. */
  function AnnotationSelected(cats: seq<Category>): Annotation -> bool
  {
    (an: Annotation) => an.categoryId.Some? && exists i :: 0 <= i < |cats| && cats[i].id == an.categoryId
  }

  /**
   * Whether the annotation's category id is the id of one of `cats`, scanning
   * `cats` in order; a missing id on either side panics.
   */
  function CategoryTest(cats: seq<Category>): Annotation -> Result<bool, Panic>
  {
    (an: Annotation) => AnyKeyEquals(cats, CategoryKey, CategoryId, an.categoryId, AnnotationCategoryId)
  }

  /**
   * The annotations of the kept categories `cats`, in input order. With no
   * kept category nothing is unwrapped and nothing is kept.
   */
  function SelectAnnotations(anns: seq<Annotation>, cats: seq<Category>): (r: Result<seq<Annotation>, Panic>)
    ensures r.Ok? <==> forall i :: 0 <= i < |anns| ==> !ScanPanics(cats, CategoryKey, anns[i].categoryId)
    ensures r.Err? && r.error.field == CategoryId ==> exists c :: c in cats && c.id.None?
    ensures r.Err? && r.error.field == AnnotationCategoryId ==> exists an :: an in anns && an.categoryId.None?
    ensures r.Err? ==> r.error.field == CategoryId || r.error.field == AnnotationCategoryId
    ensures r.Ok? ==> r.value == Filter(anns, AnnotationSelected(cats))
    ensures r.Ok? ==> forall an :: an in r.value <==>
      an in anns && an.categoryId.Some? && exists c :: c in cats && c.id == an.categoryId
    ensures |cats| == 0 ==> r == Ok([])
  {
    var r := TryFilter(anns, CategoryTest(cats));
    if r.Ok? then
      FilterAgree(anns, Accepts(CategoryTest(cats)), AnnotationSelected(cats));
      FilterMembers(anns, AnnotationSelected(cats));
      if |cats| == 0 then
        FilterKeepsNone(anns, AnnotationSelected(cats));
        r
      else
        r
    else
      r
  }

  // ---------------------------------------------------------------------
  // Stage 3: images referenced by a kept annotation
  // ---------------------------------------------------------------------

  function ImageKey(an: Annotation): Option<U32>
  {
    an.imageId
  }

  /** The reference rule of stage 3: the image's id is the image id of a kept annotation. */
  function ImageSelected(anns: seq<Annotation>): Image -> bool
  {
    (im: Image) => im.id.Some? && exists i :: 0 <= i < |anns| && anns[i].imageId == im.id
  }

  /**
   * Whether the image's id is the image id of one of `anns`, scanning `anns`
   * in order; a missing id on either side panics.
   */
  function ImageTest(anns: seq<Annotation>): Image -> Result<bool, Panic>
  {
    (im: Image) => AnyKeyEquals(anns, ImageKey, AnnotationImageId, im.id, ImageId)
  }

  /**
   * The images referenced by the kept annotations `anns`, in input order,
   * each input image at most once however many annotations reference it.
   */
  function SelectImages(imgs: seq<Image>, anns: seq<Annotation>): (r: Result<seq<Image>, Panic>)
    ensures r.Ok? <==> forall i :: 0 <= i < |imgs| ==> !ScanPanics(anns, ImageKey, imgs[i].id)
    ensures r.Err? && r.error.field == AnnotationImageId ==> exists an :: an in anns && an.imageId.None?
    ensures r.Err? && r.error.field == ImageId ==> exists im :: im in imgs && im.id.None?
    ensures r.Err? ==> r.error.field == AnnotationImageId || r.error.field == ImageId
    ensures r.Ok? ==> r.value == Filter(imgs, ImageSelected(anns))
    ensures r.Ok? ==> forall im :: im in r.value <==>
      im in imgs && im.id.Some? && exists an :: an in anns && an.imageId == im.id
    ensures |anns| == 0 ==> r == Ok([])
  {
    var r := TryFilter(imgs, ImageTest(anns));
    if r.Ok? then
      FilterAgree(imgs, Accepts(ImageTest(anns)), ImageSelected(anns));
      FilterMembers(imgs, ImageSelected(anns));
      if |anns| == 0 then
        FilterKeepsNone(imgs, ImageSelected(anns));
        r
      else
        r
    else
      r
  }

  // ---------------------------------------------------------------------
  // Re-running a stage on its own output
  // ---------------------------------------------------------------------

  /** Selecting categories again from the selected categories keeps them all and panics nowhere. */
  lemma SelectCategoriesIdempotent(cats: seq<Category>, targets: seq<string>)
    requires SelectCategories(cats, targets).Ok?
    ensures SelectCategories(SelectCategories(cats, targets).value, targets) == SelectCategories(cats, targets)
  {
    TryFilterIdempotent(cats, NameTest(targets));
  }

  /** Selecting annotations again, against the same kept categories, keeps them all. */
  lemma SelectAnnotationsIdempotent(anns: seq<Annotation>, cats: seq<Category>)
    requires SelectAnnotations(anns, cats).Ok?
    ensures SelectAnnotations(SelectAnnotations(anns, cats).value, cats) == SelectAnnotations(anns, cats)
  {
    TryFilterIdempotent(anns, CategoryTest(cats));
  }

  /** Selecting images again, against the same kept annotations, keeps them all. */
  lemma SelectImagesIdempotent(imgs: seq<Image>, anns: seq<Annotation>)
    requires SelectImages(imgs, anns).Ok?
    ensures SelectImages(SelectImages(imgs, anns).value, anns) == SelectImages(imgs, anns)
  {
    TryFilterIdempotent(imgs, ImageTest(anns));
  }
}
