/** Concrete runs of the narrowing with the downloader's own target list. */
module Scenarios {
  import opened Wrappers
  import Filtering
  import opened Coco
  import opened Stages
  import opened Pipeline

  function Cat(id: U32, name: string): Category
  {
    Category(Some(id), Some(name), None)
  }

  function Ann(id: U32, imageId: U32, categoryId: U32): Annotation
  {
    Annotation(Some(id), Some(imageId), Some(categoryId), None, None, None, Some(0))
  }

  function Img(id: U32, fileName: string): Image
  {
    Image(Some(id), None, None, Some(fileName), None, None, None, None, None)
  }

  function FoilCategories(): seq<Category>
  {
    [Cat(1, "Aluminium foil"), Cat(2, "Bottle")]
  }

  function FoilAnnotations(): seq<Annotation>
  {
    [Ann(10, 100, 1), Ann(11, 101, 2), Ann(12, 100, 1)]
  }

  function FoilImages(): seq<Image>
  {
    [Img(100, "a.jpg"), Img(101, "b.jpg"), Img(102, "c.jpg")]
  }

  lemma FoilCategoryStage()
    ensures SelectCategories(FoilCategories(), TargetCategories) == Ok([Cat(1, "Aluminium foil")])
  {
    var cats := FoilCategories();
    var selected := CategorySelected(TargetCategories);
    assert "Bottle" != "Aluminium foil";
    assert selected(cats[0]) && !selected(cats[1]);
    assert cats[1..][1..] == [];
    assert Filtering.Filter(cats[1..], selected) == [];
    assert Filtering.Filter(cats, selected) == [cats[0]];
    assert SelectCategories(cats, TargetCategories).Ok?;
  }

  lemma FoilAnnotationStage()
    ensures SelectAnnotations(FoilAnnotations(), [Cat(1, "Aluminium foil")]) == Ok([Ann(10, 100, 1), Ann(12, 100, 1)])
  {
    var cats := [Cat(1, "Aluminium foil")];
    var anns := FoilAnnotations();
    var selected := AnnotationSelected(cats);
    assert cats[0].id == Some(1);
    assert selected(anns[0]) && !selected(anns[1]) && selected(anns[2]);
    assert anns[1..][1..] == [anns[2]];
    assert anns[1..][1..][1..] == [];
    assert Filtering.Filter(anns[1..][1..], selected) == [anns[2]];
    assert Filtering.Filter(anns[1..], selected) == [anns[2]];
    assert Filtering.Filter(anns, selected) == [anns[0], anns[2]];
    assert SelectAnnotations(anns, cats).Ok?;
  }

  lemma FoilImageStage()
    ensures SelectImages(FoilImages(), [Ann(10, 100, 1), Ann(12, 100, 1)]) == Ok([Img(100, "a.jpg")])
  {
    var imgs := FoilImages();
    var anns := [Ann(10, 100, 1), Ann(12, 100, 1)];
    var selected := ImageSelected(anns);
    assert anns[0].imageId == Some(100) && anns[1].imageId == Some(100);
    assert selected(imgs[0]) && !selected(imgs[1]) && !selected(imgs[2]);
    assert imgs[1..][1..] == [imgs[2]];
    assert imgs[1..][1..][1..] == [];
    assert Filtering.Filter(imgs[1..][1..], selected) == [];
    assert Filtering.Filter(imgs[1..], selected) == [];
    assert Filtering.Filter(imgs, selected) == [imgs[0]];
    assert SelectImages(imgs, anns).Ok?;
  }

  /**
   * Foil (category 1) is kept and bottles (category 2) are not; image 100,
   * referenced by two foil annotations, is kept once; image 102 carries no
   * annotation and is dropped.
   */
  lemma FoilScenario()
    ensures Narrow(Dataset(FoilImages(), FoilAnnotations(), FoilCategories()), TargetCategories)
              == Ok(Dataset([Img(100, "a.jpg")], [Ann(10, 100, 1), Ann(12, 100, 1)], [Cat(1, "Aluminium foil")]))
  {
    FoilCategoryStage();
    FoilAnnotationStage();
    FoilImageStage();
  }

  /** A category without a name panics even when it could never have been kept. */
  lemma NamelessCategoryPanics()
    ensures Narrow(Dataset([], [], [Cat(1, "Aluminium foil"), Category(Some(2), None, None)]), TargetCategories)
              == Err(UnwrapNone(CategoryName))
  {
  }

  /**
   * An annotation with no category id goes unnoticed when no category is
   * kept, but panics as soon as one is.
   */
  lemma MissingCategoryIdPanicsOnlyWhenScanned()
    ensures var orphan := Annotation(Some(10), Some(100), None, None, None, None, None);
            && Narrow(Dataset([], [orphan], [Cat(2, "Bottle")]), TargetCategories) == Ok(Dataset([], [], []))
            && Narrow(Dataset([], [orphan], [Cat(1, "Aluminium foil")]), TargetCategories)
                 == Err(UnwrapNone(AnnotationCategoryId))
  {
  }
}
