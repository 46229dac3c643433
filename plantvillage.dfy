/**
 * The grouping of PlantVillage disease classes into five nutrient-like
 * categories by keywords in the lower-cased class name.
 */
module PlantVillage {
  import opened Text

  datatype Category = Healthy | NitrogenLike | PhosphorusLike | PotassiumLike | GeneralStress {
    function Name(): string {
      match this
      case Healthy => "healthy"
      case NitrogenLike => "nitrogen_like"
      case PhosphorusLike => "phosphorus_like"
      case PotassiumLike => "potassium_like"
      case GeneralStress => "general_stress"
    }
  }

  const AllCategories: set<Category> :=
    {Healthy, NitrogenLike, PhosphorusLike, PotassiumLike, GeneralStress}

  predicate AnyKeyword(s: string, keywords: seq<string>) {
    exists i :: 0 <= i < |keywords| && Contains(s, keywords[i])
  }

  const NitrogenKeywords: seq<string> := ["yellow", "mosaic", "curl", "leaf_spot"]
  const PotassiumKeywords: seq<string> := ["bacterial", "blight", "scab", "rust"]
  const PhosphorusKeywords: seq<string> := ["mold", "black", "dark", "rot"]

  /** The category of one class: `healthy` first, then the nitrogen-like,
      potassium-like and phosphorus-like keywords in that order, and
      general stress for a name matching none. */
  function CategoryOf(className: string): (r: Category)
    ensures Contains(Lower(className), "healthy") ==> r == Healthy
    ensures r == NitrogenLike <==>
      !Contains(Lower(className), "healthy") && AnyKeyword(Lower(className), NitrogenKeywords)
    ensures r == PotassiumLike <==>
      && !Contains(Lower(className), "healthy") && !AnyKeyword(Lower(className), NitrogenKeywords)
      && AnyKeyword(Lower(className), PotassiumKeywords)
    ensures r == PhosphorusLike <==>
      && !Contains(Lower(className), "healthy") && !AnyKeyword(Lower(className), NitrogenKeywords)
      && !AnyKeyword(Lower(className), PotassiumKeywords) && AnyKeyword(Lower(className), PhosphorusKeywords)
    ensures r == GeneralStress <==>
      && !Contains(Lower(className), "healthy") && !AnyKeyword(Lower(className), NitrogenKeywords)
      && !AnyKeyword(Lower(className), PotassiumKeywords) && !AnyKeyword(Lower(className), PhosphorusKeywords)
  {
    var lower := Lower(className);
    if Contains(lower, "healthy") then Healthy
    else if AnyKeyword(lower, NitrogenKeywords) then NitrogenLike
    else if AnyKeyword(lower, PotassiumKeywords) then PotassiumLike
    else if AnyKeyword(lower, PhosphorusKeywords) then PhosphorusLike
    else GeneralStress
  }

  /** The classes of one category, in input order. */
  function InCategory(classes: seq<string>, c: Category): (r: seq<string>)
    ensures forall x :: x in r ==> x in classes && CategoryOf(x) == c
    ensures |r| <= |classes|
  {
    if |classes| == 0 then []
    else
      var rest := InCategory(classes[..|classes| - 1], c);
      var last := classes[|classes| - 1];
      if CategoryOf(last) == c then rest + [last] else rest
  }

  /** Grouping a concatenation groups each part and concatenates: a
      category's list keeps the input order. */
  lemma {:induction false} InCategoryAppend(xs: seq<string>, ys: seq<string>, c: Category)
    ensures InCategory(xs + ys, c) == InCategory(xs, c) + InCategory(ys, c)
    decreases |ys|
  {
    if |ys| == 0 {
      assert xs + ys == xs;
    } else {
      var ys' := ys[..|ys| - 1];
      assert (xs + ys)[..|xs + ys| - 1] == xs + ys';
      InCategoryAppend(xs, ys', c);
    }
  }

  /** The five lists together hold every input class exactly as often as
      the input does. */
  lemma {:induction false} CategoriesPartition(classes: seq<string>)
    ensures multiset(InCategory(classes, Healthy)) + multiset(InCategory(classes, NitrogenLike))
          + multiset(InCategory(classes, PhosphorusLike)) + multiset(InCategory(classes, PotassiumLike))
          + multiset(InCategory(classes, GeneralStress))
          == multiset(classes)
  {
    if |classes| > 0 {
      var init := classes[..|classes| - 1];
      CategoriesPartition(init);
      assert classes == init + [classes[|classes| - 1]];
    }
  }

  /** A class is listed under its own category and under no other. */
  lemma ExactlyOneCategory(classes: seq<string>, x: string)
    requires x in classes
    ensures x in InCategory(classes, CategoryOf(x))
    ensures forall c :: c != CategoryOf(x) ==> x !in InCategory(classes, c)
  {
    CategoriesPartition(classes);
    assert multiset(classes)[x] > 0;
  }

  /** The loop of `map_plantvillage_to_npk`: five empty lists, and each
      class name appended to the list of its category. */
  method MapPlantVillage(classes: seq<string>) returns (mapping: map<Category, seq<string>>)
    ensures mapping.Keys == AllCategories
    ensures forall c :: c in mapping ==> mapping[c] == InCategory(classes, c)
  {
    mapping := map[Healthy := [], NitrogenLike := [], PhosphorusLike := [],
                   PotassiumLike := [], GeneralStress := []];
    var i := 0;
    while i < |classes|
      invariant 0 <= i <= |classes|
      invariant mapping.Keys == AllCategories
      invariant forall c :: c in mapping ==> mapping[c] == InCategory(classes[..i], c)
    {
      var className := classes[i];
      var category := CategoryOf(className);
      mapping := mapping[category := mapping[category] + [className]];
      assert classes[..i + 1][..i] == classes[..i];
      i := i + 1;
    }
    assert classes[..i] == classes;
  }
}
