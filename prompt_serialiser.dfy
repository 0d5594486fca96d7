/**
 * The reduction of each caterer to the record handed to the recommendation
 * prompt: id, name, description and rating are copied, menus and reviews are
 * flattened to text. The prompt and the model call are not modelled.
 */
module PromptSerialiser {
  import opened CatalogData

  datatype CatererInfo = CatererInfo(
    id: string, name: string, description: string, rating: real, menus: string, reviews: string)

  const MenuSeparator := "; "
  const ItemSeparator := ", "
  const ReviewSeparator := "; "

  /** `parts.join(sep)`: the parts in order with `sep` between neighbours. */
  function Join(parts: seq<string>, sep: string): string
  {
    if |parts| == 0 then ""
    else if |parts| == 1 then parts[0]
    else parts[0] + sep + Join(parts[1..], sep)
  }

  /** Joining grows from the left: one more part adds a separator and that part. */
  lemma {:induction false} JoinSnoc(parts: seq<string>, x: string, sep: string)
    requires |parts| > 0
    ensures Join(parts + [x], sep) == Join(parts, sep) + sep + x
  {
    if |parts| > 1 {
      assert (parts + [x])[1..] == parts[1..] + [x];
      JoinSnoc(parts[1..], x, sep);
    } else {
      assert parts + [x] == [parts[0], x];
    }
  }

  function SumLengths(parts: seq<string>): nat
  {
    if parts == [] then 0 else |parts[0]| + SumLengths(parts[1..])
  }

  /** The joined text is the parts plus one separator between each neighbouring pair. */
  lemma {:induction false} JoinLength(parts: seq<string>, sep: string)
    requires |parts| > 0
    ensures |Join(parts, sep)| == SumLengths(parts) + (|parts| - 1) * |sep|
  {
    if |parts| > 1 {
      JoinLength(parts[1..], sep);
    }
  }

  /** With a non-empty separator, the join is empty only for no parts or one empty part. */
  lemma JoinEmptyIff(parts: seq<string>, sep: string)
    requires |sep| > 0
    ensures Join(parts, sep) == "" <==> (|parts| == 0 || (|parts| == 1 && parts[0] == ""))
  {
    if |parts| > 1 {
      assert |Join(parts, sep)| >= |sep|;
    }
  }

  /** `m.items.map(i => i.name)`. */
  function ItemNames(items: seq<MenuItem>): (r: seq<string>)
    ensures |r| == |items|
    ensures forall k :: 0 <= k < |items| ==> r[k] == items[k].name
  {
    if items == [] then [] else [items[0].name] + ItemNames(items[1..])
  }

  /** One menu as `Category: name, name`. */
  function MenuLine(m: Menu): string
  {
    m.category + ": " + Join(ItemNames(m.items), ItemSeparator)
  }

  function MenuLines(menus: seq<Menu>): (r: seq<string>)
    ensures |r| == |menus|
    ensures forall k :: 0 <= k < |menus| ==> r[k] == MenuLine(menus[k])
  {
    if menus == [] then [] else [MenuLine(menus[0])] + MenuLines(menus[1..])
  }

  /** The `menus` text: the menu lines joined by "; ". */
  function MenusText(menus: seq<Menu>): string
  {
    Join(MenuLines(menus), MenuSeparator)
  }

  /** `reviews.map(r => r.comment)`. */
  function Comments(reviews: seq<Review>): (r: seq<string>)
    ensures |r| == |reviews|
    ensures forall k :: 0 <= k < |reviews| ==> r[k] == reviews[k].comment
  {
    if reviews == [] then [] else [reviews[0].comment] + Comments(reviews[1..])
  }

  /** The `reviews` text: the comments joined by "; ". */
  function ReviewsText(reviews: seq<Review>): string
  {
    Join(Comments(reviews), ReviewSeparator)
  }

  /** The reduced record of one caterer. */
  function ToInfo(c: Caterer): CatererInfo
  {
    CatererInfo(c.id, c.name, c.description, c.rating, MenusText(c.menus), ReviewsText(c.reviews))
  }

  /** `caterers.map(...)`: one record per caterer, in catalog order, fields copied. */
  function ToInfos(caterers: seq<Caterer>): (r: seq<CatererInfo>)
    ensures |r| == |caterers|
    ensures forall k :: 0 <= k < |caterers| ==>
      && r[k].id == caterers[k].id && r[k].name == caterers[k].name
      && r[k].description == caterers[k].description && r[k].rating == caterers[k].rating
      && r[k].menus == MenusText(caterers[k].menus) && r[k].reviews == ReviewsText(caterers[k].reviews)
  {
    if caterers == [] then [] else [ToInfo(caterers[0])] + ToInfos(caterers[1..])
  }

  lemma MenusTextEmpty()
    ensures MenusText([]) == ""
    ensures ReviewsText([]) == ""
  {
  }

  /** A menu without items still shows its category and the colon. */
  lemma MenuWithoutItems(category: string)
    ensures MenuLine(Menu(category, [])) == category + ": "
    ensures MenusText([Menu(category, [])]) == category + ": "
  {
  }

  /** Each further menu adds "; " and its line, in order. */
  lemma MenusTextSnoc(menus: seq<Menu>, m: Menu)
    requires |menus| > 0
    ensures MenusText(menus + [m]) == MenusText(menus) + "; " + MenuLine(m)
  {
    assert MenuLines(menus + [m]) == MenuLines(menus) + [MenuLine(m)];
    JoinSnoc(MenuLines(menus), MenuLine(m), MenuSeparator);
  }

  /** Each further review adds "; " and its comment. */
  lemma ReviewsTextSnoc(reviews: seq<Review>, r: Review)
    requires |reviews| > 0
    ensures ReviewsText(reviews + [r]) == ReviewsText(reviews) + "; " + r.comment
  {
    assert Comments(reviews + [r]) == Comments(reviews) + [r.comment];
    JoinSnoc(Comments(reviews), r.comment, ReviewSeparator);
  }

  /** The categories and item names of a menu list; descriptions and prices are dropped. */
  function Outline(menus: seq<Menu>): (r: seq<(string, seq<string>)>)
    ensures |r| == |menus|
    ensures forall k :: 0 <= k < |menus| ==> r[k] == (menus[k].category, ItemNames(menus[k].items))
  {
    if menus == [] then [] else [(menus[0].category, ItemNames(menus[0].items))] + Outline(menus[1..])
  }

  /** Item descriptions and prices never reach the `menus` text. */
  lemma MenusTextIgnoresDetails(ms1: seq<Menu>, ms2: seq<Menu>)
    requires Outline(ms1) == Outline(ms2)
    ensures MenusText(ms1) == MenusText(ms2)
  {
    assert |ms1| == |ms2|;
    forall k | 0 <= k < |ms1| ensures MenuLine(ms1[k]) == MenuLine(ms2[k]) {
      assert Outline(ms1)[k] == Outline(ms2)[k];
    }
    assert MenuLines(ms1) == MenuLines(ms2);
  }

  /**
   * The record depends on nothing but id, name, description, rating, the menu
   * outline and the review comments: logo, phone, service area, review count,
   * gallery and the authors, ratings and dates of reviews are left out.
   */
  lemma ToInfoDependsOnlyOnSummary(c1: Caterer, c2: Caterer)
    requires c1.id == c2.id && c1.name == c2.name && c1.description == c2.description
    requires c1.rating == c2.rating && Outline(c1.menus) == Outline(c2.menus)
    requires Comments(c1.reviews) == Comments(c2.reviews)
    ensures ToInfo(c1) == ToInfo(c2)
  {
    MenusTextIgnoresDetails(c1.menus, c2.menus);
  }

  lemma JoinPair(a: string, b: string, sep: string)
    ensures Join([a, b], sep) == a + sep + b
  {
    assert [a, b][1..] == [b];
  }

  /** The `menus` text of the second fixture caterer. */
  lemma FeastCreatorsMenusText(art: Artwork)
    ensures MenusText(FeastCreators(art).menus) ==
      "BBQ Packages" + ": " + "Classic BBQ" + ", " + "Vegetarian BBQ" + "; " +
      "Fusion Tacos" + ": " + "Korean Beef Tacos" + ", " + "Baja Fish Tacos"
  {
    var ms := FeastCreators(art).menus;
    FeastCreatorsFields(art);
    assert ms == [ms[0], ms[1]];
    assert ItemNames(ms[0].items) == ["Classic BBQ", "Vegetarian BBQ"];
    assert ItemNames(ms[1].items) == ["Korean Beef Tacos", "Baja Fish Tacos"];
    var l0 := "BBQ Packages" + ": " + "Classic BBQ" + ", " + "Vegetarian BBQ";
    var l1 := "Fusion Tacos" + ": " + "Korean Beef Tacos" + ", " + "Baja Fish Tacos";
    JoinPair("Classic BBQ", "Vegetarian BBQ", ItemSeparator);
    JoinPair("Korean Beef Tacos", "Baja Fish Tacos", ItemSeparator);
    assert MenuLine(ms[0]) == l0;
    assert MenuLine(ms[1]) == l1;
    assert MenuLines(ms) == [l0, l1];
    JoinPair(l0, l1, MenuSeparator);
  }
}
