/**
 * The catalog records of the directory (Review, MenuItem, Menu, Caterer),
 * the image lookup with its fallback, and the compiled-in fixture of three
 * caterers. The placeholder image list lives in a file that is not part of
 * this model, so it is a parameter of the lookup and of the fixture.
 */
module CatalogData {
  import opened Wrappers
  import Strings

  /** An image reference as stored on a caterer (logo, gallery entry). */
  datatype ImageRef = ImageRef(imageUrl: string, imageHint: string)

  /** One entry of the placeholder image list that `findImage` searches. */
  datatype PlaceholderImage = PlaceholderImage(id: string, imageUrl: string, imageHint: string)

  /** A review; ratings are exact rationals so that 2.5 or 4.8 can be written down. */
  datatype Review = Review(id: int, author: string, rating: real, comment: string, date: string)

  datatype MenuItem = MenuItem(name: string, description: string, price: Option<string>)

  datatype Menu = Menu(category: string, items: seq<MenuItem>)

  datatype Caterer = Caterer(
    id: string,
    name: string,
    logo: ImageRef,
    phone: string,
    serviceArea: string,
    rating: real,
    reviewsCount: int,
    description: string,
    gallery: seq<ImageRef>,
    menus: seq<Menu>,
    reviews: seq<Review>)

  const FallbackImage := ImageRef("https://picsum.photos/seed/error/200/200", "placeholder")

  /** `k` is the index of the first placeholder whose id is `id`. */
  predicate IsFirstMatch(images: seq<PlaceholderImage>, id: string, k: nat)
  {
    k < |images| && images[k].id == id &&
    forall j :: 0 <= j < k ==> images[j].id != id
  }

  /** `Array.prototype.find` on the placeholder list, as the index of the element found. */
  function FindPlaceholder(images: seq<PlaceholderImage>, id: string): (r: Option<nat>)
    ensures r.Some? ==> IsFirstMatch(images, id, r.value)
    ensures r.None? ==> forall j :: 0 <= j < |images| ==> images[j].id != id
  {
    if images == [] then None
    else if images[0].id == id then Some(0)
    else
      match FindPlaceholder(images[1..], id)
      case None => None
      case Some(k) => Some(k + 1)
  }

  /** `findImage`: the url and hint of the first placeholder with this id, or the fallback. */
  function FindImage(images: seq<PlaceholderImage>, id: string): (r: ImageRef)
    ensures forall k: nat :: IsFirstMatch(images, id, k) ==>
      r == ImageRef(images[k].imageUrl, images[k].imageHint)
    ensures (forall j :: 0 <= j < |images| ==> images[j].id != id) ==> r == FallbackImage
  {
    match FindPlaceholder(images, id)
    case None => FallbackImage
    case Some(k) => ImageRef(images[k].imageUrl, images[k].imageHint)
  }

  /** Only one index can be the first match. */
  lemma FirstMatchUnique(images: seq<PlaceholderImage>, id: string, k: nat, k': nat)
    requires IsFirstMatch(images, id, k) && IsFirstMatch(images, id, k')
    ensures k == k'
  {
  }

  /** Placeholders appended after the first match, whatever their ids, do not change the lookup. */
  lemma FindImageShadowsLaterDuplicates(images: seq<PlaceholderImage>, id: string, k: nat, later: seq<PlaceholderImage>)
    requires IsFirstMatch(images, id, k)
    ensures FindImage(images + later, id) == ImageRef(images[k].imageUrl, images[k].imageHint)
  {
    assert IsFirstMatch(images + later, id, k);
  }

  /** An item without a price, as every fixture item is. */
  function Item(name: string, description: string): MenuItem
  {
    MenuItem(name, description, None)
  }

  /** The logo and gallery images of one caterer. */
  datatype Artwork = Artwork(logo: ImageRef, gallery: seq<ImageRef>)

  /** The images of one caterer as the fixture looks them up by id. */
  function ArtworkFor(images: seq<PlaceholderImage>, logoId: string, galleryIds: seq<string>): Artwork
  {
    Artwork(FindImage(images, logoId), seq(|galleryIds|, k requires 0 <= k < |galleryIds| => FindImage(images, galleryIds[k])))
  }

  /**
   * The `caterers` fixture. Its images are looked up in `images`; everything
   * else is fixed, so the lemmas below are stated for `Catalog` with any
   * artwork and hold whatever the placeholder list contains.
   */
  function Fixture(images: seq<PlaceholderImage>): seq<Caterer>
  {
    Catalog(
      ArtworkFor(images, "logo1", ["gallery1-1", "gallery1-2", "gallery1-3"]),
      ArtworkFor(images, "logo2", ["gallery2-1", "gallery2-2", "gallery2-3"]),
      ArtworkFor(images, "logo3", ["gallery3-1", "gallery3-2", "gallery3-3"]))
  }

  /** A caterer's artwork for a logo id and three gallery ids. */
  lemma ArtworkForThree(images: seq<PlaceholderImage>, logoId: string, g1: string, g2: string, g3: string)
    ensures ArtworkFor(images, logoId, [g1, g2, g3])
         == Artwork(FindImage(images, logoId), [FindImage(images, g1), FindImage(images, g2), FindImage(images, g3)])
  {
  }

  /** The image ids each fixture entry looks up for its logo and its gallery, in order. */
  lemma FixtureArtwork(images: seq<PlaceholderImage>)
    ensures |Fixture(images)| == 3
    ensures Fixture(images)[0].logo == FindImage(images, "logo1")
    ensures Fixture(images)[0].gallery
         == [FindImage(images, "gallery1-1"), FindImage(images, "gallery1-2"), FindImage(images, "gallery1-3")]
    ensures Fixture(images)[1].logo == FindImage(images, "logo2")
    ensures Fixture(images)[1].gallery
         == [FindImage(images, "gallery2-1"), FindImage(images, "gallery2-2"), FindImage(images, "gallery2-3")]
    ensures Fixture(images)[2].logo == FindImage(images, "logo3")
    ensures Fixture(images)[2].gallery
         == [FindImage(images, "gallery3-1"), FindImage(images, "gallery3-2"), FindImage(images, "gallery3-3")]
  {
    ArtworkForThree(images, "logo1", "gallery1-1", "gallery1-2", "gallery1-3");
    ArtworkForThree(images, "logo2", "gallery2-1", "gallery2-2", "gallery2-3");
    ArtworkForThree(images, "logo3", "gallery3-1", "gallery3-2", "gallery3-3");
    var a1 := ArtworkFor(images, "logo1", ["gallery1-1", "gallery1-2", "gallery1-3"]);
    var a2 := ArtworkFor(images, "logo2", ["gallery2-1", "gallery2-2", "gallery2-3"]);
    var a3 := ArtworkFor(images, "logo3", ["gallery3-1", "gallery3-2", "gallery3-3"]);
    assert Fixture(images) == [GourmetDelights(a1), FeastCreators(a2), SimplyServed(a3)];
    assert GourmetDelights(a1).logo == a1.logo && GourmetDelights(a1).gallery == a1.gallery;
    assert FeastCreators(a2).logo == a2.logo && FeastCreators(a2).gallery == a2.gallery;
    assert SimplyServed(a3).logo == a3.logo && SimplyServed(a3).gallery == a3.gallery;
  }

  /** The fixture with its images already resolved. */
  function Catalog(art1: Artwork, art2: Artwork, art3: Artwork): seq<Caterer>
  {
    [GourmetDelights(art1), FeastCreators(art2), SimplyServed(art3)]
  }

  // The fixture's longer texts, named so that the entries below stay readable.
  const GourmetDelightsArea := "Metropolis, Gotham City"
  const GourmetDelightsDescription := "Gourmet Delights offers a premium catering experience with a focus on French and Italian cuisine. Our award-winning chefs use only the freshest locally-sourced ingredients to create unforgettable culinary masterpieces for weddings, corporate events, and private parties."
  const BruschettaName := "Bruschetta al Pomodoro"
  const BruschettaDescription := "Grilled bread with tomatoes, garlic, and basil."
  const EscargotsName := "Escargots de Bourgogne"
  const EscargotsDescription := "Snails baked in garlic-parsley butter."
  const FiletMignonDescription := "Served with a red wine reduction sauce, potato gratin, and asparagus."
  const LobsterDescription := "A creamy mixture of cooked lobster meat, egg yolks, and brandy."
  const AliceComment := "Absolutely amazing! The food was the highlight of our wedding. The Italian dishes were particularly authentic."
  const BobComment := "Great service and beautiful presentation. Some dishes were a bit too rich for my taste."
  const FeastCreatorsArea := "Star City, Central City"
  const FeastCreatorsDescription := "From casual backyard BBQs to elegant buffets, Feast Creators brings the party to you. We specialize in American comfort food and fusion cuisine, always with a creative twist. Our goal is to make your event delicious and stress-free."
  const ClassicBbqDescription := "Pulled pork, brisket, ribs, and three sides."
  const VegetarianBbqDescription := "Grilled veggie skewers, black bean burgers, and vegan sides."
  const KoreanTacosDescription := "With kimchi slaw and gochujang aioli."
  const FishTacosDescription := "Crispy cod with cabbage and chipotle cream."
  const CharlieComment := "The Korean beef tacos were a massive hit at our company picnic! Highly recommend."
  const DianaComment := "Good food and friendly staff. The setup took a little longer than expected, but everything worked out."
  const SimplyServedDescription := "Simply Served provides elegant, minimalist, and healthy catering options. We focus on modern, farm-to-table menus with plenty of vegetarian, vegan, and gluten-free choices. Perfect for health-conscious gatherings and corporate wellness events."
  const QuinoaBowlName := "Quinoa & Roasted Veggie Bowl"
  const QuinoaBowlDescription := "With a lemon-tahini dressing."
  const CaesarName := "Grilled Chicken Caesar"
  const CaesarDescription := "A classic salad made with fresh, organic ingredients."
  const SalmonDescription := "Served with wild rice and steamed green beans."
  const PeppersDescription := "Vegan and gluten-free, filled with lentils and vegetables."
  const EveComment := "So refreshing to have healthy and delicious options! Everyone loved the food at our yoga retreat."
  const FrankComment := "Impeccable service and the food was art on a plate. The salmon was cooked perfectly."

  /** The first fixture entry. */
  function GourmetDelights(art: Artwork): Caterer
  {
    Caterer(
      "gourmet-delights",
      "Gourmet Delights",
      art.logo,
      "555-0101",
      GourmetDelightsArea,
      4.8,
      124,
      GourmetDelightsDescription,
      art.gallery,
      [
        Menu("Appetizers", [
          Item(BruschettaName, BruschettaDescription),
          Item(EscargotsName, EscargotsDescription)]),
        Menu("Main Courses", [
          Item("Filet Mignon", FiletMignonDescription),
          Item("Lobster Thermidor", LobsterDescription)])
      ],
      [
        Review(1, "Alice Johnson", 5.0, AliceComment, "2023-10-15"),
        Review(2, "Bob Williams", 4.0, BobComment, "2023-09-20")
      ])
  }

  /** The second fixture entry. */
  function FeastCreators(art: Artwork): Caterer
  {
    Caterer(
      "feast-creators",
      "Feast Creators",
      art.logo,
      "555-0102",
      FeastCreatorsArea,
      4.5,
      88,
      FeastCreatorsDescription,
      art.gallery,
      [
        Menu("BBQ Packages", [
          Item("Classic BBQ", ClassicBbqDescription),
          Item("Vegetarian BBQ", VegetarianBbqDescription)]),
        Menu("Fusion Tacos", [
          Item("Korean Beef Tacos", KoreanTacosDescription),
          Item("Baja Fish Tacos", FishTacosDescription)])
      ],
      [
        Review(1, "Charlie Brown", 5.0, CharlieComment, "2023-11-02"),
        Review(2, "Diana Prince", 4.0, DianaComment, "2023-08-12")
      ])
  }

  /** The third fixture entry. */
  function SimplyServed(art: Artwork): Caterer
  {
    Caterer(
      "simply-served",
      "Simply Served",
      art.logo,
      "555-0103",
      "All boroughs",
      4.9,
      212,
      SimplyServedDescription,
      art.gallery,
      [
        Menu("Salad Bowls", [
          Item(QuinoaBowlName, QuinoaBowlDescription),
          Item(CaesarName, CaesarDescription)]),
        Menu("Main Plates", [
          Item("Pan-Seared Salmon", SalmonDescription),
          Item("Stuffed Bell Peppers", PeppersDescription)])
      ],
      [
        Review(1, "Eve Adams", 5.0, EveComment, "2023-12-01"),
        Review(2, "Frank Miller", 5.0, FrankComment, "2023-11-18")
      ])
  }

  /** A rating is a whole number of stars from 1 to 5. */
  predicate IsStarCount(rating: real)
  {
    rating == rating.Floor as real && 1.0 <= rating <= 5.0
  }

  /** Review ids are pairwise distinct within one list. */
  predicate DistinctReviewIds(reviews: seq<Review>)
  {
    forall i, j :: 0 <= i < j < |reviews| ==> reviews[i].id != reviews[j].id
  }

  /** Some menu category of `c` includes `term`. */
  predicate HasCategoryContaining(c: Caterer, term: string)
  {
    exists k :: 0 <= k < |c.menus| && Strings.Contains(c.menus[k].category, term)
  }

  /** The field values of `GourmetDelights` that the fixture lemmas below rely on. */
  lemma GourmetDelightsFields(art: Artwork)
    ensures var c := GourmetDelights(art);
      && c.id == "gourmet-delights" && c.rating == 4.8 && c.reviewsCount == 124
      && |c.reviews| == 2 && c.reviews[0].id == 1 && c.reviews[1].id == 2
      && c.reviews[0].rating == 5.0 && c.reviews[1].rating == 4.0
      && |c.menus| == 2 && c.menus[0].category == "Appetizers" && c.menus[1].category == "Main Courses"
  {
  }

  /** The field values of `FeastCreators` that the fixture lemmas below rely on. */
  lemma FeastCreatorsFields(art: Artwork)
    ensures var c := FeastCreators(art);
      && c.id == "feast-creators" && c.rating == 4.5 && c.reviewsCount == 88
      && |c.reviews| == 2 && c.reviews[0].id == 1 && c.reviews[1].id == 2
      && c.reviews[0].rating == 5.0 && c.reviews[1].rating == 4.0
      && |c.menus| == 2 && c.menus[0].category == "BBQ Packages" && c.menus[1].category == "Fusion Tacos"
  {
  }

  /** The field values of `SimplyServed` that the fixture lemmas below rely on. */
  lemma SimplyServedFields(art: Artwork)
    ensures var c := SimplyServed(art);
      && c.id == "simply-served" && c.rating == 4.9 && c.reviewsCount == 212
      && |c.reviews| == 2 && c.reviews[0].id == 1 && c.reviews[1].id == 2
      && c.reviews[0].rating == 5.0 && c.reviews[1].rating == 5.0
      && |c.menus| == 2 && c.menus[0].category == "Salad Bowls" && c.menus[1].category == "Main Plates"
  {
  }

  lemma FixtureIdsDistinct(art1: Artwork, art2: Artwork, art3: Artwork)
    ensures |Catalog(art1, art2, art3)| == 3
    ensures Catalog(art1, art2, art3)[0].id == "gourmet-delights"
    ensures Catalog(art1, art2, art3)[1].id == "feast-creators"
    ensures Catalog(art1, art2, art3)[2].id == "simply-served"
    ensures forall i, j :: 0 <= i < j < |Catalog(art1, art2, art3)| ==> Catalog(art1, art2, art3)[i].id != Catalog(art1, art2, art3)[j].id
  {
    GourmetDelightsFields(art1);
    FeastCreatorsFields(art2);
    SimplyServedFields(art3);
  }

  lemma FixtureRatingsInRange(art1: Artwork, art2: Artwork, art3: Artwork)
    ensures forall i :: 0 <= i < |Catalog(art1, art2, art3)| ==> 0.0 <= Catalog(art1, art2, art3)[i].rating <= 5.0
    ensures forall i, r :: 0 <= i < |Catalog(art1, art2, art3)| && r in Catalog(art1, art2, art3)[i].reviews ==> IsStarCount(r.rating)
  {
    GourmetDelightsFields(art1);
    FeastCreatorsFields(art2);
    SimplyServedFields(art3);
  }

  /** `reviewsCount` is display metadata: it disagrees with the number of listed reviews. */
  lemma FixtureReviewsCountNotReconciled(art1: Artwork, art2: Artwork, art3: Artwork)
    ensures forall i :: 0 <= i < |Catalog(art1, art2, art3)| ==>
      Catalog(art1, art2, art3)[i].reviewsCount != |Catalog(art1, art2, art3)[i].reviews|
    ensures Catalog(art1, art2, art3)[0].reviewsCount == 124 && |Catalog(art1, art2, art3)[0].reviews| == 2
  {
    GourmetDelightsFields(art1);
    FeastCreatorsFields(art2);
    SimplyServedFields(art3);
  }

  /** Review ids are unique per caterer, yet the same ids recur in every caterer. */
  lemma FixtureReviewIdsLocal(art1: Artwork, art2: Artwork, art3: Artwork)
    ensures forall i :: 0 <= i < |Catalog(art1, art2, art3)| ==> DistinctReviewIds(Catalog(art1, art2, art3)[i].reviews)
    ensures forall i :: 0 <= i < |Catalog(art1, art2, art3)| ==>
      var rs := Catalog(art1, art2, art3)[i].reviews; |rs| == 2 && rs[0].id == 1 && rs[1].id == 2
  {
    GourmetDelightsFields(art1);
    FeastCreatorsFields(art2);
    SimplyServedFields(art3);
  }

  /** Exactly one caterer, Feast Creators, has a "BBQ" menu category. */
  lemma FixtureSingleBbqCategory(art1: Artwork, art2: Artwork, art3: Artwork)
    ensures forall i :: 0 <= i < |Catalog(art1, art2, art3)| ==>
      (HasCategoryContaining(Catalog(art1, art2, art3)[i], "BBQ") <==> i == 1)
  {
    BbqCategories(art1, art2, art3);
    var cs := Catalog(art1, art2, art3);
    forall i | 0 <= i < |cs| ensures HasCategoryContaining(cs[i], "BBQ") <==> i == 1 {
      assert cs[i] == [GourmetDelights(art1), FeastCreators(art2), SimplyServed(art3)][i];
    }
  }

  lemma BbqCategories(art1: Artwork, art2: Artwork, art3: Artwork)
    ensures !HasCategoryContaining(GourmetDelights(art1), "BBQ")
    ensures HasCategoryContaining(FeastCreators(art2), "BBQ")
    ensures !HasCategoryContaining(SimplyServed(art3), "BBQ")
  {
    BbqCategoryNames();
    var a, b, c := GourmetDelights(art1), FeastCreators(art2), SimplyServed(art3);
    GourmetDelightsFields(art1);
    FeastCreatorsFields(art2);
    SimplyServedFields(art3);
    assert Strings.Contains(b.menus[0].category, "BBQ");
    NoCategoryContaining(a, "BBQ");
    NoCategoryContaining(c, "BBQ");
  }

  lemma NoCategoryContaining(c: Caterer, term: string)
    requires |c.menus| == 2
    requires !Strings.Contains(c.menus[0].category, term) && !Strings.Contains(c.menus[1].category, term)
    ensures !HasCategoryContaining(c, term)
  {
  }

  /** Which fixture category names include "BBQ". */
  lemma BbqCategoryNames()
    ensures Strings.Contains("BBQ Packages", "BBQ")
    ensures !Strings.Contains("Appetizers", "BBQ") && !Strings.Contains("Main Courses", "BBQ")
    ensures !Strings.Contains("Fusion Tacos", "BBQ")
    ensures !Strings.Contains("Salad Bowls", "BBQ") && !Strings.Contains("Main Plates", "BBQ")
  {
  }
}
