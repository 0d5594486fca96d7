/**
 * The home page's search: caterers whose name or service area contains the
 * search term, ignoring letter case, in catalog order, and the empty-result
 * message.
 */
module ListingSearch {
  import opened CatalogData
  import opened Strings

  /** The filter's predicate for one caterer. */
  predicate Matches(c: Caterer, term: string)
  {
    Contains(Lower(c.name), Lower(term)) || Contains(Lower(c.serviceArea), Lower(term))
  }

  /** `a` is `b` with some elements left out, the rest in their original order. */
  predicate IsSubsequence(a: seq<Caterer>, b: seq<Caterer>)
    decreases |b|
  {
    a == [] || (b != [] && ((a[0] == b[0] && IsSubsequence(a[1..], b[1..])) || IsSubsequence(a, b[1..])))
  }

  /** `caterers.filter(...)`. */
  function FilterCaterers(caterers: seq<Caterer>, term: string): (r: seq<Caterer>)
    ensures IsSubsequence(r, caterers)
    ensures forall c :: c in r <==> c in caterers && Matches(c, term)
    ensures forall c :: multiset(r)[c] == if Matches(c, term) then multiset(caterers)[c] else 0
  {
    if caterers == [] then []
    else
      var rest := FilterCaterers(caterers[1..], term);
      assert caterers == [caterers[0]] + caterers[1..];
      if Matches(caterers[0], term) then [caterers[0]] + rest else rest
  }

  /** An empty search box lists every caterer. */
  lemma {:induction false} EmptyTermKeepsAll(caterers: seq<Caterer>)
    ensures FilterCaterers(caterers, "") == caterers
  {
    if caterers != [] {
      ContainsEmpty(Lower(caterers[0].name));
      EmptyTermKeepsAll(caterers[1..]);
    }
  }

  /** Terms that lower-case alike select the same caterers. */
  lemma {:induction false} FilterIgnoresCase(caterers: seq<Caterer>, t1: string, t2: string)
    requires Lower(t1) == Lower(t2)
    ensures FilterCaterers(caterers, t1) == FilterCaterers(caterers, t2)
  {
    if caterers != [] {
      FilterIgnoresCase(caterers[1..], t1, t2);
    }
  }

  lemma LowerCaseTermSelectsTheSame(caterers: seq<Caterer>, term: string)
    ensures FilterCaterers(caterers, Lower(term)) == FilterCaterers(caterers, term)
  {
    LowerIdempotent(term);
    FilterIgnoresCase(caterers, Lower(term), term);
  }

  /** Filtering a result again with the same term changes nothing. */
  lemma {:induction false} FilterIdempotent(caterers: seq<Caterer>, term: string)
    ensures FilterCaterers(FilterCaterers(caterers, term), term) == FilterCaterers(caterers, term)
  {
    if caterers != [] {
      FilterIdempotent(caterers[1..], term);
    }
  }

  /** What the results area shows. */
  datatype ListingView = NoCaterersFound | Cards(caterers: seq<Caterer>)

  const NoResultsMessage := "No caterers found matching your criteria."

  /** The cards when something matches, otherwise the "No caterers found" message. */
  function Listing(caterers: seq<Caterer>, term: string): (v: ListingView)
    ensures v.NoCaterersFound? <==> forall c :: c in caterers ==> !Matches(c, term)
    ensures v.Cards? ==> v.caterers == FilterCaterers(caterers, term) && |v.caterers| > 0
  {
    var found := FilterCaterers(caterers, term);
    if |found| > 0 then Cards(found) else NoCaterersFound
  }
}
