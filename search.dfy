/**
 * The search screen's list: the products whose name contains the search
 * query, ignoring case, in the order the list state holds them.
 */
module Search {
  import opened Text
  import opened Seqs
  import opened Domain

  predicate Matches(p: Product, query: string) {
    ContainsIgnoreCase(p.name, query)
  }

  function SearchResults(products: seq<Product>, query: string): (r: seq<Product>)
    ensures |r| <= |products|
    ensures forall i :: 0 <= i < |r| ==> r[i] in products && Matches(r[i], query)
    ensures forall i :: 0 <= i < |products| && Matches(products[i], query) ==> products[i] in r
    ensures forall p :: multiset(r)[p] == if Matches(p, query) then multiset(products)[p] else 0
  {
    FilterMultiset(products, p => Matches(p, query));
    Filter(products, p => Matches(p, query))
  }

  /** The results keep the list's order: they are a subsequence of it. */
  lemma ResultsInListOrder(products: seq<Product>, query: string)
    ensures IsSubsequence(SearchResults(products, query), products)
  {
    FilterIsSubsequence(products, p => Matches(p, query));
  }

  /** An empty search field shows the whole list. */
  lemma EmptyQueryShowsAll(products: seq<Product>)
    ensures SearchResults(products, "") == products
  {
    forall i | 0 <= i < |products| ensures Matches(products[i], "") {
      ContainsEmpty(Lower(products[i].name));
    }
    FilterKeepsAll(products, p => Matches(p, ""));
  }

  /** Queries that differ only in letter case give the same results. */
  lemma QueryCaseIgnored(products: seq<Product>, q1: string, q2: string)
    requires Lower(q1) == Lower(q2)
    ensures SearchResults(products, q1) == SearchResults(products, q2)
  {
    FilterCongruent(products, p => Matches(p, q1), p => Matches(p, q2));
  }

  /** Typing more narrows the results: when the new query contains the old
      one (ignoring case) its results are a subsequence of the old ones. */
  lemma LongerQueryNarrows(products: seq<Product>, shorter: string, longer: string)
    requires Contains(Lower(longer), Lower(shorter))
    ensures IsSubsequence(SearchResults(products, longer), SearchResults(products, shorter))
  {
    forall i | 0 <= i < |products| && Matches(products[i], longer)
      ensures Matches(products[i], shorter)
    {
      ContainsTrans(Lower(products[i].name), Lower(longer), Lower(shorter));
    }
    FilterNarrow(products, p => Matches(p, shorter), p => Matches(p, longer));
  }

  /** Searching a list made of two parts searches each part. */
  lemma SearchAppend(a: seq<Product>, b: seq<Product>, query: string)
    ensures SearchResults(a + b, query) == SearchResults(a, query) + SearchResults(b, query)
  {
    FilterAppend(a, b, p => Matches(p, query));
  }
}
