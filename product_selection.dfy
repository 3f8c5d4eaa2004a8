/** The point-of-sale product search: a product stays in the list when its name, or its
    SKU, contains the search term, ignoring case. */
module ProductSelection {

  import opened Common
  import opened Text
  import opened Remote

  /** The test against the lower-cased term. An absent or empty SKU is falsy and is not
      searched. */
  function MatchesNeedle(needle: string): Product -> bool {
    (p: Product) => Contains(Lower(p.name), needle)
      || (p.sku.Some? && p.sku.value != "" && Contains(Lower(p.sku.value), needle))
  }

  /** `filteredProducts`. */
  function Filtered(products: seq<Product>, term: string): seq<Product> {
    Filter(products, MatchesNeedle(Lower(term)))
  }

  /** A product is kept exactly when its lower-cased name contains the lower-cased term,
      or it has a SKU whose lower-cased form does; the list keeps the loaded order. */
  lemma FilteredExactly(products: seq<Product>, term: string)
    ensures forall p :: p in Filtered(products, term) <==>
      p in products && (Contains(Lower(p.name), Lower(term))
        || (p.sku.Some? && p.sku.value != "" && Contains(Lower(p.sku.value), Lower(term))))
    ensures SubsequenceOf(Filtered(products, term), products)
  {
    FilterIsSubsequence(products, MatchesNeedle(Lower(term)));
    forall p | p in products && MatchesNeedle(Lower(term))(p)
      ensures p in Filtered(products, term)
    {
      var i :| 0 <= i < |products| && products[i] == p;
    }
  }

  /** An empty search keeps every product. */
  lemma EmptyTermKeepsAll(products: seq<Product>)
    ensures Filtered(products, "") == products
  {
    forall i | 0 <= i < |products|
      ensures MatchesNeedle(Lower(""))(products[i])
    {
      ContainsEmpty(Lower(products[i].name));
    }
    FilterAll(products, MatchesNeedle(Lower("")));
  }

  /** Upper- or lower-casing the term does not change the result. */
  lemma TermCaseIrrelevant(products: seq<Product>, term: string)
    ensures Filtered(products, Upper(term)) == Filtered(products, term)
    ensures Filtered(products, Lower(term)) == Filtered(products, term)
  {
    LowerForgetsCase(term);
  }

  /** A product without a SKU is found through its name only. */
  lemma NoSkuNameOnly(p: Product, term: string)
    requires p.sku.None?
    ensures MatchesNeedle(Lower(term))(p) <==> Contains(Lower(p.name), Lower(term))
  {
  }
}
