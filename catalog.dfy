/** The part of the catalog the cart depends on. */
module Catalog {

  /**
   * A product as the cart sees it: its primary key and its price.  The price
   * column is a decimal with two places, held here exactly as a number of cents.
   */
  datatype Product = Product(id: nat, price: int)

  /** A catalog lookup keyed by product id: the rows `Product.objects.filter(id__in=...)` can return. */
  predicate CatalogKeyed(catalog: map<nat, Product>) {
    forall id :: id in catalog ==> catalog[id].id == id
  }
}
