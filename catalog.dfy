/**
 * The product catalogue: one row per product, owned by a seller, with its
 * price held as integer cents (a decimal with two places).
 */
module Products {
  import opened Wrappers

  /**
   * A product row. `seller` is the owning seller profile (keyed by its user id);
   * `sku` is an optional stock-keeping code; `isActive` is false once the
   * product has been soft-deleted. Images are never read by the modelled code
   * and are not carried.
   */
  datatype Product = Product(
    seller: nat,
    name: string,
    description: Option<string>,
    sku: Option<string>,
    price: int,
    sizes: seq<string>,
    inventory: nat,
    isActive: bool)

  /**
   * The fields a client can send when creating a product; None means the
   * field was omitted. The SKU may also be sent as null (`Some(None)`).
   */
  datatype ProductFields = ProductFields(
    name: string,
    description: Option<string>,
    sku: Option<Option<string>>,
    price: int,
    sizes: Option<seq<string>>,
    inventory: Option<nat>,
    isActive: Option<bool>)

  /** The row a create writes: omitted fields take the column defaults (no sizes, no stock, active). */
  function FromFields(seller: nat, f: ProductFields): (p: Product)
    ensures p.seller == seller && p.name == f.name && p.price == f.price && p.sku == f.sku.GetOr(None)
    ensures p.sizes == f.sizes.GetOr([]) && p.inventory == f.inventory.GetOr(0)
    ensures p.isActive == f.isActive.GetOr(true)
  {
    Product(seller, f.name, f.description, f.sku.GetOr(None), f.price,
            f.sizes.GetOr([]), f.inventory.GetOr(0), f.isActive.GetOr(true))
  }

  /** A create that omits every optional field yields an active product with no sizes and no stock. */
  lemma CreateDefaults(seller: nat, name: string, price: int)
    ensures var p := FromFields(seller, ProductFields(name, None, None, price, None, None, None));
            p.isActive && p.sizes == [] && p.inventory == 0 && p.sku.None?
  {
  }

  /**
   * The `(seller, sku)` uniqueness constraint. SQL never finds two NULLs
   * equal, so only products that carry a SKU can clash.
   */
  predicate SkusUnique(products: map<nat, Product>) {
    forall a, b :: a in products && b in products && a != b
      && products[a].seller == products[b].seller && products[a].sku.Some?
      ==> products[a].sku != products[b].sku
  }

  /** Some product of `seller`, other than `except`, has exactly this SKU value (NULL matches NULL, as Django's `sku=None`). */
  predicate SkuTaken(products: map<nat, Product>, seller: nat, sku: Option<string>, except: Option<nat>) {
    exists k :: k in products && Some(k) != except && products[k].seller == seller && products[k].sku == sku
  }

  /** Adding a product whose SKU is not taken by its seller keeps the constraint. */
  lemma AddKeepsSkusUnique(products: map<nat, Product>, id: nat, p: Product)
    requires SkusUnique(products) && id !in products
    requires p.sku.Some? ==> !SkuTaken(products, p.seller, p.sku, None)
    ensures SkusUnique(products[id := p])
  {
  }

  /** Replacing a product by one whose SKU no other product of the seller has keeps the constraint. */
  lemma UpdateKeepsSkusUnique(products: map<nat, Product>, id: nat, p: Product)
    requires SkusUnique(products) && id in products
    requires p.sku.Some? ==> !SkuTaken(products, p.seller, p.sku, Some(id))
    ensures SkusUnique(products[id := p])
  {
  }
}
