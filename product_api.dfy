/**
 * The sellers' product API: the per-seller SKU check, the catalogue a seller
 * sees, creating a product for the signed-in seller, and the soft delete.
 */
module ProductApi {
  import opened Wrappers
  import opened Products
  import opened Database

  /** Why a product request is refused. */
  datatype ApiError =
    | NoProfile    // the signed-in user has no seller profile
    | NotFound     // not one of the seller's live products
    | SkuExists    // another product of the seller has this SKU

  /**
   * `validate_sku`: on create (`instance` None) a SKU any product of the
   * seller already has is refused; on update the product being edited is
   * excluded. Soft-deleted products count, and a NULL SKU is looked up like
   * any other value. An accepted SKU comes back unchanged.
   */
  function ValidateSku(products: map<nat, Product>, seller: nat, instance: Option<nat>, value: Option<string>): (r: Result<Option<string>, ApiError>)
    ensures r.Err? <==> exists k :: k in products && Some(k) != instance && products[k].seller == seller && products[k].sku == value
    ensures r.Ok? ==> r.value == value
    ensures r.Err? ==> r.error == SkuExists
  {
    if SkuTaken(products, seller, value, instance) then Err(SkuExists) else Ok(value)
  }

  /** On update, keeping the product's own SKU passes. */
  lemma OwnSkuPasses(products: map<nat, Product>, id: nat)
    requires SkusUnique(products) && id in products && products[id].sku.Some?
    ensures ValidateSku(products, products[id].seller, Some(id), products[id].sku).Ok?
  {
    forall k | k in products && k != id && products[k].seller == products[id].seller
      ensures products[k].sku != products[id].sku
    {
    }
  }

  /** The products of other sellers never decide the check. */
  lemma OtherSellersIgnored(products: map<nat, Product>, seller: nat, instance: Option<nat>, value: Option<string>, k: nat, p: Product)
    requires p.seller != seller && (k in products ==> products[k].seller != seller)
    ensures ValidateSku(products[k := p], seller, instance, value) == ValidateSku(products, seller, instance, value)
  {
    if SkuTaken(products[k := p], seller, value, instance) {
      var j :| j in products[k := p] && Some(j) != instance && products[k := p][j].seller == seller && products[k := p][j].sku == value;
      assert j != k && j in products;
    }
  }

  /** A soft-deleted product still holds its SKU against the seller's other products. */
  lemma InactiveStillBlocks(products: map<nat, Product>, k: nat, instance: Option<nat>)
    requires k in products && !products[k].isActive && instance != Some(k)
    ensures ValidateSku(products, products[k].seller, instance, products[k].sku) == Err(SkuExists)
  {
  }

  /**
   * A product with a NULL SKU refuses another NULL SKU of the same seller,
   * although the unique constraint admits any number of NULLs.
   */
  lemma NullSkuStricterThanConstraint(products: map<nat, Product>, k: nat, id: nat, p: Product)
    requires SkusUnique(products) && k in products && products[k].sku.None? && id !in products
    requires p.seller == products[k].seller && p.sku.None?
    ensures ValidateSku(products, p.seller, None, None) == Err(SkuExists)
    ensures SkusUnique(products[id := p])
  {
  }

  /** Storing a product whose SKU the check accepted keeps the seller's SKUs distinct, on create and on update. */
  lemma AcceptedSkuKeepsUnique(products: map<nat, Product>, instance: Option<nat>, id: nat, p: Product)
    requires SkusUnique(products)
    requires instance.None? ==> id !in products
    requires instance.Some? ==> instance == Some(id) && id in products
    requires ValidateSku(products, p.seller, instance, p.sku).Ok?
    ensures SkusUnique(products[id := p])
  {
    if instance.None? {
      AddKeepsSkusUnique(products, id, p);
    } else {
      UpdateKeepsSkusUnique(products, id, p);
    }
  }

  /** The products a seller may list, retrieve and delete: its own live ones. */
  predicate Visible(d: Db, seller: nat, id: nat) {
    id in d.products && d.products[id].seller == seller && d.products[id].isActive
  }

  /** `get_queryset`: the catalogue a seller lists is exactly its visible products, newest first. */
  lemma QuerysetIsVisible(d: Db, seller: nat)
    requires Consistent(d)
    ensures forall k :: k in ActiveProducts(d, seller) <==> Visible(d, seller, k)
    ensures var r := ActiveProducts(d, seller); forall i, j :: 0 <= i < j < |r| ==> r[i] > r[j]
  {
  }

  /**
   * `perform_create` after validation: the product is stored under the next
   * id for the signed-in user's seller profile, whatever seller the client
   * named; a user without a profile, or a sent SKU the check refuses (a
   * null one included), stores nothing. An omitted SKU is never checked.
   */
  function Created(d: Db, user: nat, f: ProductFields): Result<Db, ApiError> {
    if user !in d.profiles then Err(NoProfile)
    else if f.sku.Some? && ValidateSku(d.products, user, None, f.sku.value).Err? then Err(SkuExists)
    else Ok(d.(products := d.products[d.nextProductId := FromFields(user, f)], nextProductId := d.nextProductId + 1))
  }

  /** A created product belongs to the signed-in seller, and with the default flag shows in its catalogue. */
  lemma CreatedOutcome(d: Db, user: nat, f: ProductFields)
    requires Consistent(d)
    ensures Created(d, user, f).Ok? <==> user in d.profiles && (f.sku.Some? ==> !SkuTaken(d.products, user, f.sku.value, None))
    ensures Created(d, user, f).Ok? ==>
              var e := Created(d, user, f).value;
              && e.products[d.nextProductId].seller == user
              && (f.isActive != Some(false) ==> Visible(e, user, d.nextProductId))
              && Consistent(e)
  {
    if Created(d, user, f).Ok? {
      var e := Created(d, user, f).value;
      assert d.nextProductId !in d.products;
      AddKeepsSkusUnique(d.products, d.nextProductId, FromFields(user, f));
      forall k | k in e.orders ensures OrderConsistent(e, e.orders[k]) {
        assert OrderConsistent(d, d.orders[k]);
      }
    }
  }

  /**
   * A SKU sent as null is looked up as NULL: the create is refused when the
   * seller already has a product without a SKU, although the same product
   * with the SKU omitted is stored.
   */
  lemma NullSkuCreateRefused(d: Db, user: nat, f: ProductFields, k: nat)
    requires Consistent(d) && user in d.profiles
    requires k in d.products && d.products[k].seller == user && d.products[k].sku.None?
    requires f.sku == Some(None)
    ensures Created(d, user, f) == Err(SkuExists)
    ensures Created(d, user, f.(sku := None)).Ok?
    ensures FromFields(user, f) == FromFields(user, f.(sku := None))
  {
    assert SkuTaken(d.products, user, None, None);
  }

  /** `perform_create` in place; returns the new product's id. */
  method CreateProduct(db: Store, user: nat, f: ProductFields) returns (r: Result<nat, ApiError>)
    requires db.Valid()
    modifies db
    ensures Created(old(db.Rows()), user, f).Ok? ==> r == Ok(old(db.nextProductId)) && db.Rows() == Created(old(db.Rows()), user, f).value
    ensures Created(old(db.Rows()), user, f).Err? ==> r == Err(Created(old(db.Rows()), user, f).error) && db.Rows() == old(db.Rows())
    ensures db.outbox == old(db.outbox)
    ensures db.Valid()
  {
    CreatedOutcome(db.Rows(), user, f);
    if user !in db.profiles {
      return Err(NoProfile);
    }
    if f.sku.Some? {
      var checked := ValidateSku(db.products, user, None, f.sku.value);
      if checked.Err? {
        return Err(checked.error);
      }
    }
    var id := db.nextProductId;
    db.products := db.products[id := FromFields(user, f)];
    db.nextProductId := id + 1;
    r := Ok(id);
  }

  /**
   * `destroy`: the product is looked up among the seller's live products
   * (otherwise 404) and then only flagged inactive; the row stays.
   */
  function SoftDeleted(d: Db, user: nat, id: nat): Result<Db, ApiError> {
    if user !in d.profiles then Err(NoProfile)
    else if !Visible(d, user, id) then Err(NotFound)
    else Ok(d.(products := d.products[id := d.products[id].(isActive := false)]))
  }

  /** After a soft delete the row is kept with every field but the flag, and it drops out of exactly the seller's catalogue. */
  lemma SoftDeleteOutcome(d: Db, user: nat, id: nat)
    requires Consistent(d)
    ensures SoftDeleted(d, user, id).Ok? <==> user in d.profiles && Visible(d, user, id)
    ensures SoftDeleted(d, user, id).Ok? ==>
              var e := SoftDeleted(d, user, id).value;
              && id in e.products && e.products[id] == d.products[id].(isActive := false)
              && (forall k :: Visible(e, user, k) <==> Visible(d, user, k) && k != id)
              && e.orders == d.orders
              && Consistent(e)
  {
    if SoftDeleted(d, user, id).Ok? {
      SetProductConsistent(d, id, d.products[id].(isActive := false));
    }
  }

  /** Deleting twice: the second request finds nothing. */
  lemma SoftDeleteTwiceNotFound(d: Db, user: nat, id: nat)
    requires SoftDeleted(d, user, id).Ok?
    ensures SoftDeleted(SoftDeleted(d, user, id).value, user, id) == Err(NotFound)
  {
  }

  /** `perform_destroy` in place: looks the product up, clears its flag and saves it. */
  method DestroyProduct(db: Store, user: nat, id: nat) returns (r: Result<(), ApiError>)
    requires db.Valid()
    modifies db
    ensures SoftDeleted(old(db.Rows()), user, id).Ok? ==> r.Ok? && db.Rows() == SoftDeleted(old(db.Rows()), user, id).value
    ensures SoftDeleted(old(db.Rows()), user, id).Err? ==> r == Err(SoftDeleted(old(db.Rows()), user, id).error) && db.Rows() == old(db.Rows())
    ensures db.outbox == old(db.outbox)
    ensures db.Valid()
  {
    SoftDeleteOutcome(db.Rows(), user, id);
    if user !in db.profiles {
      return Err(NoProfile);
    }
    if !(id in db.products && db.products[id].seller == user && db.products[id].isActive) {
      return Err(NotFound);
    }
    var p := db.products[id];
    db.products := db.products[id := p.(isActive := false)];
    r := Ok(());
  }
}
