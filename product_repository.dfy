/**
 * The product repository the resolver depends on, as a map from id to the stored
 * product. `getById` rehydrates a fresh entity from the stored value; `save` stores
 * the entity's current state under its id; `delete` removes an id.
 */
module ProductRepositories {
  import opened Wrappers
  import opened Lifecycle
  import opened ProductEntities

  class ProductRepository {
    /** The stored products, by id. */
    var items: map<string, ProductRecord>
    /** The data fields the repository gives a product it creates. */
    const blank: ProductData

    /** Every product is stored under its own, non-empty, id. */
    ghost predicate Valid()
      reads this
    {
      forall id :: id in items ==> id != "" && items[id].id == id
    }

    constructor (blank: ProductData)
      ensures Valid() && items == map[] && this.blank == blank
    {
      items := map[];
      this.blank := blank;
    }

    /** `create()`: a new entity with generated id and timestamps, not yet stored. */
    method Create(freshId: string, now: Timestamp) returns (product: ProductEntity)
      requires freshId != ""
      ensures fresh(product) && product.Valid()
      ensures product.Snapshot() == Created(ProductParams(blank, None, None, None), freshId, now)
    {
      product := new ProductEntity(ProductParams(blank, None, None, None), freshId, now);
    }

    /** `getById(id)`: `null` when nothing is stored under `id`, otherwise a new entity holding
        the stored product. */
    method GetById(id: string) returns (product: ProductEntity?)
      requires Valid()
      ensures product != null <==> id in items
      ensures product != null ==> fresh(product) && product.Valid() && product.Snapshot() == items[id]
    {
      if id in items {
        var stored := items[id];
        // every identity field is supplied, so the generator and the clock go unused
        RehydrateRoundTrip(stored, id, stored.updatedAt);
        product := new ProductEntity(AsParams(stored), id, stored.updatedAt);
      } else {
        product := null;
      }
    }

    /** `save(product)`: stores the entity's current state under its id. */
    method Save(product: ProductEntity)
      requires Valid() && product.Valid()
      modifies this`items
      ensures Valid()
      ensures items == old(items)[product.id := product.Snapshot()]
    {
      items := items[product.id := product.Snapshot()];
    }

    /** `delete(id)`: removes whatever is stored under `id`. */
    method Delete(id: string)
      requires Valid()
      modifies this`items
      ensures Valid()
      ensures items == old(items) - {id}
    {
      items := items - {id};
    }
  }
}
