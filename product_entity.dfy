/**
 * The product entity: built by a constructor that fills in a missing identity
 * and timestamps, and changed only through `update`, a field-level merge that
 * refreshes `updatedAt` and cannot reach `id` or `createdAt`.
 */
module ProductEntities {
  import opened Wrappers
  import opened Lifecycle

  /** The fields of a product other than its identity and timestamps. */
  datatype ProductData = ProductData(
    category: string,
    name: string,
    description: Option<string>,
    notes: Option<string>,
    unit: Option<string>,
    priceCents: Number,
    taxPercentage: Number)

  /** Everything observable about a product entity. */
  datatype ProductRecord = ProductRecord(id: string, data: ProductData, createdAt: Timestamp, updatedAt: Timestamp)

  /** The constructor's argument: every data field, and optionally the identity fields,
      which are supplied when a stored product is rehydrated. */
  datatype ProductParams = ProductParams(
    data: ProductData,
    id: Option<string>,
    createdAt: Option<Timestamp>,
    updatedAt: Option<Timestamp>)

  /**
   * The argument of `update`: one entry per key its parameter type admits, so no entry
   * for `id`, `createdAt` or `updatedAt`. `None` is an absent key. For a key whose
   * declared type admits `undefined` (an optional field) the entry is itself optional:
   * `Some(None)` is the key present with value `undefined`, which `Object.assign`
   * copies, so it clears the field.
   */
  datatype ProductUpdate = ProductUpdate(
    category: Option<string>,
    name: Option<string>,
    description: Option<Option<string>>,
    notes: Option<Option<string>>,
    unit: Option<Option<string>>,
    priceCents: Option<Number>,
    taxPercentage: Option<Number>)

  /** `update({})`. */
  const NoChanges := ProductUpdate(None, None, None, None, None, None, None)

  /** The product the constructor builds from `p`, given the generator's `freshId` and the clock's `now`. */
  function Created(p: ProductParams, freshId: string, now: Timestamp): (r: ProductRecord)
    requires freshId != ""
    ensures r.id != ""
    ensures IsTruthy(p.id) ==> r.id == p.id.value
    ensures !IsTruthy(p.id) ==> r.id == freshId
    ensures p.createdAt.Some? ==> r.createdAt == p.createdAt.value
    ensures p.createdAt.None? ==> r.createdAt == now
    ensures p.updatedAt.Some? ==> r.updatedAt == p.updatedAt.value
    ensures p.updatedAt.None? ==> r.updatedAt == now
    ensures r.data == p.data
  {
    ProductRecord(DefaultId(p.id, freshId), p.data, DefaultTimestamp(p.createdAt, now), DefaultTimestamp(p.updatedAt, now))
  }

  /** The constructor argument that rehydrates a stored product: every field supplied. */
  function AsParams(r: ProductRecord): ProductParams {
    ProductParams(r.data, Some(r.id), Some(r.createdAt), Some(r.updatedAt))
  }

  /** The data fields after `Object.assign(this, u)`. */
  function MergeData(d: ProductData, u: ProductUpdate): ProductData {
    ProductData(
      Assign(d.category, u.category),
      Assign(d.name, u.name),
      Assign(d.description, u.description),
      Assign(d.notes, u.notes),
      Assign(d.unit, u.unit),
      Assign(d.priceCents, u.priceCents),
      Assign(d.taxPercentage, u.taxPercentage))
  }

  /** The product after `update(u)` at time `now`. */
  function Merged(p: ProductRecord, u: ProductUpdate, now: Timestamp): (r: ProductRecord)
    ensures r.id == p.id && r.createdAt == p.createdAt
    ensures r.updatedAt == now
    ensures r.data == MergeData(p.data, u)
  {
    p.(data := MergeData(p.data, u), updatedAt := now)
  }

  /** The single update equivalent to `u1` followed by `u2`: the later one wins key by key. */
  function Combine(u1: ProductUpdate, u2: ProductUpdate): ProductUpdate {
    ProductUpdate(
      Later(u1.category, u2.category),
      Later(u1.name, u2.name),
      Later(u1.description, u2.description),
      Later(u1.notes, u2.notes),
      Later(u1.unit, u2.unit),
      Later(u1.priceCents, u2.priceCents),
      Later(u1.taxPercentage, u2.taxPercentage))
  }

  /** A brand-new product gets the generated id and both timestamps from the one clock reading. */
  lemma CreatedNew(data: ProductData, freshId: string, now: Timestamp)
    requires freshId != ""
    ensures var r := Created(ProductParams(data, None, None, None), freshId, now);
      r.id == freshId && r.createdAt == now && r.updatedAt == now && r.data == data
  {
  }

  /** Rehydrating a stored product through the constructor gives it back unchanged:
      neither the generator nor the clock is consulted. */
  lemma RehydrateRoundTrip(r: ProductRecord, freshId: string, now: Timestamp)
    requires r.id != "" && freshId != ""
    ensures Created(AsParams(r), freshId, now) == r
  {
  }

  /** `update({})` refreshes `updatedAt` and changes nothing else. */
  lemma MergeNothing(p: ProductRecord, now: Timestamp)
    ensures Merged(p, NoChanges, now) == p.(updatedAt := now)
  {
  }

  /** `update({name})` changes `name` and `updatedAt` and nothing else. */
  lemma MergeNameOnly(p: ProductRecord, name: string, now: Timestamp)
    ensures Merged(p, NoChanges.(name := Some(name)), now) == p.(data := p.data.(name := name), updatedAt := now)
  {
  }

  /** Two updates in a row are one update with the keys of both, the later winning. */
  lemma MergeTwice(p: ProductRecord, u1: ProductUpdate, t1: Timestamp, u2: ProductUpdate, t2: Timestamp)
    ensures Merged(Merged(p, u1, t1), u2, t2) == Merged(p, Combine(u1, u2), t2)
  {
  }

  /** Repeating an update changes nothing but `updatedAt`. */
  lemma MergeIdempotent(p: ProductRecord, u: ProductUpdate, t1: Timestamp, t2: Timestamp)
    ensures Merged(Merged(p, u, t1), u, t2) == Merged(p, u, t2)
  {
    MergeTwice(p, u, t1, u, t2);
    assert Combine(u, u) == u;
  }

  /** With a clock that does not run backwards, `updatedAt >= createdAt` survives an update. */
  lemma MergeKeepsTimestampOrder(p: ProductRecord, u: ProductUpdate, now: Timestamp)
    requires p.createdAt <= p.updatedAt <= now
    ensures Merged(p, u, now).createdAt <= Merged(p, u, now).updatedAt
  {
  }

  class ProductEntity {
    var id: string
    var category: string
    var name: string
    var description: Option<string>
    var notes: Option<string>
    var unit: Option<string>
    var priceCents: Number
    var taxPercentage: Number
    var createdAt: Timestamp
    var updatedAt: Timestamp

    /** Every product leaving the constructor has a non-empty id, and no method takes it away. */
    ghost predicate Valid()
      reads this
    {
      id != ""
    }

    /** The entity's current field values. */
    function Snapshot(): ProductRecord
      reads this
    {
      ProductRecord(
        id,
        ProductData(category, name, description, notes, unit, priceCents, taxPercentage),
        createdAt,
        updatedAt)
    }

    /** `new ProductEntity(params)`, with `freshId` the value `randomUUID()` returns and
        `now` the value `new Date()` returns. */
    constructor (params: ProductParams, freshId: string, now: Timestamp)
      requires freshId != ""
      ensures Valid()
      ensures Snapshot() == Created(params, freshId, now)
    {
      // Object.assign(this, params)
      category := params.data.category;
      name := params.data.name;
      description := params.data.description;
      notes := params.data.notes;
      unit := params.data.unit;
      priceCents := params.data.priceCents;
      taxPercentage := params.data.taxPercentage;
      // the falsy identity fields are filled in
      id := DefaultId(params.id, freshId);
      createdAt := DefaultTimestamp(params.createdAt, now);
      updatedAt := DefaultTimestamp(params.updatedAt, now);
    }

    /** `Object.assign(this, params)`: each key present in `params` is copied onto the entity. */
    method AssignKeys(params: ProductUpdate)
      modifies this`category, this`name, this`description, this`notes, this`unit, this`priceCents, this`taxPercentage
      ensures category == Assign(old(category), params.category)
      ensures name == Assign(old(name), params.name)
      ensures description == Assign(old(description), params.description)
      ensures notes == Assign(old(notes), params.notes)
      ensures unit == Assign(old(unit), params.unit)
      ensures priceCents == Assign(old(priceCents), params.priceCents)
      ensures taxPercentage == Assign(old(taxPercentage), params.taxPercentage)
    {
      category, name, description, notes, unit, priceCents, taxPercentage :=
        Assign(category, params.category),
        Assign(name, params.name),
        Assign(description, params.description),
        Assign(notes, params.notes),
        Assign(unit, params.unit),
        Assign(priceCents, params.priceCents),
        Assign(taxPercentage, params.taxPercentage);
    }

    /** `update(params)` at clock reading `now`: the keys present overwrite, then `updatedAt` is refreshed. */
    method Update(params: ProductUpdate, now: Timestamp)
      requires Valid()
      modifies this`category, this`name, this`description, this`notes, this`unit, this`priceCents, this`taxPercentage, this`updatedAt
      ensures Valid()
      ensures Snapshot() == Merged(old(Snapshot()), params, now)
    {
      AssignKeys(params);
      updatedAt := now;
    }
  }
}
