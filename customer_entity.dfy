/**
 * The customer entity: a record built by a constructor that fills in a
 * missing identity and timestamps, and changed only through `update`, a
 * field-level merge that refreshes `updatedAt` and cannot reach `id`,
 * `createdAt` or `customerNumber`.
 */
module CustomerEntities {
  import opened Wrappers
  import opened Lifecycle

  /** The fields of a customer other than its identity and timestamps. */
  datatype CustomerData = CustomerData(
    name: string,
    customerNumber: string,
    contactName: Option<string>,
    showContact: bool,
    email: Option<string>,
    street: Option<string>,
    zip: Option<string>,
    city: Option<string>,
    state: Option<string>,
    country: Option<string>,
    notes: Option<string>)

  /** Everything observable about a customer entity. */
  datatype CustomerRecord = CustomerRecord(id: string, data: CustomerData, createdAt: Timestamp, updatedAt: Timestamp)

  /** The constructor's argument: every data field, and optionally the identity fields,
      which are supplied when a stored customer is rehydrated. */
  datatype CustomerParams = CustomerParams(
    data: CustomerData,
    id: Option<string>,
    createdAt: Option<Timestamp>,
    updatedAt: Option<Timestamp>)

  /**
   * The argument of `update`: one entry per key its parameter type admits, so no entry
   * for `id`, `createdAt`, `updatedAt` or `customerNumber`. `None` is an absent key.
   * For a key whose declared type admits `undefined` (an optional field) the entry is
   * itself optional: `Some(None)` is the key present with value `undefined`, which
   * `Object.assign` copies, so it clears the field.
   */
  datatype CustomerUpdate = CustomerUpdate(
    name: Option<string>,
    contactName: Option<Option<string>>,
    showContact: Option<bool>,
    email: Option<Option<string>>,
    street: Option<Option<string>>,
    zip: Option<Option<string>>,
    city: Option<Option<string>>,
    state: Option<Option<string>>,
    country: Option<Option<string>>,
    notes: Option<Option<string>>)

  /** `update({})`. */
  const NoChanges := CustomerUpdate(None, None, None, None, None, None, None, None, None, None)

  /** The customer the constructor builds from `p`, given the generator's `freshId` and the clock's `now`. */
  function Created(p: CustomerParams, freshId: string, now: Timestamp): (c: CustomerRecord)
    requires freshId != ""
    ensures c.id != ""
    ensures IsTruthy(p.id) ==> c.id == p.id.value
    ensures !IsTruthy(p.id) ==> c.id == freshId
    ensures p.createdAt.Some? ==> c.createdAt == p.createdAt.value
    ensures p.createdAt.None? ==> c.createdAt == now
    ensures p.updatedAt.Some? ==> c.updatedAt == p.updatedAt.value
    ensures p.updatedAt.None? ==> c.updatedAt == now
    ensures c.data == p.data
  {
    CustomerRecord(DefaultId(p.id, freshId), p.data, DefaultTimestamp(p.createdAt, now), DefaultTimestamp(p.updatedAt, now))
  }

  /** The constructor argument that rehydrates a stored customer: every field supplied. */
  function AsParams(c: CustomerRecord): CustomerParams {
    CustomerParams(c.data, Some(c.id), Some(c.createdAt), Some(c.updatedAt))
  }

  /** The data fields after `Object.assign(this, u)`. */
  function MergeData(d: CustomerData, u: CustomerUpdate): (r: CustomerData)
    ensures r.customerNumber == d.customerNumber
  {
    CustomerData(
      Assign(d.name, u.name),
      d.customerNumber,
      Assign(d.contactName, u.contactName),
      Assign(d.showContact, u.showContact),
      Assign(d.email, u.email),
      Assign(d.street, u.street),
      Assign(d.zip, u.zip),
      Assign(d.city, u.city),
      Assign(d.state, u.state),
      Assign(d.country, u.country),
      Assign(d.notes, u.notes))
  }

  /** The customer after `update(u)` at time `now`. */
  function Merged(c: CustomerRecord, u: CustomerUpdate, now: Timestamp): (r: CustomerRecord)
    ensures r.id == c.id && r.createdAt == c.createdAt
    ensures r.data.customerNumber == c.data.customerNumber
    ensures r.updatedAt == now
    ensures r.data == MergeData(c.data, u)
  {
    c.(data := MergeData(c.data, u), updatedAt := now)
  }

  /** The single update equivalent to `u1` followed by `u2`: the later one wins key by key. */
  function Combine(u1: CustomerUpdate, u2: CustomerUpdate): CustomerUpdate {
    CustomerUpdate(
      Later(u1.name, u2.name),
      Later(u1.contactName, u2.contactName),
      Later(u1.showContact, u2.showContact),
      Later(u1.email, u2.email),
      Later(u1.street, u2.street),
      Later(u1.zip, u2.zip),
      Later(u1.city, u2.city),
      Later(u1.state, u2.state),
      Later(u1.country, u2.country),
      Later(u1.notes, u2.notes))
  }

  /** A brand-new customer gets the generated id and both timestamps from the one clock reading. */
  lemma CreatedNew(data: CustomerData, freshId: string, now: Timestamp)
    requires freshId != ""
    ensures var c := Created(CustomerParams(data, None, None, None), freshId, now);
      c.id == freshId && c.createdAt == now && c.updatedAt == now && c.data == data
  {
  }

  /** Rehydrating a stored customer through the constructor gives it back unchanged:
      neither the generator nor the clock is consulted. */
  lemma RehydrateRoundTrip(c: CustomerRecord, freshId: string, now: Timestamp)
    requires c.id != "" && freshId != ""
    ensures Created(AsParams(c), freshId, now) == c
  {
  }

  /** `update({})` refreshes `updatedAt` and changes nothing else. */
  lemma MergeNothing(c: CustomerRecord, now: Timestamp)
    ensures Merged(c, NoChanges, now) == c.(updatedAt := now)
  {
  }

  /** `update({name})` changes `name` and `updatedAt` and nothing else. */
  lemma MergeNameOnly(c: CustomerRecord, name: string, now: Timestamp)
    ensures Merged(c, NoChanges.(name := Some(name)), now) == c.(data := c.data.(name := name), updatedAt := now)
  {
  }

  /** Two updates in a row are one update with the keys of both, the later winning. */
  lemma MergeTwice(c: CustomerRecord, u1: CustomerUpdate, t1: Timestamp, u2: CustomerUpdate, t2: Timestamp)
    ensures Merged(Merged(c, u1, t1), u2, t2) == Merged(c, Combine(u1, u2), t2)
  {
  }

  /** Repeating an update changes nothing but `updatedAt`. */
  lemma MergeIdempotent(c: CustomerRecord, u: CustomerUpdate, t1: Timestamp, t2: Timestamp)
    ensures Merged(Merged(c, u, t1), u, t2) == Merged(c, u, t2)
  {
    MergeTwice(c, u, t1, u, t2);
    assert Combine(u, u) == u;
  }

  /** With a clock that does not run backwards, `updatedAt >= createdAt` survives an update. */
  lemma MergeKeepsTimestampOrder(c: CustomerRecord, u: CustomerUpdate, now: Timestamp)
    requires c.createdAt <= c.updatedAt <= now
    ensures Merged(c, u, now).createdAt <= Merged(c, u, now).updatedAt
  {
  }

  class CustomerEntity {
    var id: string
    var name: string
    var customerNumber: string
    var contactName: Option<string>
    var showContact: bool
    var email: Option<string>
    var street: Option<string>
    var zip: Option<string>
    var city: Option<string>
    var state: Option<string>
    var country: Option<string>
    var notes: Option<string>
    var createdAt: Timestamp
    var updatedAt: Timestamp

    /** Every customer leaving the constructor has a non-empty id, and no method takes it away. */
    ghost predicate Valid()
      reads this
    {
      id != ""
    }

    /** The entity's current field values. */
    function Snapshot(): CustomerRecord
      reads this
    {
      CustomerRecord(
        id,
        CustomerData(name, customerNumber, contactName, showContact, email, street, zip, city, state, country, notes),
        createdAt,
        updatedAt)
    }

    /** `new CustomerEntity(params)`, with `freshId` the value `randomUUID()` returns and
        `now` the value `new Date()` returns. */
    constructor (params: CustomerParams, freshId: string, now: Timestamp)
      requires freshId != ""
      ensures Valid()
      ensures Snapshot() == Created(params, freshId, now)
    {
      // Object.assign(this, params)
      name := params.data.name;
      customerNumber := params.data.customerNumber;
      contactName := params.data.contactName;
      showContact := params.data.showContact;
      email := params.data.email;
      street := params.data.street;
      zip := params.data.zip;
      city := params.data.city;
      state := params.data.state;
      country := params.data.country;
      notes := params.data.notes;
      // the falsy identity fields are filled in
      id := DefaultId(params.id, freshId);
      createdAt := DefaultTimestamp(params.createdAt, now);
      updatedAt := DefaultTimestamp(params.updatedAt, now);
    }

    /** `Object.assign(this, params)`: each key present in `params` is copied onto the entity. */
    method AssignKeys(params: CustomerUpdate)
      modifies this`name, this`contactName, this`showContact, this`email, this`street, this`zip, this`city, this`state, this`country, this`notes
      ensures name == Assign(old(name), params.name)
      ensures contactName == Assign(old(contactName), params.contactName)
      ensures showContact == Assign(old(showContact), params.showContact)
      ensures email == Assign(old(email), params.email)
      ensures street == Assign(old(street), params.street)
      ensures zip == Assign(old(zip), params.zip)
      ensures city == Assign(old(city), params.city)
      ensures state == Assign(old(state), params.state)
      ensures country == Assign(old(country), params.country)
      ensures notes == Assign(old(notes), params.notes)
    {
      name, contactName, showContact, email, street, zip, city, state, country, notes :=
        Assign(name, params.name),
        Assign(contactName, params.contactName),
        Assign(showContact, params.showContact),
        Assign(email, params.email),
        Assign(street, params.street),
        Assign(zip, params.zip),
        Assign(city, params.city),
        Assign(state, params.state),
        Assign(country, params.country),
        Assign(notes, params.notes);
    }

    /** `update(params)` at clock reading `now`: the keys present overwrite, then `updatedAt` is refreshed. */
    method Update(params: CustomerUpdate, now: Timestamp)
      requires Valid()
      modifies this`name, this`contactName, this`showContact, this`email, this`street, this`zip, this`city, this`state, this`country, this`notes, this`updatedAt
      ensures Valid()
      ensures Snapshot() == Merged(old(Snapshot()), params, now)
    {
      AssignKeys(params);
      updatedAt := now;
    }
  }
}
