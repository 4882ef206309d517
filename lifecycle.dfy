/**
 * Rules every domain entity shares: JavaScript truthiness of the values the
 * constructors check with `!`, the defaulting of `id` and of the timestamps, and what
 * `Object.assign` does to one key.
 */
module Lifecycle {
  import opened Wrappers

  /** A `Date`, as milliseconds since the epoch. */
  type Timestamp = int

  /** A JavaScript `number` that the entities store and copy but never compute with. */
  type Number = real

  /** JavaScript truthiness of a string-valued key: a missing key and `""` are falsy. */
  predicate IsTruthy(s: Option<string>) {
    s.Some? && s.value != ""
  }

  /** `if (!this.id) this.id = randomUUID()`, where `freshId` is what the generator returns. */
  function DefaultId(given: Option<string>, freshId: string): (id: string)
    ensures freshId != "" ==> id != ""
  {
    if IsTruthy(given) then given.value else freshId
  }

  /** `if (!this.createdAt) this.createdAt = new Date()`: a `Date` object is always truthy,
      so only a missing timestamp is replaced by the clock reading `now`. */
  function DefaultTimestamp(given: Option<Timestamp>, now: Timestamp): Timestamp {
    if given.Some? then given.value else now
  }

  /** The effect of `Object.assign(target, source)` on one key: a key present in `source`
      overwrites the target's value, an absent key leaves it as it was. */
  function Assign<T>(current: T, supplied: Option<T>): T {
    if supplied.Some? then supplied.value else current
  }

  /** One key of `Object.assign({}, first, second)`: the later source wins where it has the key. */
  function Later<T>(first: Option<T>, second: Option<T>): Option<T> {
    if second.Some? then second else first
  }
}
