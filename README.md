# Invoicing backend: entity lifecycle and product resolver, in Dafny

This project models two sequential pieces of the invoicing backend and proves properties of them.

- **Customer and product entities.** Each constructor copies the given fields onto the record. It then fills in `id`, `createdAt` and `updatedAt` only where they are missing or falsy. The id comes from an id generator and the timestamps from the clock. `update` copies the keys of its argument onto the record, as `Object.assign` does, and then always refreshes `updatedAt`. The parameter type of `update` has no `id`, `createdAt` or `updatedAt`, and for customers no `customerNumber` either, so those fields cannot change.
- **Product resolver.** The `products` query keeps the products, from the list the repository returned, whose `name` contains the search term. It then sorts them by `category`, and by `name` within one category. `createProduct`, `updateProduct` and `deleteProduct` follow a fetch, check, mutate, save order against the repository. They fail with "Product not found" when the id is not stored.

Each entity is a Dafny `class` with the source's fields. Its constructor and `Update` method are proved against pure functions (`Created`, `Merged`) of the old state. The properties are then proved about those functions. The repository is a class holding a `map` from id to the stored product value. The listing pipeline is a set of pure functions: a filter and a stable insertion sort, standing in for `Array.prototype.filter` and the stable `Array.prototype.sort`.

Modules, one file each:

| file | module | models |
|---|---|---|
| wrappers.dfy | `Wrappers` | `Option`, `Result` |
| lifecycle.dfy | `Lifecycle` | JavaScript truthiness of the values the constructors check with `!`, defaulting of id and timestamps, one key of `Object.assign` |
| js_strings.dfy | `JsStrings` | `String.prototype.includes`; a code-point lexicographic comparison standing in for `localeCompare` |
| customer_entity.dfy | `CustomerEntities` | `CustomerEntity` |
| product_entity.dfy | `ProductEntities` | `ProductEntity` |
| product_repository.dfy | `ProductRepositories` | the repository calls the resolver makes, over a map |
| product_resolver.dfy | `ProductResolvers` | `ProductResolver` |

Encoding decisions:

- The id generator and the clock are parameters. `freshId` is the value `randomUUID()` returns, so it is non-empty. `now` is the value `new Date()` returns, in milliseconds.
- A missing key is `None`. A falsy `id` is a missing one or `""`. A `Date` object is always truthy, so only a missing timestamp is defaulted.
- The argument of `update` is a record with one entry per updatable key. `None` means the key is absent (see "Left out" on required keys), and then the field keeps its value. `Some(v)` overwrites the field. For a key whose declared type admits `undefined` (an optional field such as `notes`), the entry is `Option<Option<T>>`. `Some(None)` stands for the key present with value `undefined`. `Object.assign` copies such a key, so this clears the field. A required field's type excludes `undefined`, so its entry is a plain `Option<T>`.
- The search is case-sensitive, as `String.prototype.includes` is.

## Model

| member | source | states |
|---|---|---|
| `Lifecycle.IsTruthy` | src/backend/entities/customer.entity.ts:32 | no contract of its own: `!this.id` is true for a missing id and for `""`. Its meaning is carried by `Created` in both entity modules (product.entity.ts:28 likewise) and by `Matches` |
| `Lifecycle.DefaultId` | src/backend/entities/customer.entity.ts:32-34 | with a non-empty generated id, the resulting id is never empty. Keeping versus replacing is stated by `Created` (product.entity.ts:28-30 likewise) |
| `Lifecycle.DefaultTimestamp` | src/backend/entities/customer.entity.ts:35-40 | no contract of its own: a `Date` is always truthy, so only a missing timestamp becomes the clock reading. Stated by the timestamp clauses of `Created` (product.entity.ts:31-36 likewise) |
| `Lifecycle.Assign` | src/backend/entities/customer.entity.ts:49 | no contract of its own: `Object.assign` on one key. Its meaning is carried by `AssignKeys`, `MergeNothing`, `MergeNameOnly` and `MergeTwice` in both entity modules (product.entity.ts:45 likewise) |
| `CustomerEntities.Created` | src/backend/entities/customer.entity.ts:31-40 | the constructed customer always has a non-empty id. A truthy supplied id is kept and a missing or empty one is replaced by the generated id. A supplied timestamp is kept and a missing one is the clock reading. Every data field (`name`, `customerNumber`, `contactName`, `showContact`, `email`, the address fields, `notes`) is copied verbatim |
| `CustomerEntities.CreatedNew` | src/backend/entities/customer.entity.ts:31-40 | a customer built with no identity fields gets the generated id, and `createdAt == updatedAt == now` |
| `CustomerEntities.RehydrateRoundTrip` | src/backend/entities/customer.entity.ts:23-41 | constructing from a stored customer's own fields gives back exactly that customer, whatever the generator and clock return |
| `CustomerEntities.MergeData` | src/backend/entities/customer.entity.ts:43-49 | merging an update never changes `customerNumber` |
| `CustomerEntities.Merged` | src/backend/entities/customer.entity.ts:43-50 | after an update, `id`, `createdAt` and `customerNumber` are as before, `updatedAt` is the clock reading, and the data are the key-by-key merge |
| `CustomerEntities.MergeNothing` | src/backend/entities/customer.entity.ts:49-50 | an update carrying no key changes `updatedAt` and nothing else |
| `CustomerEntities.MergeNameOnly` | src/backend/entities/customer.entity.ts:49-50 | an update holding only `name` changes `name` and `updatedAt` and nothing else |
| `CustomerEntities.MergeTwice` | src/backend/entities/customer.entity.ts:49-50 | two updates in a row equal one update carrying the keys of both, the later winning per key |
| `CustomerEntities.MergeIdempotent` | src/backend/entities/customer.entity.ts:49-50 | repeating an update changes nothing but `updatedAt` |
| `CustomerEntities.MergeKeepsTimestampOrder` | src/backend/entities/customer.entity.ts:50 | with a clock that does not run backwards, `createdAt <= updatedAt` survives an update |
| `CustomerEntities.CustomerEntity.constructor` | src/backend/entities/customer.entity.ts:23-41 | the new entity has a non-empty id and its fields are `Created(params, freshId, now)` |
| `CustomerEntities.CustomerEntity.AssignKeys` | src/backend/entities/customer.entity.ts:49 | `Object.assign(this, params)`: each updatable field takes the supplied value or keeps its own. Its frame cannot reach `id`, `customerNumber` or the timestamps |
| `CustomerEntities.CustomerEntity.Update` | src/backend/entities/customer.entity.ts:43-51 | the new state is `Merged(old state, params, now)`. The frame excludes `id`, `createdAt` and `customerNumber` |
| `ProductEntities.Created` | src/backend/entities/product.entity.ts:27-36 | the constructed product always has a non-empty id. A truthy supplied id is kept and a missing or empty one is generated. Supplied timestamps are kept and missing ones are the clock reading. `category`, `name`, `description`, `notes`, `unit`, `priceCents` and `taxPercentage` are copied verbatim |
| `ProductEntities.CreatedNew` | src/backend/entities/product.entity.ts:27-36 | a product built with no identity fields gets the generated id, and `createdAt == updatedAt == now` |
| `ProductEntities.RehydrateRoundTrip` | src/backend/entities/product.entity.ts:19-37 | constructing from a stored product's own fields gives back exactly that product |
| `ProductEntities.MergeData` | src/backend/entities/product.entity.ts:45 | no contract of its own: the data fields after `Object.assign(this, params)`. Its meaning is carried by `MergeNothing`, `MergeNameOnly`, `MergeTwice` and `MergeIdempotent` |
| `ProductEntities.Merged` | src/backend/entities/product.entity.ts:39-46 | after an update, `id` and `createdAt` are as before, `updatedAt` is the clock reading, and the data are the key-by-key merge |
| `ProductEntities.MergeNothing` | src/backend/entities/product.entity.ts:45-46 | an update carrying no key changes `updatedAt` and nothing else |
| `ProductEntities.MergeNameOnly` | src/backend/entities/product.entity.ts:45-46 | an update holding only `name` changes `name` and `updatedAt` and nothing else |
| `ProductEntities.MergeTwice` | src/backend/entities/product.entity.ts:45-46 | two updates in a row equal one update carrying the keys of both, the later winning per key |
| `ProductEntities.MergeIdempotent` | src/backend/entities/product.entity.ts:45-46 | repeating an update changes nothing but `updatedAt` |
| `ProductEntities.MergeKeepsTimestampOrder` | src/backend/entities/product.entity.ts:46 | with a clock that does not run backwards, `createdAt <= updatedAt` survives an update |
| `ProductEntities.ProductEntity.constructor` | src/backend/entities/product.entity.ts:19-37 | the new entity has a non-empty id and its fields are `Created(params, freshId, now)` |
| `ProductEntities.ProductEntity.AssignKeys` | src/backend/entities/product.entity.ts:45 | `Object.assign(this, params)`: each updatable field takes the supplied value or keeps its own. Its frame cannot reach `id` or the timestamps |
| `ProductEntities.ProductEntity.Update` | src/backend/entities/product.entity.ts:39-47 | the new state is `Merged(old state, params, now)`. The frame excludes `id` and `createdAt` |
| `JsStrings.Includes` | src/backend/api/graphql/products/product.resolver.ts:37 | no contract of its own: `name.includes(search)`. `IncludesIsSubstring` proves it is exactly the substring relation |
| `JsStrings.OccurrenceIsIncluded` | src/backend/api/graphql/products/product.resolver.ts:37 | a substring occurring at any index is found by `includes` |
| `JsStrings.IncludedOccurs` | src/backend/api/graphql/products/product.resolver.ts:37 | whatever `includes` finds occurs at the returned index |
| `JsStrings.IncludesIsSubstring` | src/backend/api/graphql/products/product.resolver.ts:37 | `includes` holds exactly when the term occurs somewhere in the name (both directions) |
| `JsStrings.CompareStrings` | src/backend/api/graphql/products/product.resolver.ts:44-46 | the comparison returns -1, 0 or 1, and 0 exactly for equal strings |
| `JsStrings.CompareStringsFlip` | src/backend/api/graphql/products/product.resolver.ts:44-46 | swapping the arguments negates the comparison |
| `JsStrings.CompareStringsTransitive` | src/backend/api/graphql/products/product.resolver.ts:44-46 | "sorts no later than" is transitive, so the comparison is a total order |
| `ProductResolvers.SearchTerm` | src/backend/api/graphql/products/product.resolver.ts:36 | no contract of its own: `where?.search`, missing when `where` is. Used by `Matches`, `Filter` and `Products` |
| `ProductResolvers.Matches` | src/backend/api/graphql/products/product.resolver.ts:35-39 | no contract of its own: the filter callback, true for every product unless the term is truthy, and then true exactly when the name includes it. Its meaning is carried by `Filter` and `Products` |
| `ProductResolvers.Filter` | src/backend/api/graphql/products/product.resolver.ts:35-40 | every kept product matches the search term. Each matching product is kept as many times as it was listed and every other product is dropped. Without a truthy term the list is unchanged |
| `ProductResolvers.CompareProducts` | src/backend/api/graphql/products/product.resolver.ts:41-47 | the sort callback returns -1, 0 or 1, and 0 exactly when category and name are both equal. Its order is stated by `CompareProductsOrder`, `CompareProductsFlip` and `CompareProductsTransitive` |
| `ProductResolvers.CompareProductsOrder` | src/backend/api/graphql/products/product.resolver.ts:41-47 | the sort callback puts `a` first exactly when its category sorts first, or the categories are equal and its name sorts no later |
| `ProductResolvers.CompareProductsFlip` | src/backend/api/graphql/products/product.resolver.ts:41-47 | the sort callback is antisymmetric |
| `ProductResolvers.CompareProductsTransitive` | src/backend/api/graphql/products/product.resolver.ts:41-47 | the sort callback is transitive, so the order is a total preorder |
| `ProductResolvers.Insert` | src/backend/api/graphql/products/product.resolver.ts:41-47 | inserting into a sorted list gives a sorted list with exactly one more occurrence of the product |
| `ProductResolvers.Sort` | src/backend/api/graphql/products/product.resolver.ts:41-47 | the result is sorted by category, then name, and is a permutation of the input |
| `ProductResolvers.InsertStable` | src/backend/api/graphql/products/product.resolver.ts:41-47 | inserting keeps the relative order of the products that share a category and name |
| `ProductResolvers.SortStable` | src/backend/api/graphql/products/product.resolver.ts:41-47 | the sort is stable: products with equal category and name come out in their input order |
| `ProductResolvers.Products` | src/backend/api/graphql/products/product.resolver.ts:34-47 | the result is sorted by category, then name. It holds each listed product that matches the search exactly as often as listed, and nothing else. With a truthy search term every returned name contains it. Without one the result is a permutation of the listed products |
| `ProductResolvers.FilterWithKey` | src/backend/api/graphql/products/product.resolver.ts:35-40 | the filter keeps the listed order: the kept products of one category and name are, in order, the matching ones among that key's listed products |
| `ProductResolvers.ProductsStable` | src/backend/api/graphql/products/product.resolver.ts:34-47 | products with equal category and name come out in the order the repository listed them, keeping only those that match the search |
| `ProductResolvers.CategoryTakesPrecedence` | src/backend/api/graphql/products/product.resolver.ts:41-47 | {category "B", name "A"} is returned after {category "A", name "Z"}: category decides before name |
| `ProductRepositories.ProductRepository.Create` | src/backend/api/graphql/products/product.resolver.ts:59 | assumed contract of `repository.create()`: a new, unsaved entity with the generated id, both timestamps at `now` and the repository's blank data |
| `ProductRepositories.ProductRepository.GetById` | src/backend/api/graphql/products/product.resolver.ts:72-75 | assumed contract of `repository.getById(id)`: `null` exactly when the id is not stored, otherwise a new entity equal to the stored product |
| `ProductRepositories.ProductRepository.Save` | src/backend/api/graphql/products/product.resolver.ts:77 | assumed contract of `repository.save(product)`: the product's current state is stored under its id, and nothing else changes |
| `ProductRepositories.ProductRepository.Delete` | src/backend/api/graphql/products/product.resolver.ts:88 | assumed contract of `repository.delete(id)`: exactly that id is removed |
| `ProductResolvers.ProductResolver.constructor` | src/backend/api/graphql/products/product.resolver.ts:14-16 | the resolver holds the repository it was given |
| `ProductResolvers.ProductResolver.Product` | src/backend/api/graphql/products/product.resolver.ts:52-54 | `product(id)` returns `null` exactly when the id is not stored, otherwise the stored product |
| `ProductResolvers.ProductResolver.CreateProduct` | src/backend/api/graphql/products/product.resolver.ts:58-64 | the created product, merged with `data`, is stored under the generated id and returned, with `createdAt` at `now` |
| `ProductResolvers.ProductResolver.UpdateProduct` | src/backend/api/graphql/products/product.resolver.ts:68-79 | an id that is not stored fails with "Product not found" and leaves the store unchanged. A stored id gets the old product merged with `data`, stored and returned, with the same `id` and `createdAt` |
| `ProductResolvers.ProductResolver.DeleteProduct` | src/backend/api/graphql/products/product.resolver.ts:83-90 | an id that is not stored fails with "Product not found" and leaves the store unchanged. A stored id is removed, and only it, and the product as stored before the deletion is returned |

## Left out

- The repository implementation (ElectroDB over DynamoDB) is not part of this model. The repository is a map from id to stored product. `getById` rehydrates a new entity through the entity constructor. The data fields a product gets from `create()` are a constant of the repository (`blank`), because the implementation that fixes them is not shown.
- `listByQuery` is not modelled. How it applies `where`, `skip` and `limit` is not shown, so `Products` takes the repository's result as its `data` argument. Filtering and sorting happen after the repository has paginated, so the model states what holds for one page, not for the whole store. `ProductWhere` holds only `search`, the one key the resolver reads itself.
- `localeCompare` collation: locale-aware ordering cannot be reproduced. `CompareStrings` is the lexicographic order on code points, a total order, and only equal strings compare as 0. A collation that ranks distinct strings as equal is not captured. With such a collation the callback at product.resolver.ts:43-46 is no longer consistent, because it tests categories with `===` but ranks them with `localeCompare`. For example, the categories `"é"` and `"e\u0301"` may compare as equal. Then A {`"é"`, `"Z"`} ranks with B {`"e\u0301"`, `"M"`} and B with C {`"é"`, `"A"`}, yet C sorts before A. JavaScript's sort order is then implementation-defined. The proved ordering and stability cover only the consistent comparison of the model.
- JavaScript strings are sequences of UTF-16 code units and may hold lone surrogates. A Dafny `string` is a sequence of Unicode scalar values, so it cannot represent lone surrogates. The code-point order also differs from JavaScript's code-unit order above U+FFFF: JavaScript ranks U+1F600 before U+FF61, while the model ranks it after. For well-formed strings, `Includes` agrees with `String.prototype.includes`.
- The clock: the source calls `new Date()` separately for `createdAt` and for `updatedAt`, and again in the `update` that `createProduct` performs after `create()`. The model takes one `now` per operation, so it treats those readings as simultaneous. `randomUUID()` is an abstract `freshId`; its format and uniqueness are not modelled, and a generated id that is already stored is simply overwritten by `save`.
- Keys beyond the parameter type: at run time `Object.assign` copies every own key of its argument, including any the TypeScript type excludes (an object with extra properties fits a structural type). The update records have no entry for `id`, `createdAt`, `updatedAt` or `customerNumber`, so the model states the compile-time exclusion, not a run-time check.
- Required keys of `update`: the parameter type requires the non-optional keys. These are `name` and `showContact` for a customer, and `category`, `name`, `priceCents` and `taxPercentage` for a product. The model also admits an argument without them, in which case the field keeps its value, as `Object.assign` does at run time. Every type-correct call is one of the modelled ones.
- `null` and `undefined` are both a missing value (`None`). A `Date` is a millisecond count, so an invalid `Date`, which is truthy and kept, has no counterpart. Numbers (`priceCents`, `taxPercentage`) are copied, never computed with, and are modelled as `real`, without IEEE-754 behaviour.
- The `DomainEntity` base class and `DomainEntityKeys` (abstract.entity.ts) and `ObjectProperties` (ts-helpers) are not part of this model. Any key they exclude from the parameter types is outside the model, as is any behaviour of the base class.
- The type-graphql decorators, `@Authorized` checks and the dependency-injection container are framework plumbing. The caller is assumed to be authorized.
- `async`/`await`: the awaited repository calls run in sequence, and are plain method calls here. Concurrent requests racing on one record are not modelled.
- stack/index.ts (deployment wiring), src/app/manifest.ts (a constant manifest), the invoice page component and invoice totals are not part of this model.
