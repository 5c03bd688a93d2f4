# Product catalog service: nested partial update, in Dafny

This project models the product service of a small catalog API. A product owns
units of measure (UOMs). Each UOM owns a barcode record, an image record and a
list of addons. The model requires both records on every UOM; see "## Left out". Each addon owns a list of addon items. Every record has a generated
integer key.

The core is `update`. It rejects an empty body, then an unknown product key. It
then loads the whole aggregate and runs a read-only check: every UOM entry of the
body must name a UOM of the product, and every addon entry must name an addon of
that same UOM. After the check it walks the body and assigns the present leaf
values onto the records it finds by id. Last, it assigns a present top-level name
and saves. Around it sit the guards of `create` (unique name), `findOne` and
`remove` (unknown key), over a repository modelled as a map from key to aggregate.

Files and modules:

- `common.dfy` (`Common`): `Option`, `Result`, `Outcome`, and the thrown errors.
  `Error` is the exception class. `Reason` is the message.
- `entities.dfy` (`Entities`): the six record types. It also has `IndexOf`, which
  is what `find` returns: the first record with the id. Last, the *skeleton* of an
  aggregate: which records exist, with which ids, in which order.
- `dtos.dfy` (`Dtos`): the create and update bodies.
- `merge.dfy` (`Merge`): the merge stated declaratively, level by level.
  `MergedItems`, `MergedAddons` and `MergedUoms` give each leaf the last value
  written to it, or its old value if nothing was written. `MergedProduct` does the
  same for the whole product. The file also holds the lemmas about the merge:
  one entry at a time, composition, idempotence, untouched records unchanged, last
  write wins. It ends with the precondition of the walk: every entry finds its
  record.
- `validation.dfy` (`Validation`): the read-only check, with its first-offender
  contract. It also shows that the check is weaker than what the walk needs.
- `creation.dfy` (`Creation`): the aggregate that a create body is stored as, and
  the round trip from body to stored aggregate and back.
- `service.dfy` (`Service`): the pure specification `UpdateResult` and the class
  `ProductService` over the map store. `UpdateAddon`, `UpdateUom` and
  `UpdateProductUoms` are the walk, written as loops over the body. Each is proved
  equal to the declarative merge.

What the code does, as modelled:

- A duplicate name on create is refused with NotFound.
- A UOM entry's own `name` is never assigned.
- A barcode or image inside an update body is a complete create body, so its
  single field is always present.
- The service has no operation that adds or removes a UOM or an addon on an
  existing product.

## Model

| member | source | states |
|---|---|---|
| `Entities.IndexOf` | src/modules/product/product.service.ts:137 | `find` by id lands on a record with that id, and no earlier record has it |
| `Merge.MergedItems` | src/modules/product/product.service.ts:139-148 | merging item entries keeps the item ids, count and order |
| `Merge.MergedItemsSingle` | src/modules/product/product.service.ts:140-147 | one item entry renames only the first item with its id, and only when it carries a name |
| `Merge.MergedItemsConcat` | src/modules/product/product.service.ts:139-148 | merging two item entry lists one after the other equals merging their concatenation |
| `Merge.MergedItemsIdempotent` | src/modules/product/product.service.ts:147 | merging the same item entries a second time changes nothing |
| `Merge.MergedItemsUntouched` | src/modules/product/product.service.ts:144-147 | an item that no entry addresses is unchanged |
| `Merge.MergedAddons` | src/modules/product/product.service.ts:133-150 | merging addon entries keeps the addons' ids, count and order, and the item ids of each addon |
| `Merge.MergedAddonsSingle` | src/modules/product/product.service.ts:134-149 | one addon entry merges its items into the first addon with its id, then assigns its name if present; other addons are unchanged |
| `Merge.MergedAddonsConcat` | src/modules/product/product.service.ts:133-150 | merging two addon entry lists one after the other equals merging their concatenation |
| `Merge.MergedAddonsIdempotent` | src/modules/product/product.service.ts:147-149 | merging the same addon entries a second time changes nothing |
| `Merge.MergedAddonsUntouched` | src/modules/product/product.service.ts:137-149 | an addon that no entry addresses is unchanged, items included |
| `Merge.MergedUoms` | src/modules/product/product.service.ts:156-179 | merging UOM entries keeps the whole skeleton: UOM, barcode, image, addon and item ids, counts and order; no UOM's name changes |
| `Merge.MergedUomsSingle` | src/modules/product/product.service.ts:158-178 | one UOM entry updates only the first UOM with its id: a present image url and barcode are assigned, its addons are merged, its name is ignored |
| `Merge.MergedUomsConcat` | src/modules/product/product.service.ts:156-179 | merging two UOM entry lists one after the other equals merging their concatenation |
| `Merge.MergedUomsIdempotent` | src/modules/product/product.service.ts:156-179 | merging the same UOM entries a second time changes nothing |
| `Merge.MergedUomsUntouched` | src/modules/product/product.service.ts:165-178 | a UOM that no entry addresses is unchanged, with its barcode, image, addons and items |
| `Merge.BarcodeLastWriteWins` | src/modules/product/product.service.ts:171-173 | a patched UOM's barcode holds the value of the last entry for it that has a barcode, and keeps its record id |
| `Merge.BarcodeKeptWithoutWrite` | src/modules/product/product.service.ts:171-173 | without a barcode in any entry for the UOM, the barcode record is unchanged |
| `Merge.ImageLastWriteWins` | src/modules/product/product.service.ts:167-169 | a patched UOM's image holds the url of the last entry for it that has an image, and keeps its record id |
| `Merge.ImageKeptWithoutWrite` | src/modules/product/product.service.ts:167-169 | without an image in any entry for the UOM, the image record is unchanged |
| `Merge.MergedProduct` | src/modules/product/product.service.ts:200-217 | the merged product keeps its key and skeleton, keeps its UOM list when the body has no `uoms`, and takes a present name |
| `Merge.MergedProductIdempotent` | src/modules/product/product.service.ts:203-217 | applying the same body to the merged product yields that product again |
| `Merge.LatestConcat` | src/modules/product/product.service.ts:147 | assigning one list of values and then another equals assigning their concatenation |
| `Merge.LatestIdempotent` | src/modules/product/product.service.ts:147 | assigning the same values twice leaves what assigning them once left |
| `Merge.LatestLastWrite` | src/modules/product/product.service.ts:168 | after a sequence of assignments a key holds the last present value |
| `Merge.LatestUnwritten` | src/modules/product/product.service.ts:168 | a key with no present value assigned keeps its old value |
| `Merge.UomPatchesResolveByShape` | src/modules/product/product.service.ts:165 | whether every entry finds its record depends only on the skeleton, so it still holds part way through the walk |
| `Validation.CheckAddons` | src/modules/product/product.service.ts:115-128 | passes exactly when every addon entry names an addon of the UOM; otherwise throws NotFound for the first one that does not |
| `Validation.CheckUom` | src/modules/product/product.service.ts:106-128 | passes exactly when the entry's UOM exists and all its addon entries name addons of that UOM; an unknown UOM throws NotFound for that UOM id |
| `Validation.ValidateUpdateProductDto` | src/modules/product/product.service.ts:98-130 | passes exactly when every UOM entry is known; otherwise throws the error of the first entry, in body order, that is not |
| `Validation.ResolvingPatchIsValid` | src/modules/product/product.service.ts:98-130 | a body whose entries all find their records passes the check |
| `Validation.UnknownAddonItemPassesValidation` | src/modules/product/product.service.ts:139-147 | a body naming an addon item the addon lacks passes the check, yet the walk finds no item to assign onto |
| `Validation.ValidationByShape` | src/modules/product/product.service.ts:103-121 | the check reads only ids, so two products with one skeleton get the same verdict |
| `Creation.CreateRoundTrip` | src/modules/product/product.service.ts:39-40 | the aggregate stored for a create body reads back as exactly that body |
| `Service.UpdateRejectsUnknownReference` | src/modules/product/product.service.ts:203-210 | a body with an unknown UOM or addon reference is refused with NotFound |
| `Service.UpdateKeepsSkeleton` | src/modules/product/product.service.ts:196-222 | every successful update keeps the product's key, the whole skeleton (UOM, barcode, image, addon and item ids, counts and order) and every UOM's name |
| `Service.UpdateKeepsUnaddressedUom` | src/modules/product/product.service.ts:156-179 | after a successful update, a UOM that no entry of the body addresses is exactly as it was |
| `Service.UpdateIdempotent` | src/modules/product/product.service.ts:184-223 | repeating a successful update on the stored result succeeds with the same product |
| `Service.ProductService.Create` | src/modules/product/product.service.ts:30-41 | a stored name is refused with NotFound and nothing changes; otherwise the aggregate is stored under a fresh key and reads back as the body |
| `Service.ProductService.FindAll` | src/modules/product/product.service.ts:48-60 | returns every stored product |
| `Service.ProductService.FindOne` | src/modules/product/product.service.ts:71-88 | returns the stored product, or NotFound for an unknown key |
| `Service.UpdateAddon` | src/modules/product/product.service.ts:132-151 | the walk over addon entries and their item entries yields the declarative addon merge |
| `Service.UpdateUom` | src/modules/product/product.service.ts:158-178 | the body of the UOM walk assigns a present image and barcode, merges the addons, and leaves the name |
| `Service.UpdateProductUoms` | src/modules/product/product.service.ts:154-181 | the walk over UOM entries yields the declarative UOM merge |
| `Service.ProductService.Update` | src/modules/product/product.service.ts:184-223 | an empty body gives BadRequest before any lookup, then an unknown key gives NotFound, then the first unknown reference; the store changes only on success, and then only at this key |
| `Service.ProductService.Remove` | src/modules/product/product.service.ts:225-233 | an unknown key gives NotFound and nothing changes; otherwise returns the stored aggregate and the key is gone |

## Left out

- The ORM repository is replaced by a map from key to aggregate. That covers
  `find`, `exist`, `save`, `delete` and eager loading of relations. In the model,
  deleting a key drops the whole aggregate. The database cascades only along the
  foreign keys: product to UOM, UOM to addon, addon to item. The barcode and image
  foreign keys sit on the UOM (src/entities/uom.entity.ts:26-32), so deleting a UOM
  leaves its barcode and image rows behind, orphaned. No product operation can
  reach them, and the model does not represent them.
- Generated keys: the database draws keys from one sequence per table. The model
  draws all keys of a created aggregate from one counter, depth first. Only the
  product's key is proved fresh.
- The unique column on `Product.name` (src/entities/proudct.entity.ts:9) is
  modelled only where `update` writes a name another product holds. There it is a
  failed query and nothing is saved. The database error itself is not modelled.
- Promises and `forEach(async …)`: the callbacks never await, so the walk is
  modelled as plain sequential code before the save.
- Service.ProductService.Update: requires `UpdateDefined`. If the product exists
  and the body's references pass validation, every addon item id must also name
  an item of its addon. The service does not check item ids. An unknown one makes
  it assign onto `undefined` inside an async callback, and what happens then
  depends on the runtime. `Validation.UnknownAddonItemPassesValidation` exhibits
  such a body.
- Service.UpdateProductUoms: requires `UomPatchesResolve`: every
  entry finds its record, for the same reason.
- Service.UpdateUom and Service.UpdateAddon: require
  `AddonPatchesResolve` for the addon entries they walk, for the same reason.
- The service deletes the id keys from the caller's body while it walks. The body
  is modelled as an immutable value.
- Service.ProductService.Create: the model requires every UOM of a create body to
  carry a barcode and an image. The service does not. The create UOM body marks
  `uomBarcode` and `uomImage` only for nested validation, which skips an absent
  value, and the join columns are nullable. So a UOM without these records is
  accepted and stored with empty relations, and the model cannot express such a
  body or such a stored UOM.
- Creation.CreateRoundTrip: holds only for create bodies whose every UOM carries a
  barcode and an image, for the same reason.
- Service.ProductService.Update: a later update entry that carries `uomImage` or
  `uomBarcode` for a UOM stored without that record makes the service assign onto
  `null` inside the async callback, with a runtime-dependent outcome. Like the
  unknown addon item id, the model cannot reach this case, because every stored
  UOM has both records.
- Request validation is built into the DTO types: ids present, `addonItems` an
  array, a barcode or image body complete. No whitelist is configured, so unknown
  keys in a body would also be assigned. The model has only the declared fields.
- Controller routing, the string-to-number conversion of route ids, API
  documentation metadata, logging and application bootstrap.
- Concurrent requests and lost updates: every operation runs alone.
- JSON `null`: every optional field of an update body is an `Option`, so a key
  sent as `null` is treated like an absent key. The service treats them
  differently. `{"uoms": null}` has one key, so it is not refused as empty: the
  product is saved unchanged, where the model answers BadRequest. A `null` name
  on the product, an addon or an item is assigned by `Object.assign`, and the save
  then fails on the non-nullable `name` column. The model keeps the old name and
  succeeds.
- The standalone UOM and addon services are thin repository wrappers and are not
  part of this model.
- The order of `findAll`: the model returns the set of stored products.
