/**
 * The product service over an abstract repository: a map from primary key to the
 * stored aggregate, with eager loading of the whole subtree taken for granted.
 */
module Service {
  import opened Common
  import opened Entities
  import opened Dtos
  import opened Merge
  import opened Validation
  import opened Creation

  /** Some stored product already has this name. */
  predicate NameTaken(products: map<int, Product>, name: string)
  {
    exists id | id in products :: products[id].name == name
  }

  /** A stored product other than `id` has this name: the unique column refuses the write. */
  predicate NameTakenByOther(products: map<int, Product>, id: int, name: string)
  {
    exists other | other in products :: other != id && products[other].name == name
  }

  /**
   * The merge walk can run: once the check has passed, every addon item entry finds
   * its item too. The service itself does not check this; an unknown item id ends
   * in an assignment onto `undefined`.
   */
  predicate UpdateDefined(products: map<int, Product>, id: int, dto: UpdateProductDto)
  {
    id in products && dto.uoms.Some? && ValidateUpdateProductDto(products[id], dto.uoms.value, id).Pass?
    ==> UomPatchesResolve(products[id].uoms, dto.uoms.value)
  }

  /**
   * What `update` resolves or rejects with: an empty body, then an unknown id, then
   * the first unknown UOM or addon reference, then a name that another product
   * holds; otherwise the merged aggregate.
   */
  function UpdateResult(products: map<int, Product>, id: int, dto: UpdateProductDto): Result<Product>
    requires UpdateDefined(products, id, dto)
  {
    if IsEmpty(dto) then Failure(BadRequest(NoDataToUpdate))
    else if id !in products then Failure(NotFound(ProductIdNotFound(id)))
    else
      var check := if dto.uoms.Some? then ValidateUpdateProductDto(products[id], dto.uoms.value, id) else Pass;
      if check.Fail? then Failure(check.error)
      else
        var merged := MergedProduct(products[id], dto);
        if NameTakenByOther(products, id, merged.name) then Failure(QueryFailed(DuplicateProductName))
        else Success(merged)
  }

  /** A body naming a UOM or addon the product lacks is refused with NotFound and saves nothing. */
  lemma UpdateRejectsUnknownReference(products: map<int, Product>, id: int, dto: UpdateProductDto, i: nat)
    requires UpdateDefined(products, id, dto)
    requires id in products && dto.uoms.Some? && i < |dto.uoms.value|
    requires !UomPatchKnown(products[id].uoms, dto.uoms.value[i])
    ensures UpdateResult(products, id, dto).Failure?
    ensures UpdateResult(products, id, dto).error.NotFound?
  {
  }

  /**
   * A successful update keeps the product's key, the whole skeleton of its subtree
   * and the name of every UOM.
   */
  lemma UpdateKeepsSkeleton(products: map<int, Product>, id: int, dto: UpdateProductDto)
    requires UpdateDefined(products, id, dto)
    requires UpdateResult(products, id, dto).Success?
    ensures id in products
    ensures var r := UpdateResult(products, id, dto).value;
      && r.id == products[id].id
      && UomShapes(r.uoms) == UomShapes(products[id].uoms)
      && (forall k | 0 <= k < |r.uoms| :: r.uoms[k].name == products[id].uoms[k].name)
  {
    var merged := MergedProduct(products[id], dto);
    assert UpdateResult(products, id, dto) == Success(merged);
    UomShapesAgree(merged.uoms, products[id].uoms);
  }

  /** A successful update leaves every UOM that the body does not address as it was. */
  lemma UpdateKeepsUnaddressedUom(products: map<int, Product>, id: int, dto: UpdateProductDto, k: nat)
    requires UpdateDefined(products, id, dto)
    requires UpdateResult(products, id, dto).Success?
    requires id in products && k < |products[id].uoms|
    requires dto.uoms.Some? ==> forall i | 0 <= i < |dto.uoms.value| :: dto.uoms.value[i].uomId != products[id].uoms[k].id
    ensures var r := UpdateResult(products, id, dto).value;
      k < |r.uoms| && r.uoms[k] == products[id].uoms[k]
  {
    var merged := MergedProduct(products[id], dto);
    assert UpdateResult(products, id, dto) == Success(merged);
    UomShapesAgree(merged.uoms, products[id].uoms);
    if dto.uoms.Some? {
      MergedUomsUntouched(products[id].uoms, dto.uoms.value, k);
    }
  }

  /** Repeating a successful update on the stored result succeeds with the same product. */
  lemma UpdateIdempotent(products: map<int, Product>, id: int, dto: UpdateProductDto)
    requires UpdateDefined(products, id, dto)
    requires UpdateResult(products, id, dto).Success?
    ensures var p := UpdateResult(products, id, dto).value;
      UpdateDefined(products[id := p], id, dto) && UpdateResult(products[id := p], id, dto) == Success(p)
  {
    var p := UpdateResult(products, id, dto).value;
    var after := products[id := p];
    MergedProductIdempotent(products[id], dto);
    if dto.uoms.Some? {
      ValidationByShape(products[id], p, dto.uoms.value, id);
      UomPatchesResolveByShape(products[id].uoms, p.uoms, dto.uoms.value);
    }
    assert NameTakenByOther(after, id, p.name) == NameTakenByOther(products, id, p.name) by {
      assert forall other | other != id :: (other in after <==> other in products);
      assert forall other | other in products && other != id :: after[other] == products[other];
    }
  }

  /** A prefix followed by the next element is the longer prefix. */
  lemma PrefixExtends<T>(s: seq<T>, i: nat)
    requires i < |s|
    ensures s[..i] + [s[i]] == s[..i + 1]
  {
  }

  /** One turn of the item walk extends the merged prefix by one entry. */
  lemma StepMergesItem(items: seq<AddonItem>, ps: seq<UpdateAddonItemDto>, j: nat, current: seq<AddonItem>)
    requires j < |ps| && current == MergedItems(items, ps[..j])
    requires ps[j].addonItemId in ItemIds(current)
    ensures var n := IndexOf(ItemIds(current), ps[j].addonItemId);
      current[n := current[n].(name := Assign(current[n].name, ps[j].name))] == MergedItems(items, ps[..j + 1])
  {
    PrefixExtends(ps, j);
    MergedItemsSingle(current, ps[j]);
    MergedItemsConcat(items, ps[..j], [ps[j]]);
  }

  /** One turn of the addon walk extends the merged prefix by one entry. */
  lemma StepMergesAddon(addons: seq<Addon>, ps: seq<UpdateAddonDto>, i: nat, current: seq<Addon>)
    requires i < |ps| && current == MergedAddons(addons, ps[..i])
    requires ps[i].addonId in AddonIds(current)
    ensures var k := IndexOf(AddonIds(current), ps[i].addonId);
      current[k := current[k].(
        addonItems := MergedItems(current[k].addonItems, ps[i].addonItems),
        name := Assign(current[k].name, ps[i].name))] == MergedAddons(addons, ps[..i + 1])
  {
    PrefixExtends(ps, i);
    MergedAddonsSingle(current, ps[i]);
    MergedAddonsConcat(addons, ps[..i], [ps[i]]);
  }

  /** One turn of the UOM walk extends the merged prefix by one entry. */
  lemma StepMergesUom(uoms: seq<UOM>, ps: seq<UpdateUOMDto>, i: nat, current: seq<UOM>)
    requires i < |ps| && current == MergedUoms(uoms, ps[..i])
    requires ps[i].uomId in UomIds(current)
    ensures var k := IndexOf(UomIds(current), ps[i].uomId);
      current[k := PatchedUom(current[k], ps[i])] == MergedUoms(uoms, ps[..i + 1])
  {
    var k := IndexOf(UomIds(current), ps[i].uomId);
    var patched := current[k := PatchedUom(current[k], ps[i])];
    PrefixExtends(ps, i);
    MergedUomsSingle(current, ps[i]);
    assert MergedUoms(current, [ps[i]]) == patched;
    MergedUomsConcat(uoms, ps[..i], [ps[i]]);
    calc {
      patched;
      MergedUoms(MergedUoms(uoms, ps[..i]), [ps[i]]);
      MergedUoms(uoms, ps[..i] + [ps[i]]);
      MergedUoms(uoms, ps[..i + 1]);
    }
  }

  /**
   * Walks the addon entries in order; for each, finds the addon by id, assigns
   * each item entry's name onto the item it finds by id, then the entry's name onto
   * the addon.
   */
  method UpdateAddon(addons: seq<UpdateAddonDto>, productUom: UOM) returns (r: UOM)
    requires AddonPatchesResolve(productUom.addons, addons)
    ensures r == productUom.(addons := MergedAddons(productUom.addons, addons))
  {
    var productAddons := productUom.addons;
    var i := 0;
    assert addons[..0] == [];
    MergedAddonsNone(productUom.addons);
    while i < |addons|
      invariant 0 <= i <= |addons|
      invariant productAddons == MergedAddons(productUom.addons, addons[..i])
    {
      var addon := addons[i];
      AddonPatchesResolveByShape(productUom.addons, productAddons, addons);
      assert AddonPatchResolves(productAddons, addon);
      var k := IndexOf(AddonIds(productAddons), addon.addonId);
      var productAddon := productAddons[k];
      var items := productAddon.addonItems;
      var j := 0;
      assert addon.addonItems[..0] == [];
      MergedItemsNone(productAddon.addonItems);
      while j < |addon.addonItems|
        invariant 0 <= j <= |addon.addonItems|
        invariant items == MergedItems(productAddon.addonItems, addon.addonItems[..j])
      {
        var addonItem := addon.addonItems[j];
        var n := IndexOf(ItemIds(items), addonItem.addonItemId);
        StepMergesItem(productAddon.addonItems, addon.addonItems, j, items);
        items := items[n := items[n].(name := Assign(items[n].name, addonItem.name))];
        j := j + 1;
      }
      assert addon.addonItems[..j] == addon.addonItems;
      StepMergesAddon(productUom.addons, addons, i, productAddons);
      productAddon := productAddon.(addonItems := items, name := Assign(productAddon.name, addon.name));
      productAddons := productAddons[k := productAddon];
      i := i + 1;
    }
    assert addons[..i] == addons;
    r := productUom.(addons := productAddons);
  }

  /**
   * The body of the UOM walk for the UOM it found: assigns a present image and
   * barcode onto their records and merges the addon entries. The entry's own name
   * is not assigned.
   */
  method UpdateUom(uom: UpdateUOMDto, productUom: UOM) returns (r: UOM)
    requires uom.addons.Some? ==> AddonPatchesResolve(productUom.addons, uom.addons.value)
    ensures r == PatchedUom(productUom, uom)
  {
    r := productUom;
    if uom.uomImage.Some? {
      r := r.(uomImage := r.uomImage.(url := uom.uomImage.value.url));
    }
    if uom.uomBarcode.Some? {
      r := r.(uomBarcode := r.uomBarcode.(barcode := uom.uomBarcode.value.barcode));
    }
    if uom.addons.Some? {
      r := UpdateAddon(uom.addons.value, r);
    }
  }

  /**
   * Walks the UOM entries in order; for each, finds the UOM by id and assigns a
   * present image and barcode onto its records, then merges its addon entries.
   * The entry's own name is not assigned.
   */
  method UpdateProductUoms(uoms: seq<UpdateUOMDto>, updatedProduct: Product) returns (r: Product)
    requires UomPatchesResolve(updatedProduct.uoms, uoms)
    ensures r == updatedProduct.(uoms := MergedUoms(updatedProduct.uoms, uoms))
  {
    var productUoms := updatedProduct.uoms;
    var i := 0;
    assert uoms[..0] == [];
    MergedUomsNone(updatedProduct.uoms);
    assert productUoms == MergedUoms(updatedProduct.uoms, uoms[..0]);
    while i < |uoms|
      invariant 0 <= i <= |uoms|
      invariant productUoms == MergedUoms(updatedProduct.uoms, uoms[..i])
    {
      var uom := uoms[i];
      UomPatchesResolveByShape(updatedProduct.uoms, productUoms, uoms);
      assert UomPatchResolves(productUoms, uom);
      var k := IndexOf(UomIds(productUoms), uom.uomId);
      var productUom := UpdateUom(uom, productUoms[k]);
      ghost var before := productUoms;
      productUoms := productUoms[k := productUom];
      StepMergesUom(updatedProduct.uoms, uoms, i, before);
      assert productUoms == MergedUoms(updatedProduct.uoms, uoms[..i + 1]);
      i := i + 1;
    }
    assert uoms[..i] == uoms;
    r := updatedProduct.(uoms := productUoms);
  }

  class ProductService {
    /** The repository: stored aggregates by primary key. */
    var products: map<int, Product>
    /** The next key the database will generate. */
    var nextId: int

    /** Keys match the stored ids and lie below the generator; product names are unique. */
    ghost predicate Valid()
      reads this
    {
      && (forall id | id in products :: products[id].id == id && id < nextId)
      && (forall a, b | a in products && b in products && products[a].name == products[b].name :: a == b)
    }

    constructor ()
      ensures Valid() && products == map[]
    {
      products := map[];
      nextId := 1;
    }

    /**
     * Refuses a name that is already stored (with NotFound, as the service throws);
     * otherwise stores the cascaded aggregate under a fresh key.
     */
    method Create(createProductDto: CreateProductDto) returns (r: Result<Product>)
      requires Valid()
      modifies this
      ensures Valid()
      ensures NameTaken(old(products), createProductDto.name) ==>
        r == Failure(NotFound(NameAlreadyExists)) && products == old(products)
      ensures !NameTaken(old(products), createProductDto.name) ==>
        && r.Success?
        && r.value.id !in old(products)
        && products == old(products)[r.value.id := r.value]
        && ProductBody(r.value) == createProductDto
    {
      if NameTaken(products, createProductDto.name) {
        return Failure(NotFound(NameAlreadyExists));
      }
      var newProduct := BuildProduct(createProductDto, nextId);
      CreateRoundTrip(createProductDto, nextId);
      products := products[nextId := newProduct];
      nextId := nextId + ProductSize(createProductDto);
      r := Success(newProduct);
    }

    method FindAll() returns (all: set<Product>)
      ensures all == products.Values
    {
      all := products.Values;
    }

    method FindOne(id: int) returns (r: Result<Product>)
      ensures id in products ==> r == Success(products[id])
      ensures id !in products ==> r == Failure(NotFound(ProductNotFound))
    {
      if id !in products {
        return Failure(NotFound(ProductNotFound));
      }
      r := Success(products[id]);
    }

    /**
     * Rejects an empty body before any lookup, then an unknown key; loads the
     * aggregate, runs the check over the UOM entries, merges them, assigns a present
     * name, and saves. Nothing is saved unless every step succeeds.
     */
    method Update(id: int, updateProductDto: UpdateProductDto) returns (r: Result<Product>)
      requires Valid()
      requires UpdateDefined(products, id, updateProductDto)
      modifies this`products
      ensures Valid()
      ensures r == UpdateResult(old(products), id, updateProductDto)
      ensures products == if r.Success? then old(products)[id := r.value] else old(products)
      ensures IsEmpty(updateProductDto) ==> r == Failure(BadRequest(NoDataToUpdate))
      ensures !IsEmpty(updateProductDto) && id !in old(products) ==> r == Failure(NotFound(ProductIdNotFound(id)))
    {
      if IsEmpty(updateProductDto) {
        return Failure(BadRequest(NoDataToUpdate));
      }
      if id !in products {
        return Failure(NotFound(ProductIdNotFound(id)));
      }
      var found := FindOne(id);
      var updatedProduct := found.value;
      if updateProductDto.uoms.Some? {
        var check := ValidateUpdateProductDto(updatedProduct, updateProductDto.uoms.value, id);
        if check.Fail? {
          return Failure(check.error);
        }
        updatedProduct := UpdateProductUoms(updateProductDto.uoms.value, updatedProduct);
      }
      if updateProductDto.name.Some? {
        updatedProduct := updatedProduct.(name := updateProductDto.name.value);
      }
      assert updatedProduct == MergedProduct(products[id], updateProductDto);
      if NameTakenByOther(products, id, updatedProduct.name) {
        return Failure(QueryFailed(DuplicateProductName));
      }
      products := products[id := updatedProduct];
      r := Success(updatedProduct);
    }

    /** Refuses an unknown key; otherwise deletes the product and returns what was stored. */
    method Remove(id: int) returns (r: Result<Product>)
      requires Valid()
      modifies this`products
      ensures Valid()
      ensures id in old(products) ==> r == Success(old(products)[id]) && products == old(products) - {id}
      ensures id !in old(products) ==> r == Failure(NotFound(ProductNotFound)) && products == old(products)
    {
      var deletedProduct := FindOne(id);
      if deletedProduct.Failure? {
        return deletedProduct;
      }
      products := products - {id};
      r := deletedProduct;
    }
  }

  /**
   * A caller's view: create a product, refuse a second one with the same name,
   * patch one barcode, then delete the product and no longer find it.
   */
  method CatalogScenario()
  {
    var service := new ProductService();
    var body := CreateProductDto("P1", [CreateUOMDto("U1", CreateUOMBarcodeDto("123"), CreateUOMImageDto("http://x/y.jpg"),
                                                     [CreateAddonDto("A1", [CreateAddonItemDto("I1")])])]);
    var created := service.Create(body);
    var p := created.value;
    assert ProductBody(p) == body;
    assert |p.uoms| == |UomsBody(p.uoms)| == 1;
    var u1 := p.uoms[0];
    assert UomsBody(p.uoms)[0] == body.uoms[0];
    assert u1.name == "U1" && u1.uomBarcode.barcode == "123" && u1.uomImage.url == "http://x/y.jpg";

    var again := service.Create(body);
    assert NameTaken(service.products, "P1");
    assert again == Failure(NotFound(NameAlreadyExists));

    var patch := UpdateProductDto(None, Some([UpdateUOMDto(u1.id, None, Some(CreateUOMBarcodeDto("999")), None, None)]));
    assert UomIds(p.uoms) == [u1.id];
    assert UomPatchesResolve(p.uoms, patch.uoms.value);
    ResolvingPatchIsValid(p, patch.uoms.value, p.id);
    var updated := service.Update(p.id, patch);
    assert !NameTakenByOther(map[p.id := p], p.id, "P1");
    MergedUomsSingle(p.uoms, patch.uoms.value[0]);
    assert IndexOf(UomIds(p.uoms), u1.id) == 0;
    assert MergedProduct(p, patch) == p.(uoms := [u1.(uomBarcode := UOMBarcode(u1.uomBarcode.id, "999"))]);
    assert updated == Success(p.(uoms := [u1.(uomBarcode := UOMBarcode(u1.uomBarcode.id, "999"))]));

    var removed := service.Remove(p.id);
    assert removed.Success?;
    var gone := service.FindOne(p.id);
    assert gone == Failure(NotFound(ProductNotFound));
  }
}
