/**
 * The partial-update merge, stated declaratively. Every step of the service's walk
 * is an `Object.assign` of the patch's present keys onto one record found by id, so
 * after a whole patch each leaf holds the LAST value written to it, or its old value
 * if nothing was written. Records are addressed the way `find` addresses them: a
 * patch entry lands on the first record with its id.
 */
module Merge {
  import opened Common
  import opened Entities
  import opened Dtos

  /** One key of a shallow merge: a present value overwrites, an absent one leaves the key. */
  function Assign(current: string, value: Option<string>): string
  {
    if value.Some? then value.value else current
  }

  /** The value a key holds after the given writes are assigned onto `initial` in order. */
  function Latest(writes: seq<Option<string>>, initial: string): string
  {
    if writes == [] then initial
    else Assign(Latest(writes[..|writes| - 1], initial), writes[|writes| - 1])
  }

  /** Writing `a` then `b` is writing `a + b`. */
  lemma {:induction false} LatestConcat(a: seq<Option<string>>, b: seq<Option<string>>, initial: string)
    ensures Latest(a + b, initial) == Latest(b, Latest(a, initial))
  {
    if b == [] {
      assert a + b == a;
    } else {
      var b' := b[..|b| - 1];
      assert (a + b)[..|a + b| - 1] == a + b';
      LatestConcat(a, b', initial);
    }
  }

  /** Writing the same values a second time changes nothing. */
  lemma {:induction false} LatestIdempotent(writes: seq<Option<string>>, initial: string)
    ensures Latest(writes, Latest(writes, initial)) == Latest(writes, initial)
  {
    if writes != [] && writes[|writes| - 1].None? {
      LatestIdempotent(writes[..|writes| - 1], initial);
    }
  }

  /** Without a present value the key keeps its initial value. */
  lemma {:induction false} LatestUnwritten(writes: seq<Option<string>>, initial: string)
    requires forall i | 0 <= i < |writes| :: writes[i].None?
    ensures Latest(writes, initial) == initial
  {
    if writes != [] {
      LatestUnwritten(writes[..|writes| - 1], initial);
    }
  }

  /** The last present value wins. */
  lemma {:induction false} LatestLastWrite(writes: seq<Option<string>>, initial: string, i: nat)
    requires i < |writes| && writes[i].Some?
    requires forall j | i < j < |writes| :: writes[j].None?
    ensures Latest(writes, initial) == writes[i].value
  {
    if i < |writes| - 1 {
      LatestLastWrite(writes[..|writes| - 1], initial, i);
    }
  }

  lemma LatestSingle(w: Option<string>, initial: string)
    ensures Latest([w], initial) == Assign(initial, w)
  {
    assert [w][..0] == [];
  }

  // ---------------------------------------------------------------------------
  // Addon items

  /** The names an item patch list writes to the item with this id, in order. */
  function ItemNameWrites(ps: seq<UpdateAddonItemDto>, id: int): seq<Option<string>>
  {
    seq(|ps|, i requires 0 <= i < |ps| => if ps[i].addonItemId == id then ps[i].name else None)
  }

  lemma ItemNameWritesConcat(a: seq<UpdateAddonItemDto>, b: seq<UpdateAddonItemDto>, id: int)
    ensures ItemNameWrites(a + b, id) == ItemNameWrites(a, id) + ItemNameWrites(b, id)
  {
  }

  /** The items after each patch entry renamed the first item with its id. */
  function MergedItems(items: seq<AddonItem>, ps: seq<UpdateAddonItemDto>): (r: seq<AddonItem>)
    ensures ItemIds(r) == ItemIds(items)
  {
    seq(|items|, k requires 0 <= k < |items| =>
      if IsFirstWithId(ItemIds(items), k)
      then items[k].(name := Latest(ItemNameWrites(ps, items[k].id), items[k].name))
      else items[k])
  }

  lemma MergedItemsNone(items: seq<AddonItem>)
    ensures MergedItems(items, []) == items
  {
  }

  /**
   * One entry: the first item with the entry's id takes the entry's name if it has
   * one; every other item is unchanged.
   */
  lemma MergedItemsSingle(items: seq<AddonItem>, p: UpdateAddonItemDto)
    requires p.addonItemId in ItemIds(items)
    ensures var k := IndexOf(ItemIds(items), p.addonItemId);
      MergedItems(items, [p]) == items[k := items[k].(name := Assign(items[k].name, p.name))]
  {
    var k := IndexOf(ItemIds(items), p.addonItemId);
    var r := MergedItems(items, [p]);
    forall j | 0 <= j < |items|
      ensures r[j] == items[k := items[k].(name := Assign(items[k].name, p.name))][j]
    {
      LatestSingle(ItemNameWrites([p], items[j].id)[0], items[j].name);
      assert ItemNameWrites([p], items[j].id) == [ItemNameWrites([p], items[j].id)[0]];
      IndexOfFirst(ItemIds(items), j);
    }
  }

  /** Merging `a` and then `b` is merging `a + b`. */
  lemma MergedItemsConcat(items: seq<AddonItem>, a: seq<UpdateAddonItemDto>, b: seq<UpdateAddonItemDto>)
    ensures MergedItems(MergedItems(items, a), b) == MergedItems(items, a + b)
  {
    var m := MergedItems(items, a);
    forall k | 0 <= k < |items|
      ensures MergedItems(m, b)[k] == MergedItems(items, a + b)[k]
    {
      ItemNameWritesConcat(a, b, items[k].id);
      LatestConcat(ItemNameWrites(a, items[k].id), ItemNameWrites(b, items[k].id), items[k].name);
    }
  }

  lemma MergedItemsIdempotent(items: seq<AddonItem>, ps: seq<UpdateAddonItemDto>)
    ensures MergedItems(MergedItems(items, ps), ps) == MergedItems(items, ps)
  {
    var m := MergedItems(items, ps);
    forall k | 0 <= k < |items|
      ensures MergedItems(m, ps)[k] == m[k]
    {
      LatestIdempotent(ItemNameWrites(ps, items[k].id), items[k].name);
    }
  }

  // ---------------------------------------------------------------------------
  // Addons

  /** The names an addon patch list writes to the addon with this id, in order. */
  function AddonNameWrites(ps: seq<UpdateAddonDto>, id: int): seq<Option<string>>
  {
    seq(|ps|, i requires 0 <= i < |ps| => if ps[i].addonId == id then ps[i].name else None)
  }

  lemma AddonNameWritesConcat(a: seq<UpdateAddonDto>, b: seq<UpdateAddonDto>, id: int)
    ensures AddonNameWrites(a + b, id) == AddonNameWrites(a, id) + AddonNameWrites(b, id)
  {
  }

  /** The item entries of every addon patch addressed to this id, in patch order. */
  function ItemPatchesFor(ps: seq<UpdateAddonDto>, id: int): seq<UpdateAddonItemDto>
  {
    if ps == [] then []
    else ItemPatchesFor(ps[..|ps| - 1], id) + (if ps[|ps| - 1].addonId == id then ps[|ps| - 1].addonItems else [])
  }

  lemma {:induction false} ItemPatchesForConcat(a: seq<UpdateAddonDto>, b: seq<UpdateAddonDto>, id: int)
    ensures ItemPatchesFor(a + b, id) == ItemPatchesFor(a, id) + ItemPatchesFor(b, id)
  {
    if b == [] {
      assert a + b == a;
    } else {
      var b' := b[..|b| - 1];
      assert (a + b)[..|a + b| - 1] == a + b';
      ItemPatchesForConcat(a, b', id);
    }
  }

  /**
   * The addons after each patch entry merged its item entries into the first addon
   * with its id and then assigned its name.
   */
  function MergedAddons(addons: seq<Addon>, ps: seq<UpdateAddonDto>): (r: seq<Addon>)
    ensures AddonShapes(r) == AddonShapes(addons)
  {
    var r := seq(|addons|, k requires 0 <= k < |addons| =>
      if IsFirstWithId(AddonIds(addons), k)
      then addons[k].(
        name := Latest(AddonNameWrites(ps, addons[k].id), addons[k].name),
        addonItems := MergedItems(addons[k].addonItems, ItemPatchesFor(ps, addons[k].id)))
      else addons[k]);
    assert forall k | 0 <= k < |addons| :: AddonShapes(r)[k] == AddonShapes(addons)[k];
    r
  }

  lemma MergedAddonsNone(addons: seq<Addon>)
    ensures MergedAddons(addons, []) == addons
  {
    forall k | 0 <= k < |addons|
      ensures MergedAddons(addons, [])[k] == addons[k]
    {
      MergedItemsNone(addons[k].addonItems);
    }
  }

  /**
   * One entry: the first addon with the entry's id has the entry's items merged into
   * its items and the entry's name, if any, assigned; every other addon is unchanged.
   */
  lemma MergedAddonsSingle(addons: seq<Addon>, p: UpdateAddonDto)
    requires p.addonId in AddonIds(addons)
    ensures var k := IndexOf(AddonIds(addons), p.addonId);
      MergedAddons(addons, [p]) == addons[k := addons[k].(
        addonItems := MergedItems(addons[k].addonItems, p.addonItems),
        name := Assign(addons[k].name, p.name))]
  {
    var k := IndexOf(AddonIds(addons), p.addonId);
    var r := MergedAddons(addons, [p]);
    var expected := addons[k := addons[k].(
        addonItems := MergedItems(addons[k].addonItems, p.addonItems),
        name := Assign(addons[k].name, p.name))];
    forall j | 0 <= j < |addons|
      ensures r[j] == expected[j]
    {
      var id := addons[j].id;
      LatestSingle(AddonNameWrites([p], id)[0], addons[j].name);
      assert AddonNameWrites([p], id) == [AddonNameWrites([p], id)[0]];
      assert [p][..0] == [];
      assert ItemPatchesFor([p], id) == if p.addonId == id then p.addonItems else [];
      MergedItemsNone(addons[j].addonItems);
      IndexOfFirst(AddonIds(addons), j);
    }
  }

  /** Merging `a` and then `b` is merging `a + b`. */
  lemma MergedAddonsConcat(addons: seq<Addon>, a: seq<UpdateAddonDto>, b: seq<UpdateAddonDto>)
    ensures MergedAddons(MergedAddons(addons, a), b) == MergedAddons(addons, a + b)
  {
    var m := MergedAddons(addons, a);
    AddonShapesAgree(m, addons);
    forall k | 0 <= k < |addons|
      ensures MergedAddons(m, b)[k] == MergedAddons(addons, a + b)[k]
    {
      var id := addons[k].id;
      AddonNameWritesConcat(a, b, id);
      LatestConcat(AddonNameWrites(a, id), AddonNameWrites(b, id), addons[k].name);
      ItemPatchesForConcat(a, b, id);
      MergedItemsConcat(addons[k].addonItems, ItemPatchesFor(a, id), ItemPatchesFor(b, id));
    }
  }

  lemma MergedAddonsIdempotent(addons: seq<Addon>, ps: seq<UpdateAddonDto>)
    ensures MergedAddons(MergedAddons(addons, ps), ps) == MergedAddons(addons, ps)
  {
    var m := MergedAddons(addons, ps);
    AddonShapesAgree(m, addons);
    forall k | 0 <= k < |addons|
      ensures MergedAddons(m, ps)[k] == m[k]
    {
      var id := addons[k].id;
      LatestIdempotent(AddonNameWrites(ps, id), addons[k].name);
      MergedItemsIdempotent(addons[k].addonItems, ItemPatchesFor(ps, id));
    }
  }

  // ---------------------------------------------------------------------------
  // UOMs

  /** The barcodes a UOM patch list writes to the UOM with this id, in order. */
  function BarcodeWrites(ps: seq<UpdateUOMDto>, id: int): seq<Option<string>>
  {
    seq(|ps|, i requires 0 <= i < |ps| =>
      if ps[i].uomId == id && ps[i].uomBarcode.Some? then Some(ps[i].uomBarcode.value.barcode) else None)
  }

  /** The image urls a UOM patch list writes to the UOM with this id, in order. */
  function UrlWrites(ps: seq<UpdateUOMDto>, id: int): seq<Option<string>>
  {
    seq(|ps|, i requires 0 <= i < |ps| =>
      if ps[i].uomId == id && ps[i].uomImage.Some? then Some(ps[i].uomImage.value.url) else None)
  }

  lemma UomWritesConcat(a: seq<UpdateUOMDto>, b: seq<UpdateUOMDto>, id: int)
    ensures BarcodeWrites(a + b, id) == BarcodeWrites(a, id) + BarcodeWrites(b, id)
    ensures UrlWrites(a + b, id) == UrlWrites(a, id) + UrlWrites(b, id)
  {
  }

  /** The addon entries of every UOM patch addressed to this id that has addons, in patch order. */
  function AddonPatchesFor(ps: seq<UpdateUOMDto>, id: int): seq<UpdateAddonDto>
  {
    if ps == [] then []
    else
      var last := ps[|ps| - 1];
      AddonPatchesFor(ps[..|ps| - 1], id) + (if last.uomId == id && last.addons.Some? then last.addons.value else [])
  }

  lemma {:induction false} AddonPatchesForConcat(a: seq<UpdateUOMDto>, b: seq<UpdateUOMDto>, id: int)
    ensures AddonPatchesFor(a + b, id) == AddonPatchesFor(a, id) + AddonPatchesFor(b, id)
  {
    if b == [] {
      assert a + b == a;
    } else {
      var b' := b[..|b| - 1];
      assert (a + b)[..|a + b| - 1] == a + b';
      AddonPatchesForConcat(a, b', id);
    }
  }

  /**
   * The UOMs after each patch entry assigned its image url and its barcode onto the
   * first UOM with its id and merged its addon entries into that UOM's addons. A
   * UOM's own name is never assigned, whatever the patch holds.
   */
  function MergedUoms(uoms: seq<UOM>, ps: seq<UpdateUOMDto>): (r: seq<UOM>)
    ensures UomShapes(r) == UomShapes(uoms)
    ensures forall k | 0 <= k < |r| :: r[k].name == uoms[k].name
  {
    var r := seq(|uoms|, k requires 0 <= k < |uoms| =>
      if IsFirstWithId(UomIds(uoms), k)
      then uoms[k].(
        uomImage := uoms[k].uomImage.(url := Latest(UrlWrites(ps, uoms[k].id), uoms[k].uomImage.url)),
        uomBarcode := uoms[k].uomBarcode.(barcode := Latest(BarcodeWrites(ps, uoms[k].id), uoms[k].uomBarcode.barcode)),
        addons := MergedAddons(uoms[k].addons, AddonPatchesFor(ps, uoms[k].id)))
      else uoms[k]);
    assert forall k | 0 <= k < |uoms| :: UomShapes(r)[k] == UomShapes(uoms)[k];
    r
  }

  lemma MergedUomsNone(uoms: seq<UOM>)
    ensures MergedUoms(uoms, []) == uoms
  {
    forall k | 0 <= k < |uoms|
      ensures MergedUoms(uoms, [])[k] == uoms[k]
    {
      MergedAddonsNone(uoms[k].addons);
    }
  }

  /** The UOM a single patch entry produces from the UOM it found. */
  function PatchedUom(u: UOM, p: UpdateUOMDto): UOM
  {
    u.(
      uomImage := if p.uomImage.Some? then u.uomImage.(url := p.uomImage.value.url) else u.uomImage,
      uomBarcode := if p.uomBarcode.Some? then u.uomBarcode.(barcode := p.uomBarcode.value.barcode) else u.uomBarcode,
      addons := if p.addons.Some? then MergedAddons(u.addons, p.addons.value) else u.addons)
  }

  /**
   * One entry: the first UOM with the entry's id is patched; every other UOM is
   * unchanged.
   */
  lemma MergedUomsSingle(uoms: seq<UOM>, p: UpdateUOMDto)
    requires p.uomId in UomIds(uoms)
    ensures var k := IndexOf(UomIds(uoms), p.uomId);
      MergedUoms(uoms, [p]) == uoms[k := PatchedUom(uoms[k], p)]
  {
    var k := IndexOf(UomIds(uoms), p.uomId);
    var r := MergedUoms(uoms, [p]);
    var expected := uoms[k := PatchedUom(uoms[k], p)];
    forall j | 0 <= j < |uoms|
      ensures r[j] == expected[j]
    {
      var id := uoms[j].id;
      LatestSingle(UrlWrites([p], id)[0], uoms[j].uomImage.url);
      assert UrlWrites([p], id) == [UrlWrites([p], id)[0]];
      LatestSingle(BarcodeWrites([p], id)[0], uoms[j].uomBarcode.barcode);
      assert BarcodeWrites([p], id) == [BarcodeWrites([p], id)[0]];
      assert [p][..0] == [];
      assert AddonPatchesFor([p], id) == if p.uomId == id && p.addons.Some? then p.addons.value else [];
      MergedAddonsNone(uoms[j].addons);
      IndexOfFirst(UomIds(uoms), j);
    }
  }

  /** Merging `a` and then `b` is merging `a + b`. */
  lemma MergedUomsConcat(uoms: seq<UOM>, a: seq<UpdateUOMDto>, b: seq<UpdateUOMDto>)
    ensures MergedUoms(MergedUoms(uoms, a), b) == MergedUoms(uoms, a + b)
  {
    var m := MergedUoms(uoms, a);
    UomShapesAgree(m, uoms);
    forall k | 0 <= k < |uoms|
      ensures MergedUoms(m, b)[k] == MergedUoms(uoms, a + b)[k]
    {
      var id := uoms[k].id;
      UomWritesConcat(a, b, id);
      LatestConcat(UrlWrites(a, id), UrlWrites(b, id), uoms[k].uomImage.url);
      LatestConcat(BarcodeWrites(a, id), BarcodeWrites(b, id), uoms[k].uomBarcode.barcode);
      AddonPatchesForConcat(a, b, id);
      MergedAddonsConcat(uoms[k].addons, AddonPatchesFor(a, id), AddonPatchesFor(b, id));
    }
  }

  lemma MergedUomsIdempotent(uoms: seq<UOM>, ps: seq<UpdateUOMDto>)
    ensures MergedUoms(MergedUoms(uoms, ps), ps) == MergedUoms(uoms, ps)
  {
    var m := MergedUoms(uoms, ps);
    UomShapesAgree(m, uoms);
    forall k | 0 <= k < |uoms|
      ensures MergedUoms(m, ps)[k] == m[k]
    {
      var id := uoms[k].id;
      LatestIdempotent(UrlWrites(ps, id), uoms[k].uomImage.url);
      LatestIdempotent(BarcodeWrites(ps, id), uoms[k].uomBarcode.barcode);
      MergedAddonsIdempotent(uoms[k].addons, AddonPatchesFor(ps, id));
    }
  }

  /** A UOM that no patch entry addresses comes out unchanged. */
  lemma MergedUomsUntouched(uoms: seq<UOM>, ps: seq<UpdateUOMDto>, k: nat)
    requires k < |uoms|
    requires forall i | 0 <= i < |ps| :: ps[i].uomId != uoms[k].id
    ensures MergedUoms(uoms, ps)[k] == uoms[k]
  {
    var id := uoms[k].id;
    LatestUnwritten(UrlWrites(ps, id), uoms[k].uomImage.url);
    LatestUnwritten(BarcodeWrites(ps, id), uoms[k].uomBarcode.barcode);
    AddonPatchesForUnaddressed(ps, id);
    MergedAddonsNone(uoms[k].addons);
  }

  lemma {:induction false} AddonPatchesForUnaddressed(ps: seq<UpdateUOMDto>, id: int)
    requires forall i | 0 <= i < |ps| :: ps[i].uomId != id
    ensures AddonPatchesFor(ps, id) == []
  {
    if ps != [] {
      AddonPatchesForUnaddressed(ps[..|ps| - 1], id);
    }
  }

  /** An addon that no addon entry addresses comes out unchanged. */
  lemma MergedAddonsUntouched(addons: seq<Addon>, ps: seq<UpdateAddonDto>, k: nat)
    requires k < |addons|
    requires forall i | 0 <= i < |ps| :: ps[i].addonId != addons[k].id
    ensures MergedAddons(addons, ps)[k] == addons[k]
  {
    var id := addons[k].id;
    LatestUnwritten(AddonNameWrites(ps, id), addons[k].name);
    ItemPatchesForUnaddressed(ps, id);
    MergedItemsNone(addons[k].addonItems);
  }

  lemma {:induction false} ItemPatchesForUnaddressed(ps: seq<UpdateAddonDto>, id: int)
    requires forall i | 0 <= i < |ps| :: ps[i].addonId != id
    ensures ItemPatchesFor(ps, id) == []
  {
    if ps != [] {
      ItemPatchesForUnaddressed(ps[..|ps| - 1], id);
    }
  }

  /** An item that no item entry addresses comes out unchanged. */
  lemma MergedItemsUntouched(items: seq<AddonItem>, ps: seq<UpdateAddonItemDto>, k: nat)
    requires k < |items|
    requires forall i | 0 <= i < |ps| :: ps[i].addonItemId != items[k].id
    ensures MergedItems(items, ps)[k] == items[k]
  {
    LatestUnwritten(ItemNameWrites(ps, items[k].id), items[k].name);
  }

  /**
   * The barcode of a patched UOM holds the value of the last entry for that UOM that
   * carries a barcode, and keeps its record id.
   */
  lemma BarcodeLastWriteWins(uoms: seq<UOM>, ps: seq<UpdateUOMDto>, k: nat, i: nat)
    requires k < |uoms| && IsFirstWithId(UomIds(uoms), k)
    requires i < |ps| && ps[i].uomId == uoms[k].id && ps[i].uomBarcode.Some?
    requires forall j | i < j < |ps| :: ps[j].uomId != uoms[k].id || ps[j].uomBarcode.None?
    ensures MergedUoms(uoms, ps)[k].uomBarcode == UOMBarcode(uoms[k].uomBarcode.id, ps[i].uomBarcode.value.barcode)
  {
    LatestLastWrite(BarcodeWrites(ps, uoms[k].id), uoms[k].uomBarcode.barcode, i);
  }

  /** Without an entry for the UOM that carries a barcode, the barcode record is unchanged. */
  lemma BarcodeKeptWithoutWrite(uoms: seq<UOM>, ps: seq<UpdateUOMDto>, k: nat)
    requires k < |uoms|
    requires forall i | 0 <= i < |ps| :: ps[i].uomId != uoms[k].id || ps[i].uomBarcode.None?
    ensures MergedUoms(uoms, ps)[k].uomBarcode == uoms[k].uomBarcode
  {
    LatestUnwritten(BarcodeWrites(ps, uoms[k].id), uoms[k].uomBarcode.barcode);
  }

  /**
   * The image of a patched UOM holds the url of the last entry for that UOM that
   * carries an image, and keeps its record id.
   */
  lemma ImageLastWriteWins(uoms: seq<UOM>, ps: seq<UpdateUOMDto>, k: nat, i: nat)
    requires k < |uoms| && IsFirstWithId(UomIds(uoms), k)
    requires i < |ps| && ps[i].uomId == uoms[k].id && ps[i].uomImage.Some?
    requires forall j | i < j < |ps| :: ps[j].uomId != uoms[k].id || ps[j].uomImage.None?
    ensures MergedUoms(uoms, ps)[k].uomImage == UOMImage(uoms[k].uomImage.id, ps[i].uomImage.value.url)
  {
    LatestLastWrite(UrlWrites(ps, uoms[k].id), uoms[k].uomImage.url, i);
  }

  /** Without an entry for the UOM that carries an image, the image record is unchanged. */
  lemma ImageKeptWithoutWrite(uoms: seq<UOM>, ps: seq<UpdateUOMDto>, k: nat)
    requires k < |uoms|
    requires forall i | 0 <= i < |ps| :: ps[i].uomId != uoms[k].id || ps[i].uomImage.None?
    ensures MergedUoms(uoms, ps)[k].uomImage == uoms[k].uomImage
  {
    LatestUnwritten(UrlWrites(ps, uoms[k].id), uoms[k].uomImage.url);
  }

  // ---------------------------------------------------------------------------
  // Product

  /**
   * The product after its UOM entries were merged and a present top-level name was
   * assigned. The UOM list itself is never replaced: only leaves inside it change.
   */
  function MergedProduct(product: Product, dto: UpdateProductDto): (r: Product)
    ensures r.id == product.id
    ensures UomShapes(r.uoms) == UomShapes(product.uoms)
    ensures dto.uoms.None? ==> r.uoms == product.uoms
    ensures r.name == if dto.name.Some? then dto.name.value else product.name
  {
    var withUoms := if dto.uoms.Some? then product.(uoms := MergedUoms(product.uoms, dto.uoms.value)) else product;
    withUoms.(name := Assign(withUoms.name, dto.name))
  }

  /** Applying the same body to the already merged product gives that product again. */
  lemma MergedProductIdempotent(product: Product, dto: UpdateProductDto)
    ensures MergedProduct(MergedProduct(product, dto), dto) == MergedProduct(product, dto)
  {
    if dto.uoms.Some? {
      MergedUomsIdempotent(product.uoms, dto.uoms.value);
    }
  }

  // ---------------------------------------------------------------------------
  // What the merge walk needs: every entry finds its record

  predicate ItemPatchesResolve(items: seq<AddonItem>, ps: seq<UpdateAddonItemDto>)
  {
    forall i | 0 <= i < |ps| :: ps[i].addonItemId in ItemIds(items)
  }

  predicate AddonPatchResolves(addons: seq<Addon>, p: UpdateAddonDto)
  {
    p.addonId in AddonIds(addons)
    && ItemPatchesResolve(addons[IndexOf(AddonIds(addons), p.addonId)].addonItems, p.addonItems)
  }

  predicate AddonPatchesResolve(addons: seq<Addon>, ps: seq<UpdateAddonDto>)
  {
    forall i | 0 <= i < |ps| :: AddonPatchResolves(addons, ps[i])
  }

  predicate UomPatchResolves(uoms: seq<UOM>, p: UpdateUOMDto)
  {
    p.uomId in UomIds(uoms)
    && (p.addons.Some? ==> AddonPatchesResolve(uoms[IndexOf(UomIds(uoms), p.uomId)].addons, p.addons.value))
  }

  predicate UomPatchesResolve(uoms: seq<UOM>, ps: seq<UpdateUOMDto>)
  {
    forall i | 0 <= i < |ps| :: UomPatchResolves(uoms, ps[i])
  }

  /** Whether entries resolve depends only on the skeleton. */
  lemma AddonPatchesResolveByShape(a: seq<Addon>, b: seq<Addon>, ps: seq<UpdateAddonDto>)
    requires AddonShapes(a) == AddonShapes(b)
    requires AddonPatchesResolve(a, ps)
    ensures AddonPatchesResolve(b, ps)
  {
    AddonShapesAgree(a, b);
  }

  lemma UomPatchesResolveByShape(a: seq<UOM>, b: seq<UOM>, ps: seq<UpdateUOMDto>)
    requires UomShapes(a) == UomShapes(b)
    requires UomPatchesResolve(a, ps)
    ensures UomPatchesResolve(b, ps)
  {
    UomShapesAgree(a, b);
    forall i | 0 <= i < |ps|
      ensures UomPatchResolves(b, ps[i])
    {
      if ps[i].addons.Some? {
        var k := IndexOf(UomIds(a), ps[i].uomId);
        AddonPatchesResolveByShape(a[k].addons, b[k].addons, ps[i].addons.value);
      }
    }
  }
}
