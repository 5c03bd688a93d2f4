/**
 * Saving a create body: the cascade inserts the product and its whole subtree, and
 * the database gives every new record a generated key. The model draws those keys
 * in depth-first order from one counter starting at the product's own key.
 */
module Creation {
  import opened Entities
  import opened Dtos

  /** How many records an addon body inserts: the addon and its items. */
  function AddonSize(d: CreateAddonDto): nat
  {
    1 + |d.addonItems|
  }

  function AddonsSize(ds: seq<CreateAddonDto>): nat
  {
    if ds == [] then 0 else AddonSize(ds[0]) + AddonsSize(ds[1..])
  }

  /** A UOM body inserts the UOM, its barcode, its image and its addons. */
  function UomSize(d: CreateUOMDto): nat
  {
    3 + AddonsSize(d.addons)
  }

  function UomsSize(ds: seq<CreateUOMDto>): nat
  {
    if ds == [] then 0 else UomSize(ds[0]) + UomsSize(ds[1..])
  }

  function ProductSize(d: CreateProductDto): (n: nat)
    ensures n >= 1
  {
    1 + UomsSize(d.uoms)
  }

  function BuildItems(ds: seq<CreateAddonItemDto>, first: int): seq<AddonItem>
  {
    seq(|ds|, i requires 0 <= i < |ds| => AddonItem(first + i, ds[i].name))
  }

  function BuildAddon(d: CreateAddonDto, first: int): Addon
  {
    Addon(first, d.name, BuildItems(d.addonItems, first + 1))
  }

  function BuildAddons(ds: seq<CreateAddonDto>, first: int): seq<Addon>
  {
    if ds == [] then [] else [BuildAddon(ds[0], first)] + BuildAddons(ds[1..], first + AddonSize(ds[0]))
  }

  function BuildUom(d: CreateUOMDto, first: int): UOM
  {
    UOM(first, d.name, UOMBarcode(first + 1, d.uomBarcode.barcode), UOMImage(first + 2, d.uomImage.url),
        BuildAddons(d.addons, first + 3))
  }

  function BuildUoms(ds: seq<CreateUOMDto>, first: int): seq<UOM>
  {
    if ds == [] then [] else [BuildUom(ds[0], first)] + BuildUoms(ds[1..], first + UomSize(ds[0]))
  }

  /** The aggregate the cascade stores for a create body, with `id` as the product's key. */
  function BuildProduct(d: CreateProductDto, id: int): Product
  {
    Product(id, d.name, BuildUoms(d.uoms, id + 1))
  }

  /*
   * Reading a stored aggregate back as the body that describes it: every field but
   * the keys.
   */

  function ItemsBody(items: seq<AddonItem>): seq<CreateAddonItemDto>
  {
    seq(|items|, i requires 0 <= i < |items| => CreateAddonItemDto(items[i].name))
  }

  function AddonsBody(addons: seq<Addon>): seq<CreateAddonDto>
  {
    seq(|addons|, i requires 0 <= i < |addons| => CreateAddonDto(addons[i].name, ItemsBody(addons[i].addonItems)))
  }

  function UomsBody(uoms: seq<UOM>): seq<CreateUOMDto>
  {
    seq(|uoms|, i requires 0 <= i < |uoms| =>
      CreateUOMDto(uoms[i].name, CreateUOMBarcodeDto(uoms[i].uomBarcode.barcode),
                   CreateUOMImageDto(uoms[i].uomImage.url), AddonsBody(uoms[i].addons)))
  }

  function ProductBody(p: Product): CreateProductDto
  {
    CreateProductDto(p.name, UomsBody(p.uoms))
  }

  lemma {:induction false} AddonsRoundTrip(ds: seq<CreateAddonDto>, first: int)
    ensures AddonsBody(BuildAddons(ds, first)) == ds
  {
    if ds != [] {
      AddonsRoundTrip(ds[1..], first + AddonSize(ds[0]));
      var built := BuildAddons(ds, first);
      assert ItemsBody(built[0].addonItems) == ds[0].addonItems;
      forall i | 1 <= i < |ds|
        ensures AddonsBody(built)[i] == ds[i]
      {
        assert built[i] == BuildAddons(ds[1..], first + AddonSize(ds[0]))[i - 1];
      }
    }
  }

  lemma {:induction false} UomsRoundTrip(ds: seq<CreateUOMDto>, first: int)
    ensures UomsBody(BuildUoms(ds, first)) == ds
  {
    if ds != [] {
      UomsRoundTrip(ds[1..], first + UomSize(ds[0]));
      AddonsRoundTrip(ds[0].addons, first + 3);
      var built := BuildUoms(ds, first);
      forall i | 1 <= i < |ds|
        ensures UomsBody(built)[i] == ds[i]
      {
        assert built[i] == BuildUoms(ds[1..], first + UomSize(ds[0]))[i - 1];
      }
    }
  }

  /** Reading back a freshly created product gives exactly the body it was created from. */
  lemma CreateRoundTrip(d: CreateProductDto, id: int)
    ensures ProductBody(BuildProduct(d, id)) == d
  {
    UomsRoundTrip(d.uoms, id + 1);
  }
}
