/**
 * The read-only pass that precedes the merge: every UOM entry must name a UOM of
 * the product, and every addon entry must name an addon of that same UOM. Entries
 * are checked in patch order and the first miss is thrown. Addon item ids are not
 * checked.
 */
module Validation {
  import opened Common
  import opened Entities
  import opened Dtos
  import opened Merge

  /** The entry names a UOM of the product, and each of its addon entries an addon of that UOM. */
  predicate UomPatchKnown(uoms: seq<UOM>, p: UpdateUOMDto)
  {
    p.uomId in UomIds(uoms)
    && (p.addons.Some? ==>
          var addons := uoms[IndexOf(UomIds(uoms), p.uomId)].addons;
          forall i | 0 <= i < |p.addons.value| :: p.addons.value[i].addonId in AddonIds(addons))
  }

  /** The inner loop: the first addon entry whose id is not among the UOM's addons. */
  function CheckAddons(addons: seq<Addon>, ps: seq<UpdateAddonDto>, productId: int, uomId: int): (r: Outcome)
    ensures r.Pass? <==> forall i | 0 <= i < |ps| :: ps[i].addonId in AddonIds(addons)
    ensures r.Fail? ==> exists i | 0 <= i < |ps| ::
      && (forall j | 0 <= j < i :: ps[j].addonId in AddonIds(addons))
      && ps[i].addonId !in AddonIds(addons)
      && r.error == NotFound(AddonNotFound(ps[i].addonId, productId, uomId))
  {
    if ps == [] then Pass
    else if ps[0].addonId !in AddonIds(addons) then Fail(NotFound(AddonNotFound(ps[0].addonId, productId, uomId)))
    else
      var r := CheckAddons(addons, ps[1..], productId, uomId);
      assert forall i | 1 <= i <= |ps[1..]| :: ps[1..][i - 1] == ps[i];
      r
  }

  /** One iteration of the outer loop: find the UOM, then check its addon entries. */
  function CheckUom(uoms: seq<UOM>, p: UpdateUOMDto, productId: int): (r: Outcome)
    ensures r.Pass? <==> UomPatchKnown(uoms, p)
    ensures p.uomId !in UomIds(uoms) ==> r == Fail(NotFound(UomNotFound(p.uomId, productId)))
    ensures r.Fail? ==> r.error.NotFound?
  {
    if p.uomId !in UomIds(uoms) then Fail(NotFound(UomNotFound(p.uomId, productId)))
    else if p.addons.Some? then CheckAddons(uoms[IndexOf(UomIds(uoms), p.uomId)].addons, p.addons.value, productId, p.uomId)
    else Pass
  }

  /**
   * The whole pass: passes exactly when every entry is known, and otherwise throws
   * the error of the first entry that is not.
   */
  function ValidateUpdateProductDto(product: Product, ps: seq<UpdateUOMDto>, productId: int): (r: Outcome)
    ensures r.Pass? <==> forall i | 0 <= i < |ps| :: UomPatchKnown(product.uoms, ps[i])
    ensures r.Fail? ==> exists i | 0 <= i < |ps| ::
      && (forall j | 0 <= j < i :: UomPatchKnown(product.uoms, ps[j]))
      && !UomPatchKnown(product.uoms, ps[i])
      && r == CheckUom(product.uoms, ps[i], productId)
  {
    if ps == [] then Pass
    else
      var first := CheckUom(product.uoms, ps[0], productId);
      if first.Fail? then first
      else
        var r := ValidateUpdateProductDto(product, ps[1..], productId);
        assert forall i | 1 <= i <= |ps[1..]| :: ps[1..][i - 1] == ps[i];
        r
  }

  /** What the merge needs is more than what the pass checks: it implies the pass succeeds. */
  lemma ResolvingPatchIsValid(product: Product, ps: seq<UpdateUOMDto>, productId: int)
    requires UomPatchesResolve(product.uoms, ps)
    ensures ValidateUpdateProductDto(product, ps, productId) == Pass
  {
    forall i | 0 <= i < |ps|
      ensures UomPatchKnown(product.uoms, ps[i])
    {
      assert UomPatchResolves(product.uoms, ps[i]);
      if ps[i].addons.Some? {
        var addons := product.uoms[IndexOf(UomIds(product.uoms), ps[i].uomId)].addons;
        forall j | 0 <= j < |ps[i].addons.value|
          ensures ps[i].addons.value[j].addonId in AddonIds(addons)
        {
          assert AddonPatchResolves(addons, ps[i].addons.value[j]);
        }
      }
    }
  }

  /**
   * The converse fails: a body that names an addon item the addon does not have
   * passes the check, and no record is there for the merge to assign onto.
   */
  lemma UnknownAddonItemPassesValidation()
    ensures var product := Product(1, "P1", [UOM(2, "U1", UOMBarcode(3, "123"), UOMImage(4, "http://x/y.jpg"),
                                                   [Addon(5, "A1", [AddonItem(6, "I1")])])]);
            var ps := [UpdateUOMDto(2, None, None, None, Some([UpdateAddonDto(5, None, [UpdateAddonItemDto(99, Some("I2"))])]))];
            ValidateUpdateProductDto(product, ps, 1) == Pass && !UomPatchesResolve(product.uoms, ps)
  {
    var product := Product(1, "P1", [UOM(2, "U1", UOMBarcode(3, "123"), UOMImage(4, "http://x/y.jpg"),
                                         [Addon(5, "A1", [AddonItem(6, "I1")])])]);
    var ps := [UpdateUOMDto(2, None, None, None, Some([UpdateAddonDto(5, None, [UpdateAddonItemDto(99, Some("I2"))])]))];
    assert UomIds(product.uoms) == [2];
    assert AddonIds(product.uoms[0].addons) == [5];
    assert ItemIds(product.uoms[0].addons[0].addonItems) == [6];
    assert UomPatchKnown(product.uoms, ps[0]);
    assert IndexOf(AddonIds(product.uoms[0].addons), 5) == 0;
    assert 99 !in ItemIds(product.uoms[0].addons[0].addonItems);
    var entry := ps[0].addons.value[0];
    assert entry.addonItems[0].addonItemId == 99;
    assert !ItemPatchesResolve(product.uoms[0].addons[0].addonItems, entry.addonItems);
    assert !AddonPatchResolves(product.uoms[0].addons, ps[0].addons.value[0]);
  }

  /** The pass looks at ids only, so a product with the same skeleton gets the same verdict. */
  lemma ValidationByShape(a: Product, b: Product, ps: seq<UpdateUOMDto>, productId: int)
    requires UomShapes(a.uoms) == UomShapes(b.uoms)
    ensures ValidateUpdateProductDto(a, ps, productId) == ValidateUpdateProductDto(b, ps, productId)
  {
    UomShapesAgree(a.uoms, b.uoms);
    forall p: UpdateUOMDto
      ensures CheckUom(a.uoms, p, productId) == CheckUom(b.uoms, p, productId)
    {
      if p.uomId in UomIds(a.uoms) && p.addons.Some? {
        var k := IndexOf(UomIds(a.uoms), p.uomId);
        AddonShapesAgree(a.uoms[k].addons, b.uoms[k].addons);
      }
    }
    ValidationByShapeLoop(a, b, ps, productId);
  }

  lemma {:induction false} ValidationByShapeLoop(a: Product, b: Product, ps: seq<UpdateUOMDto>, productId: int)
    requires forall p: UpdateUOMDto :: CheckUom(a.uoms, p, productId) == CheckUom(b.uoms, p, productId)
    ensures ValidateUpdateProductDto(a, ps, productId) == ValidateUpdateProductDto(b, ps, productId)
  {
    if ps != [] {
      ValidationByShapeLoop(a, b, ps[1..], productId);
    }
  }
}
