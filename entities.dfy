/**
 * The persisted entity tree: a Product owns UOMs; a UOM owns one barcode, one image
 * and its addons; an addon owns its addon items. Every record has a generated
 * integer primary key. Child collections keep the order in which they were loaded.
 */
module Entities {

  datatype UOMBarcode = UOMBarcode(id: int, barcode: string)

  datatype UOMImage = UOMImage(id: int, url: string)

  datatype AddonItem = AddonItem(id: int, name: string)

  datatype Addon = Addon(id: int, name: string, addonItems: seq<AddonItem>)

  datatype UOM = UOM(id: int, name: string, uomBarcode: UOMBarcode, uomImage: UOMImage, addons: seq<Addon>)

  datatype Product = Product(id: int, name: string, uoms: seq<UOM>)

  function ItemIds(items: seq<AddonItem>): seq<int>
  {
    seq(|items|, i requires 0 <= i < |items| => items[i].id)
  }

  function AddonIds(addons: seq<Addon>): seq<int>
  {
    seq(|addons|, i requires 0 <= i < |addons| => addons[i].id)
  }

  function UomIds(uoms: seq<UOM>): seq<int>
  {
    seq(|uoms|, i requires 0 <= i < |uoms| => uoms[i].id)
  }

  /**
   * The position `Array.prototype.find` stops at when it looks for a record by id:
   * the first one whose id matches.
   */
  function IndexOf(ids: seq<int>, id: int): (k: nat)
    requires id in ids
    ensures k < |ids| && ids[k] == id
    ensures forall j | 0 <= j < k :: ids[j] != id
  {
    if ids[0] == id then 0 else 1 + IndexOf(ids[1..], id)
  }

  /** Position k holds the first record with its id, so a lookup by that id lands on k. */
  predicate IsFirstWithId(ids: seq<int>, k: nat)
    requires k < |ids|
  {
    forall j | 0 <= j < k :: ids[j] != ids[k]
  }

  lemma IndexOfFirst(ids: seq<int>, k: nat)
    requires k < |ids|
    ensures IsFirstWithId(ids, k) <==> IndexOf(ids, ids[k]) == k
  {
  }

  /*
   * The skeleton of an aggregate: which records exist, with which ids, in which order.
   * A partial update changes leaf values only, so it keeps the skeleton.
   */

  datatype AddonShape = AddonShape(id: int, itemIds: seq<int>)

  datatype UOMShape = UOMShape(id: int, barcodeId: int, imageId: int, addons: seq<AddonShape>)

  function AddonShapes(addons: seq<Addon>): seq<AddonShape>
  {
    seq(|addons|, i requires 0 <= i < |addons| => AddonShape(addons[i].id, ItemIds(addons[i].addonItems)))
  }

  function UomShapes(uoms: seq<UOM>): seq<UOMShape>
  {
    seq(|uoms|, i requires 0 <= i < |uoms| =>
      UOMShape(uoms[i].id, uoms[i].uomBarcode.id, uoms[i].uomImage.id, AddonShapes(uoms[i].addons)))
  }

  /** Two addon lists with one skeleton have the same ids and the same item ids at each position. */
  lemma AddonShapesAgree(a: seq<Addon>, b: seq<Addon>)
    requires AddonShapes(a) == AddonShapes(b)
    ensures AddonIds(a) == AddonIds(b)
    ensures forall k | 0 <= k < |a| :: ItemIds(a[k].addonItems) == ItemIds(b[k].addonItems)
  {
    assert |a| == |AddonShapes(a)| == |AddonShapes(b)| == |b|;
    forall k | 0 <= k < |a|
      ensures a[k].id == b[k].id && ItemIds(a[k].addonItems) == ItemIds(b[k].addonItems)
    {
      assert AddonShapes(a)[k] == AddonShapes(b)[k];
    }
  }

  /** Two UOM lists with one skeleton have the same ids and the same addon skeletons at each position. */
  lemma UomShapesAgree(a: seq<UOM>, b: seq<UOM>)
    requires UomShapes(a) == UomShapes(b)
    ensures UomIds(a) == UomIds(b)
    ensures forall k | 0 <= k < |a| :: AddonShapes(a[k].addons) == AddonShapes(b[k].addons)
  {
    assert |a| == |UomShapes(a)| == |UomShapes(b)| == |b|;
    forall k | 0 <= k < |a|
      ensures a[k].id == b[k].id && AddonShapes(a[k].addons) == AddonShapes(b[k].addons)
    {
      assert UomShapes(a)[k] == UomShapes(b)[k];
    }
  }
}
