/**
 * Request bodies. The create bodies carry whole subtrees without ids; the update
 * bodies carry the id of every record they address and optional leaf values.
 * The shape the request validation enforces (ids present, `addonItems` an array)
 * is built into the types.
 */
module Dtos {
  import opened Common

  datatype CreateAddonItemDto = CreateAddonItemDto(name: string)

  datatype CreateAddonDto = CreateAddonDto(name: string, addonItems: seq<CreateAddonItemDto>)

  datatype CreateUOMBarcodeDto = CreateUOMBarcodeDto(barcode: string)

  datatype CreateUOMImageDto = CreateUOMImageDto(url: string)

  datatype CreateUOMDto = CreateUOMDto(
    name: string,
    uomBarcode: CreateUOMBarcodeDto,
    uomImage: CreateUOMImageDto,
    addons: seq<CreateAddonDto>)

  datatype CreateProductDto = CreateProductDto(name: string, uoms: seq<CreateUOMDto>)

  /** An addon item to rename; the id is required, the name optional. */
  datatype UpdateAddonItemDto = UpdateAddonItemDto(addonItemId: int, name: Option<string>)

  /** An addon to update; `addonItems` is a required (possibly empty) array. */
  datatype UpdateAddonDto = UpdateAddonDto(addonId: int, name: Option<string>, addonItems: seq<UpdateAddonItemDto>)

  /**
   * A UOM to update. Every field but the id is optional; a barcode or image that is
   * present is a complete create body, so its one field is always there.
   */
  datatype UpdateUOMDto = UpdateUOMDto(
    uomId: int,
    name: Option<string>,
    uomBarcode: Option<CreateUOMBarcodeDto>,
    uomImage: Option<CreateUOMImageDto>,
    addons: Option<seq<UpdateAddonDto>>)

  datatype UpdateProductDto = UpdateProductDto(name: Option<string>, uoms: Option<seq<UpdateUOMDto>>)

  /** The body has no keys at all. */
  predicate IsEmpty(dto: UpdateProductDto)
  {
    dto.name.None? && dto.uoms.None?
  }
}
