/**
 * The catalog records (catalog/models.py): categories and products, each
 * identified by the external feed's `source_id`.
 */
module Catalog {

  datatype Category = Category(
    sourceId: string,
    nameEn: string,
    nameKh: string,
    description: string,
    active: bool,
    displayOrder: nat)

  /** `category` is the referenced category's `source_id`. */
  datatype Product = Product(
    sourceId: string,
    nameEn: string,
    nameKh: string,
    descriptionEn: string,
    descriptionKh: string,
    priceCents: int,
    imageUrl: string,
    category: string,
    active: bool,
    popular: bool,
    displayOrder: nat)
}
