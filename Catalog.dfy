/** The records the detail view handles, in the shapes of src/types.ts: the
    catalog's volume record as received, the display record built from it,
    and the cart line published to the host shell. A JSON field that may be
    absent is an `Option`. */
module Catalog {
  import opened Wrappers

  datatype ImageLinks = ImageLinks(smallThumbnail: Option<string>, thumbnail: Option<string>)

  datatype VolumeInfo = VolumeInfo(
    title: string,
    authors: Option<seq<string>>,
    publisher: Option<string>,
    publishedDate: Option<string>,
    description: Option<string>,
    pageCount: Option<int>,
    imageLinks: Option<ImageLinks>,
    language: Option<string>)

  datatype ListPrice = ListPrice(amount: real)

  datatype SaleInfo = SaleInfo(listPrice: Option<ListPrice>)

  /** A volume record of the catalog API. `volumeInfo` may be missing from a
      malformed response, and reading through it then throws. */
  datatype Volume = Volume(id: string, volumeInfo: Option<VolumeInfo>, saleInfo: Option<SaleInfo>)

  /** A display field that holds either a number or a string. */
  datatype JsValue = Number(num: real) | Text(text: string)

  /** The display record the component renders (`SelectedBook`). `id` is
      absent from the component's initial record. */
  datatype BookView = BookView(
    id: Option<string>,
    title: string,
    author: string,
    price: JsValue,
    description: string,
    publisher: string,
    publicationDate: string,
    language: string,
    pageCount: JsValue,
    images: seq<string>)

  /** The line item handed to the host shell's cart (`CartItem`). */
  datatype CartItem = CartItem(bookId: Option<string>, title: string, image: Option<string>, quantity: int)
}
