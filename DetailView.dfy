/** The detail-view component (src/App.tsx:5-94): its React state as the
    fields of a class, and each event that updates that state as a method.
    A fetch is an exchange with the outside world: `ReceiveSelection` returns
    the id to request, and `CompleteFetch` receives the response once it has
    arrived. The cart line is returned to the caller, which hands it to the
    shared event bus. */
module DetailView {
  import opened Wrappers
  import opened Catalog
  import opened JsStrings
  import BookMapper

  /** How a request for a volume ended: a parsed response body, or a network
      or JSON error, which the component logs and otherwise ignores. */
  datatype FetchResponse = Received(body: Volume) | Failed

  /** The record the component starts with (src/App.tsx:8-18). */
  const EmptyBook := BookView(None, "", "", Number(0.0), "", "", "", "", Number(0.0), [])

  class BookDetail {
    var selectedBook: Option<string>
    var book: BookView
    var mainImage: string
    var quantity: int

    /** Either nothing has been loaded yet (the initial record, no main
        image), or the book is one the mapper built and the main image is
        one of its images. */
    ghost predicate Valid()
      reads this
    {
      || (book == EmptyBook && mainImage == "")
      || (BookMapper.WellFormedView(book) && mainImage in book.images)
    }

    /** The placeholder panel is shown exactly when the title is empty, the
        details otherwise (src/App.tsx:99, 137). */
    predicate ShowsDetails()
      reads this
      ensures ShowsDetails() ==> book != EmptyBook
    {
      book.title != []
    }

    constructor ()
      ensures Valid() && !ShowsDetails()
      ensures selectedBook == None && book == EmptyBook && mainImage == "" && quantity == 1
    {
      selectedBook := None;
      book := EmptyBook;
      mainImage := "";
      quantity := 1;
    }

    /** A selection arrives from the bus. The effect that fetches runs only
        when the stored selection changes, and fetches only a truthy id. */
    method ReceiveSelection(id: Option<string>) returns (request: Option<string>)
      requires Valid()
      modifies this`selectedBook
      ensures Valid()
      ensures selectedBook == id
      ensures request == if id != old(selectedBook) && Truthy(id) then id else None
      ensures book == old(book) && mainImage == old(mainImage) && quantity == old(quantity)
    {
      var changed := id != selectedBook;
      selectedBook := id;
      if changed && Truthy(id) {
        request := id;
      } else {
        request := None;
      }
    }

    /** A fetch finishes. A mapped record replaces the whole book, shows its
        first image and resets the quantity to 1; a failed request or a
        response without `volumeInfo` changes nothing. */
    method CompleteFetch(response: FetchResponse, textContent: string -> string)
      requires Valid()
      modifies this`book, this`mainImage, this`quantity
      ensures Valid()
      ensures selectedBook == old(selectedBook)
      ensures response.Received? && BookMapper.MapVolume(response.body, textContent).Success? ==>
        && book == BookMapper.MapVolume(response.body, textContent).value
        && mainImage == book.images[0]
        && quantity == 1
      ensures !(response.Received? && BookMapper.MapVolume(response.body, textContent).Success?) ==>
        book == old(book) && mainImage == old(mainImage) && quantity == old(quantity)
    {
      if response.Received? {
        var mapped := BookMapper.MapVolume(response.body, textContent);
        if mapped.Success? {
          book := mapped.value;
          mainImage := book.images[0];
          quantity := 1;
        }
      }
    }

    /** A thumbnail is clicked: it becomes the main image. Thumbnails are
        rendered only for the book's own images, and only while the details
        are shown (src/App.tsx:137-145). */
    method ClickThumbnail(image: string)
      requires Valid()
      requires image in book.images
      modifies this`mainImage
      ensures Valid()
      ensures mainImage == image
      ensures selectedBook == old(selectedBook) && book == old(book) && quantity == old(quantity)
    {
      mainImage := image;
    }

    /** The quantity field is edited: the number is kept as given, with no
        lower bound. */
    method EditQuantity(value: int)
      requires Valid()
      modifies this`quantity
      ensures Valid()
      ensures quantity == value
      ensures selectedBook == old(selectedBook) && book == old(book) && mainImage == old(mainImage)
    {
      quantity := value;
    }

    /** "Add to cart": the line item built from the current book and
        quantity. Nothing in the component changes. When the details are
        shown, the item carries the book's id and its first image. */
    method AddToCart() returns (item: CartItem)
      requires Valid()
      ensures item.title == book.title && item.bookId == book.id && item.quantity == quantity
      ensures item.image == if |book.images| > 0 then Some(book.images[0]) else None
      ensures ShowsDetails() ==> item.bookId.Some? && item.image.Some? && item.image.value != []
    {
      item := CartItem(book.id, book.title, if |book.images| > 0 then Some(book.images[0]) else None, quantity);
    }
  }

  /** A session: a book is selected and loaded, the quantity is set to 5 and
      the second thumbnail picked. Adding to the cart publishes the quantity
      5 with the book's first image, not the picked main image. Reselecting
      the same book fetches nothing, and loading the next selection resets
      quantity and main image. */
  method Session(first: Volume, second: Volume, textContent: string -> string)
    requires first.id != "" && second.id != "" && first.id != second.id
    requires first.volumeInfo.Some? && second.volumeInfo.Some?
    requires first.volumeInfo.value.title != []
  {
    var view := new BookDetail();
    var request := view.ReceiveSelection(Some(first.id));
    assert request == Some(first.id);
    view.CompleteFetch(Received(first), textContent);
    assert view.ShowsDetails();
    view.EditQuantity(5);
    view.ClickThumbnail(view.book.images[1]);
    var item := view.AddToCart();
    assert item.quantity == 5 && item.bookId == Some(first.id) && item.image == Some(view.book.images[0]);

    request := view.ReceiveSelection(Some(first.id));
    assert request == None;
    view.CompleteFetch(Failed, textContent);
    assert view.quantity == 5;

    request := view.ReceiveSelection(Some(second.id));
    assert request == Some(second.id);
    view.CompleteFetch(Received(second), textContent);
    assert view.quantity == 1 && view.mainImage == view.book.images[0];
    assert view.book.id == Some(second.id);
  }
}
