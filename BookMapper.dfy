/** The mapping from a catalog volume record to the display record
    (src/App.tsx:41-59) and the HTML-to-text step it relies on
    (src/App.tsx:69-73). Every `a || b` of the source is `Or` (for strings) or
    an explicit truthiness test (for numbers). The browser's HTML parser is the
    parameter `textContent`: it maps an HTML string to the text content of the
    parsed document's body. */
module BookMapper {
  import opened Wrappers
  import opened Catalog
  import opened JsStrings
  import opened JsNumber

  const AuthorSeparator := ", "
  const UnknownAuthor := "Unknown Author"
  const UnknownPublisher := "Unknown Publisher"
  const UnknownDate := "Unknown Date"
  const UnknownLanguage := "Unknown Language"
  const NotAvailable := "N/A"
  const PlaceholderImage := "https://via.placeholder.com/150"
  const DefaultAmount: real := 12.49
  const DescriptionLimit: nat := 500
  const Ellipsis := "..."
  const NoDescription := "No description available."

  /** Why building the display record threw. */
  datatype MapError = MissingVolumeInfo

  /** The author names joined with ", ", or "Unknown Author" when the list
      is absent or its join is empty. */
  function AuthorOf(authors: Option<seq<string>>): string {
    Or(if authors.Some? then Some(Join(authors.value, AuthorSeparator)) else None, UnknownAuthor)
  }

  /** The list amount, absent when the sale info or its list price is
      missing. A list price without an amount is written as an absent list
      price; both give the default price. */
  function ListAmount(sale: Option<SaleInfo>): Option<real> {
    if sale.Some? && sale.value.listPrice.Some? then Some(sale.value.listPrice.value.amount) else None
  }

  /** The amount written with two decimals, where an absent or zero amount
      is replaced by the default 12.49. */
  function PriceOf(sale: Option<SaleInfo>): JsValue {
    var amount := ListAmount(sale);
    Text(ToFixed2(if amount.Some? && amount.value != 0.0 then amount.value else DefaultAmount))
  }

  /** The string the HTML parser receives: an absent description is
      converted to the string "undefined", as any DOMString argument is. */
  function HtmlSource(description: Option<string>): string {
    description.GetOr("undefined")
  }

  /** `parseHTMLtoText`: the trimmed text content of the parsed document. */
  function ParseHtmlToText(html: string, textContent: string -> string): (r: string)
    ensures r == [] || (!IsWhiteSpace(r[0]) && !IsWhiteSpace(r[|r| - 1]))
  {
    Trim(textContent(html))
  }

  /** The first 500 characters of the trimmed text, then "..."; the
      "No description available." alternative applies only to an empty result. */
  function DescriptionOf(description: Option<string>, textContent: string -> string): string {
    var shown := Substring(ParseHtmlToText(HtmlSource(description), textContent), 0, DescriptionLimit) + Ellipsis;
    if shown != [] then shown else NoDescription
  }

  /** The page count as a number, or "N/A" when it is absent or zero. */
  function PageCountOf(pageCount: Option<int>): JsValue {
    if pageCount.Some? && pageCount.value != 0 then Number(pageCount.value as real) else Text(NotAvailable)
  }

  /** The thumbnail and then the small thumbnail, each replaced by the
      placeholder image when absent or empty. */
  function ImagesOf(links: Option<ImageLinks>): seq<string> {
    [ Or(if links.Some? then links.value.thumbnail else None, PlaceholderImage),
      Or(if links.Some? then links.value.smallThumbnail else None, PlaceholderImage) ]
  }

  /** A price text as `toFixed(2)` writes it. */
  predicate IsPriceText(s: string) {
    IsCanonicalTwoDecimals(s) || (|s| > 0 && s[0] == '-' && IsCanonicalTwoDecimals(s[1..]))
  }

  /** What every record the mapper builds guarantees: an id, a displayable
      value in every field but the title, a two-decimal price, a description
      of at most 500 characters plus "...", and exactly two image URLs. */
  predicate WellFormedView(v: BookView) {
    && v.id.Some?
    && v.author != []
    && v.price.Text? && IsPriceText(v.price.text)
    && 3 <= |v.description| <= DescriptionLimit + 3
    && v.description[|v.description| - 3..] == Ellipsis
    && v.publisher != [] && v.publicationDate != [] && v.language != []
    && (match v.pageCount
        case Number(n) => n != 0.0
        case Text(t) => t == NotAvailable)
    && |v.images| == 2 && v.images[0] != [] && v.images[1] != []
  }

  /** The `bookData` object built from a response body. Reading
      `volumeInfo.title` throws when `volumeInfo` is missing. */
  function MapVolume(data: Volume, textContent: string -> string): (r: Result<BookView, MapError>)
    ensures r.Success? <==> data.volumeInfo.Some?
    ensures r.Success? ==> WellFormedView(r.value)
    ensures r.Success? ==> r.value.id == Some(data.id) && r.value.title == data.volumeInfo.value.title
  {
    match data.volumeInfo
    case None => Failure(MissingVolumeInfo)
    case Some(info) =>
      var view := BookView(
        Some(data.id),
        info.title,
        AuthorOf(info.authors),
        PriceOf(data.saleInfo),
        DescriptionOf(info.description, textContent),
        Or(info.publisher, UnknownPublisher),
        Or(info.publishedDate, UnknownDate),
        Or(info.language, UnknownLanguage),
        PageCountOf(info.pageCount),
        ImagesOf(info.imageLinks));
      DescriptionRule(info.description, textContent);
      ToFixed2Shape(if ListAmount(data.saleInfo).Some? && ListAmount(data.saleInfo).value != 0.0
                    then ListAmount(data.saleInfo).value else DefaultAmount);
      Success(view)
  }

  /** The author line is the ", "-join of the names whenever that join is
      non-empty: for two or more names, or one non-empty name. An absent
      list, an empty list and a list holding one empty name all give
      "Unknown Author". It is never empty. */
  lemma AuthorRule(authors: Option<seq<string>>)
    ensures AuthorOf(authors) != []
    ensures AuthorOf(authors) ==
      if authors.Some? && (|authors.value| >= 2 || (|authors.value| == 1 && authors.value[0] != []))
      then Join(authors.value, AuthorSeparator) else UnknownAuthor
  {
  }

  /** The description is always the first 500 characters of the trimmed
      text content followed by "...": at most 503 characters, ending in
      "...", and never the "No description available." fallback, even for an
      absent description or one whose text is empty. */
  lemma DescriptionRule(description: Option<string>, textContent: string -> string)
    ensures var text := ParseHtmlToText(HtmlSource(description), textContent);
      DescriptionOf(description, textContent)
        == text[..if |text| < DescriptionLimit then |text| else DescriptionLimit] + Ellipsis
    ensures var d := DescriptionOf(description, textContent);
      && 3 <= |d| <= DescriptionLimit + 3 && d[|d| - 3..] == Ellipsis && d != NoDescription
  {
  }

  /** The displayed description never starts with white space: the text is
      trimmed before it is cut. */
  lemma DescriptionStartsTrimmed(description: Option<string>, textContent: string -> string)
    ensures var d := DescriptionOf(description, textContent);
      |d| > 3 ==> !IsWhiteSpace(d[0])
  {
  }

  /** The price is the list amount written with two decimals when there is a
      non-zero one, and "12.49" when the amount is absent or zero. A
      non-negative amount is shown rounded to the nearest hundredth. */
  lemma PriceRule(sale: Option<SaleInfo>)
    ensures var amount := ListAmount(sale);
      PriceOf(sale) == if amount.Some? && amount.value != 0.0 then Text(ToFixed2(amount.value)) else Text("12.49")
    ensures var amount := ListAmount(sale);
      amount.Some? && amount.value > 0.0 ==>
        && IsTwoDecimals(PriceOf(sale).text)
        && amount.value - 0.005 < TwoDecimalsValue(PriceOf(sale).text) as real / 100.0 <= amount.value + 0.005
  {
    DefaultPriceText();
    var amount := ListAmount(sale);
    if amount.Some? && amount.value > 0.0 {
      FixedNonNegativeNearest(amount.value);
    }
  }

  /** Publisher, publication date and language pass through when present and
      non-empty, and otherwise take their fixed fallbacks. */
  lemma TextFieldRule(data: Volume, textContent: string -> string)
    requires data.volumeInfo.Some?
    ensures var info := data.volumeInfo.value; var v := MapVolume(data, textContent).value;
      && v.publisher == (if Truthy(info.publisher) then info.publisher.value else UnknownPublisher)
      && v.publicationDate == (if Truthy(info.publishedDate) then info.publishedDate.value else UnknownDate)
      && v.language == (if Truthy(info.language) then info.language.value else UnknownLanguage)
  {
  }

  /** A page count passes through unless it is absent or zero, which both
      give "N/A". */
  lemma PageCountRule(pageCount: Option<int>)
    ensures PageCountOf(pageCount) == Text(NotAvailable) <==> pageCount.None? || pageCount.value == 0
    ensures pageCount.Some? && pageCount.value != 0 ==> PageCountOf(pageCount) == Number(pageCount.value as real)
  {
  }

  /** There are always exactly two images, thumbnail first, each replaced
      independently by the placeholder when absent or empty. */
  lemma ImagesRule(links: Option<ImageLinks>)
    ensures |ImagesOf(links)| == 2
    ensures var thumb := if links.Some? then links.value.thumbnail else None;
      ImagesOf(links)[0] == if Truthy(thumb) then thumb.value else PlaceholderImage
    ensures var small := if links.Some? then links.value.smallThumbnail else None;
      ImagesOf(links)[1] == if Truthy(small) then small.value else PlaceholderImage
    ensures links.None? ==> ImagesOf(links) == [PlaceholderImage, PlaceholderImage]
  {
  }
}
