# single-book detail view, modelled in Dafny

The modelled component renders one book's detail view inside a micro-frontend
shell. It learns which book is selected from a shared event bus, fetches that
volume from the Google Books catalog, and turns the volume record into a
display record where every optional field has a fixed fallback. It then
shows either a promotional placeholder (no title) or the details, with
thumbnails, a quantity field and an "add to cart" action that publishes a
cart line back onto the bus.

The model has six modules:

- `Wrappers`: `Option` (a JSON field that may be `undefined`) and `Result`
  (a mapping that returns or throws).
- `JsStrings`: the ECMAScript meaning of `trim` (its exact white-space set),
  `substring` (with clamping and swapping), `join`, and `||` on strings.
- `JsNumber`: `toFixed(2)`, following the steps of section 21.1.3.3 of
  ECMA-262, on exact reals.
- `Catalog`: the record shapes of `src/types.ts`.
- `BookMapper`: the `bookData` construction and `parseHTMLtoText`, as pure
  functions with lemmas. `WellFormedView` collects what every mapped record
  guarantees.
- `DetailView`: the component's `useState` fields as the `BookDetail` class.
  Each event is a method whose contract gives the new value of every field.
  `Valid()` is preserved by all of them: either nothing is loaded yet (the
  initial record, no main image), or the book is a well-formed mapped record
  and the main image is one of its images.

The browser's HTML parser is the parameter `textContent: string -> string`.
The model proves what is built on top of it: the trim, the cut to 500
characters and the appended `"..."`. The network is not modelled. Instead,
`ReceiveSelection` returns the id to fetch, and `CompleteFetch` takes the
response (`Received(body)` or `Failed`).

Behaviours of the code a reader may not expect:

- The `"No description available."` fallback is never used.
  `substring(0, 500).concat("...")` is never empty, so the `||` never picks
  the fallback (`DescriptionRule`).
- A missing description does not give an empty text. `parseFromString`
  receives `undefined`, which is converted to the string `"undefined"`. The
  description shown is therefore the text of that document plus `"..."`
  (`BookMapper.HtmlSource`).
- `title` has no fallback and may be empty; `WellFormedView` promises a
  non-empty value for every field except the title.
- Selecting the id that is already selected does not fetch again. React keeps
  an unchanged state value, so the fetch effect does not run
  (`ReceiveSelection`).
- The cart line carries the book's first image, not the main image the
  user picked with a thumbnail (`AddToCart`).
- An empty name list, or a list holding one empty name, gives
  `"Unknown Author"`. So does a missing list.
- A response without `volumeInfo` makes the mapping throw. The catch block
  then leaves the state as it was (`MapVolume` returns `Failure`).

## Model

| member | source | states |
|---|---|---|
| JsStrings.Trim | src/App.tsx:72 | `trim` result is a slice of the input with only white space cut from each end, and neither starts nor ends with white space |
| JsStrings.TrimIdempotent | src/App.tsx:72 | trimming an already trimmed text changes nothing |
| JsStrings.Substring | src/App.tsx:48 | `substring` returns no more characters than the input has |
| JsStrings.SubstringFromStart | src/App.tsx:48 | `substring(0, n)` is the first `n` characters, or the whole text when it is shorter |
| JsStrings.Join | src/App.tsx:44 | with a non-empty separator the join is empty exactly for an empty list or a list of one empty name |
| JsStrings.JoinAppend | src/App.tsx:44 | joining a list with one more name appends the separator and that name |
| JsStrings.Or | src/App.tsx:44-58 | JavaScript `or` of a string and a fallback is the string when defined and non-empty, else the fallback, so never empty with a non-empty fallback |
| JsNumber.NatToString | src/App.tsx:45 | the decimal digits of a number are a non-empty digit string with no leading zero, "0" only for zero |
| JsNumber.DigitsRoundTrip | src/App.tsx:45 | reading back the digits of `n` gives `n` |
| JsNumber.PadLeft | src/App.tsx:45 | padding leaves a string at least as wide unchanged, and otherwise puts exactly enough zeros before it to reach the width, keeping the number denoted |
| JsNumber.Hundredths | src/App.tsx:45 | the rounded hundredths are within half a hundredth of the amount |
| JsNumber.FixedNonNegativeNearest | src/App.tsx:45 | `toFixed(2)` of a non-negative amount has exactly two decimals, no leading zero before the point except the single "0" of an amount below one, and denotes the amount to the nearest hundredth |
| JsNumber.ToFixed2Shape | src/App.tsx:45 | `ToFixed2`, the model of `toFixed(2)`, gives for any amount an optional minus sign followed by a two-decimal string without leading zeros |
| JsNumber.DefaultPriceText | src/App.tsx:45 | the default amount 12.49 is shown as "12.49" |
| BookMapper.MapVolume | src/App.tsx:39-59 | mapping succeeds exactly when `volumeInfo` is present; the result carries the record's id and title verbatim and is well-formed (all fallbacks non-empty, two-decimal price, bounded description, two images) |
| BookMapper.AuthorRule | src/App.tsx:44 | author is the ", "-join when that is non-empty, "Unknown Author" for a missing list, `[]` or `[""]`; never empty |
| BookMapper.ParseHtmlToText | src/App.tsx:69-73 | `parseHTMLtoText` returns the text content, trimmed, so it neither starts nor ends with white space |
| BookMapper.DescriptionRule | src/App.tsx:46-49 | description is the first 500 characters of the trimmed text plus "...", at most 503 long, ends in "...", never "No description available." |
| BookMapper.DescriptionStartsTrimmed | src/App.tsx:69-73 | a description with text never begins with white space |
| BookMapper.PriceRule | src/App.tsx:45 | price is the non-zero list amount with two decimals, else "12.49"; a positive amount is rounded to the nearest hundredth |
| BookMapper.TextFieldRule | src/App.tsx:50-52 | publisher, date and language pass through when truthy, else "Unknown Publisher", "Unknown Date", "Unknown Language" |
| BookMapper.PageCountRule | src/App.tsx:53 | page count passes through unless absent or 0, which both give "N/A" |
| BookMapper.ImagesRule | src/App.tsx:54-58 | exactly two images, thumbnail then small thumbnail, each replaced by the placeholder when absent or empty |
| DetailView.BookDetail.constructor | src/App.tsx:6-21 | starts with no selection, the empty record, no main image and quantity 1, showing the placeholder |
| DetailView.BookDetail.ShowsDetails | src/App.tsx:99-137 | details are shown exactly when the title is non-empty, the placeholder otherwise, so never for the initial record |
| DetailView.BookDetail.ReceiveSelection | src/App.tsx:23-94 | stores the selection and requests a fetch exactly when it changed and is truthy; nothing else changes; `Valid()` is kept |
| DetailView.BookDetail.CompleteFetch | src/App.tsx:33-67 | on a mapped response the book is replaced, main image is its first image, quantity 1; on failure or a throwing mapping nothing changes; `Valid()` is kept |
| DetailView.BookDetail.ClickThumbnail | src/App.tsx:75-77 | main image becomes the clicked image, one of the book's own images, and nothing else changes; `Valid()` is kept |
| DetailView.BookDetail.EditQuantity | src/App.tsx:181 | quantity becomes the given number with no lower bound and nothing else changes; `Valid()` is kept |
| DetailView.BookDetail.AddToCart | src/App.tsx:79-88 | the cart line is the book's title and id, its first image and the quantity; no state changes; with details shown the id and a non-empty image are present |

## Left out

- Network I/O: the `fetch` and `response.json()` calls are replaced by the `FetchResponse` value given to `CompleteFetch`.
- HTML parsing with `DOMParser`: it is the parameter `textContent`. Whether the output contains markup is therefore not modelled.
- The event bus: the subscription and its release are not modelled; a selection is the argument of `ReceiveSelection`, and the published cart line is the result of `AddToCart`.
- Stale fetches: each fetch completion is one atomic `CompleteFetch`. A late response for an older selection therefore replaces the book, exactly as in the source, but the interleaving itself is not modelled.
- Rendering: the JSX, the styling, the promotional panel, `src/components/Button.tsx` and `vite.config.ts`.
- src/api/api.ts is not part of this model: its only logic is the default query "programming" and the cap of 8 results in the URL.
- JsNumber.ToFixed2: the amount is an exact real rather than a binary double, so an amount whose third decimal is a tie can round the other way: the model gives `ToFixed2(1.005) == "1.01"`, while JavaScript rounds the nearest double, 1.00499…, and prints "1.00". Amounts of 10^21 or more are written in fixed notation, where JavaScript would switch to exponent notation.
- DetailView.BookDetail.EditQuantity: the quantity is an integer; the fractional values and NaN that `Number()` can produce from the input text are not modelled.
- Catalog: the volume's `id` and `title` are taken as always present, as src/types.ts:2-4 declares them. A response lacking them would give a book whose `id` or `title` is `undefined` and a cart line with `bookId` or `title` `undefined` (src/App.tsx:42-43, 81-83); the model cannot express that, so `WellFormedView`'s id clause and `AddToCart`'s promise of an id hold only under this assumption.
- Catalog: JSON values of the wrong type (a string amount, a non-string author) are not modelled; such values make the source throw or render oddly. The unused `categories` field is left out.
- JsStrings: a `char` is a Unicode code point, while JavaScript counts UTF-16 code units. A character outside the basic plane therefore counts once toward the 500-character limit instead of twice, and the model cannot reproduce `substring(0, 500)` cutting through a surrogate pair (src/App.tsx:48).
