# Real-estate listing app: listing form and category pagination

This project models the two pieces of sequential logic in a React front end
for a property-listing site whose backend is a hosted authentication,
document-database and file-storage service.

- **Creating a listing** (`module CreateListing`, with `module JsValues`):
  the form state is a JavaScript object, modelled as a `map` from field id to
  value. The change handler `ApplyChange` turns the texts `"true"` and
  `"false"` into booleans and stores everything else as it comes. Files
  replace `images` instead. The submit handler `Submit` runs the price check
  and then the image-count check. It names each Storage object
  `<uid>-<image name>-<fresh id>`, settles the uploads the way `Promise.all`
  does, and builds the listing record with `BuildRecord`: the form copied,
  `imgUrls`, `geolocation`, `timestamp` and `userRef` added, then `images`,
  `latitude` and `longitude` deleted, and `discountedPrice` deleted unless
  `offer` is truthy. The outcome says whether the handler stopped on a
  validation error, an exception, uploads that never settle, or with a call
  to `addDoc`. It also says whether the spinner is still up.
  The price check uses JavaScript's `>=`. `JsValues` models that operator:
  two strings compare character by character, anything else compares as
  numbers. After editing, both prices are strings, so `"100" >= "20"` is
  false and `"9" >= "10"` is true. The model proves this, and proves that
  the check is numeric when both numerals have the same length.
- **Category pagination** (`module Category`): the page's state is
  `listings`, `loading` and `lastFetchListing`, held in the class
  `CategoryPage`. `FetchListings` replaces the list with the first page.
  `FetchMoreListings` appends the next page. Both make the cursor the last
  document of that page. A failed query changes nothing. Each page's entries
  are built one `push` at a time by `CollectPage`. The pure functions
  `AfterFirstFetch`, `AfterLoadMore` and `Render` specify the handlers and
  the view, and the lemmas state the pagination properties.

Inputs of the model stand for the parts the page does not compute: the
outcome of each image upload, the fresh id in each object name, the signed-in
user's id, whether the database call that stores the listing resolves, and
each query's result.

## Model

| member | source | states |
|---|---|---|
| `CreateListing.Coerce` | src/pages/CreateListing.jsx:57-63 | the stored value is `true` exactly for the text "true", `false` exactly for "false", and the raw text otherwise |
| `CreateListing.ApplyChange` | src/pages/CreateListing.jsx:56-80 | a change writes one key (`images` when files arrive, the target's id otherwise), adds nothing else, and leaves every other key's value unchanged |
| `CreateListing.FileChangeReplacesOnlyImages` | src/pages/CreateListing.jsx:66-71 | a change carrying files, even an empty file list, stores that list under `images`, adds no other key and leaves every other field unchanged |
| `CreateListing.FieldChangeUpdatesOnlyTarget` | src/pages/CreateListing.jsx:74-79 | a change without files stores true/false/the raw text under the target's id; all other fields are unchanged |
| `CreateListing.EditsKeepFields` | src/pages/CreateListing.jsx:56-80 | over any series of edits no key is removed and no value becomes `undefined` |
| `CreateListing.EditedFormHasImages` | src/pages/CreateListing.jsx:22-37 | starting from the opening form, `images` is always present and defined, so reading `images.length` cannot throw |
| `CreateListing.UntouchedFormRejected` | src/pages/CreateListing.jsx:86-90 | the opening form (both prices 0) fails the price check |
| `CreateListing.PriceCheckIgnoresOffer` | src/pages/CreateListing.jsx:86-90 | the price check gives the same answer whatever `offer` holds |
| `CreateListing.PriceCheckIsTextual` | src/pages/CreateListing.jsx:86 | with prices edited to "100" and "20" the check passes; with "9" and "10" it fails |
| `CreateListing.PriceCheckNumericAtEqualLength` | src/pages/CreateListing.jsx:86 | when both prices are numerals of the same length, the check fails exactly when the discount's value is at least the regular price's value |
| `CreateListing.ImagesLength` | src/pages/CreateListing.jsx:92 | `images.length` is defined exactly for a file list or a string: the number of files for a file list, the number of characters for a string |
| `CreateListing.ItemNames` | src/pages/CreateListing.jsx:151-152 | spreading `images` succeeds exactly for a file list or a string; a file list yields its files' names in order; a string yields one "undefined" name per character |
| `CreateListing.StorageNameRoundTrip` | src/pages/CreateListing.jsx:117 | an object name `uid-name-id` gives back the user id, the image name and the 36-character fresh id, when user ids contain no `-` |
| `CreateListing.StorageNamesDistinct` | src/pages/CreateListing.jsx:117 | two uploads by one user with different fresh ids get different object names |
| `CreateListing.Settle` | src/pages/CreateListing.jsx:151-158 | the uploads fail together exactly when one upload fails; they stay pending exactly when none fails and one never settles; otherwise the result holds one URL per image in image order |
| `CreateListing.AllUploadsGiveUrlsInOrder` | src/pages/CreateListing.jsx:151-152 | when every upload succeeds, the URLs are those uploads' URLs in image order |
| `CreateListing.GeolocationOf` | src/pages/CreateListing.jsx:98-112 | `geolocation` has `lat`/`lng` from `latitude`/`longitude` exactly when geolocation is enabled, and is empty otherwise |
| `CreateListing.BuildRecord` | src/pages/CreateListing.jsx:160-171 | the record has no `images`, `latitude` or `longitude`; it has `discountedPrice` exactly when the form has it and `offer` is truthy; it has `imgUrls`, `geolocation`, the server timestamp and `userRef` = uid; every other form field is copied unchanged |
| `CreateListing.Submit` | src/pages/CreateListing.jsx:82-177 | price check first, then the image count (> 6), each ending with nothing uploaded and nothing passed to `addDoc`; a missing `images`, a non-iterable `images` or no signed-in user throws; the object names follow the images in order; an upload that never settles stalls the handler; after a failed upload the record is still passed to `addDoc`, with `imgUrls` undefined; otherwise the record holds the URLs; after a validation error the spinner is cleared; after `addDoc` it stays up exactly when `addDoc` rejects after every upload succeeded; it stays up after a stall or an early exception |
| `JsValues.IsLessThan` | src/pages/CreateListing.jsx:86 | two strings compare by text order; otherwise, when both sides convert to numbers the answer is the numeric `<`, and when either side is NaN the answer is `undefined` |
| `JsValues.GreaterOrEqualOnNumbers` | src/pages/CreateListing.jsx:86 | on two numbers `>=` is the numeric order (the opening prices) |
| `JsValues.GreaterOrEqualMixed` | src/pages/CreateListing.jsx:86 | a number against a numeral compares numerically, in both positions |
| `JsValues.NumeralsCompareAsText` | src/pages/CreateListing.jsx:86 | "100" >= "20" is false and "9" >= "10" is true |
| `JsValues.EqualLengthNumeralsCompareNumerically` | src/pages/CreateListing.jsx:86 | for numerals of equal length, the text order agrees with the numeric order |
| `JsValues.EqualLengthNumeralsGreaterOrEqual` | src/pages/CreateListing.jsx:86 | hence `>=` on two equal-length numerals is numeric |
| `Category.LastDoc` | src/pages/Category.jsx:34-35 | the cursor is the page's last document, and undefined exactly when the page is empty |
| `Category.CollectPage` | src/pages/Category.jsx:37-43 | the loop yields one `{id, data}` entry per document, in query order |
| `Category.CategoryPage.constructor` | src/pages/Category.jsx:19-21 | the page opens with no listings, the spinner up and no cursor |
| `Category.CategoryPage.FetchListings` | src/pages/Category.jsx:24-49 | the first fetch's new state is `AfterFirstFetch` of the old state and the query result |
| `Category.CategoryPage.FetchMoreListings` | src/pages/Category.jsx:54-80 | "Load more" can run only while its button shows; its new state is `AfterLoadMore` of the old state and the query result |
| `Category.FirstFetchReplaces` | src/pages/Category.jsx:33-45 | after a successful first fetch the list is exactly the page's documents in order, the spinner is down, and the cursor is the last document |
| `Category.LoadMoreAppends` | src/pages/Category.jsx:64-76 | "Load more" keeps the earlier entries as a prefix, adds the page after them in order, clears the spinner and moves the cursor to the page's last document |
| `Category.FailedFetchChangesNothing` | src/pages/Category.jsx:46-79 | a failed query leaves list, cursor and spinner as they were; a failed first fetch leaves the spinner up |
| `Category.CanLoadMoreExactly` | src/pages/Category.jsx:87-113 | the "Load more" button shows exactly when the spinner is down, the list is non-empty and the cursor is defined |
| `Category.EmptyPageEndsPagination` | src/pages/Category.jsx:89-102 | after an empty page the button is gone |
| `Category.NonEmptyPageOffersMore` | src/pages/Category.jsx:65-102 | after a non-empty page the button shows, even when no documents remain |
| `Category.LoadMoreRunAppends` | src/pages/Category.jsx:54-80 | after any series of "Load more" results the list is the earlier list followed by every successful page in order, growing by at most 4 entries per click |
| `Category.PaginationBound` | src/pages/Category.jsx:27-75 | from the opening state, a first page and k clicks give at most 5 + 4k entries, with the first page's entries first |

## Left out

- Rendering, CSS classes, the spinner component, toasts and navigation are left out. They are UI only. The spinner appears only as the `loading` flag.
- Storage uploads, `getDownloadURL`, `addDoc`, `getDocs` and `serverTimestamp` are SDK calls. Each upload is an input giving the fresh id in its object name and how the upload ends. The call to `addDoc` is the `Submitted` outcome, and whether that call resolves is an input. What the database does with an `imgUrls` field that is `undefined`, and the document id used for navigation, are not modelled.
- The fresh id (`uuid()`) is an input. It is taken to be 36 characters long.
- The upload progress percentage and `parseFloat` of the coordinates are floating point. `geolocation` holds the raw `latitude`/`longitude` values.
- `Promise.all` is a settlement over the sequence of upload outcomes. The real uploads run concurrently.
- Numbers are integers, not doubles. Text converts to a number only for "", decimal digits, or digits after `-`. Decimal points, exponents, surrounding whitespace, `+`, hex and `Infinity` all give NaN here.
- String lengths count characters, not UTF-16 code units.
- HTML input constraints (`min`, `max`, `required`, `accept`) are enforced by the browser, so they are not modelled. For example, the browser keeps `images` from staying `{}` at submission. The model handles that case anyway, as the exception it would raise.
- `geolocationEnabled` starts as true and no code changes it. `Submit` still takes it as a parameter.
- Category: the queries' `where`, `orderBy`, `startAfter` and `limit` are not modelled. They are replaced by the query result as an input. The two limits become preconditions on the page sizes.
- Category: responses that arrive out of order, repeated clicks before a response, and the re-fetch when the category changes are not modelled. The re-fetch is `FetchListings` applied to whatever the state is.
- src/components/Header.jsx is left out. Its route match is one string equality used for styling.
- src/components/OAuth.jsx is left out. Its sign-in and create-if-absent profile write are SDK calls.
- src/App.js is left out. It is a static route table.
