# arsip: a verified model of the book-sharing core

arsip ("Buku Keliling") is an Android app for lending books to neighbours.
Owners list books with a category, an address and optional coordinates;
readers browse a home feed and a discover feed, and contact an owner on
WhatsApp. This project models the logic under the UI:

- the repository's snapshot listeners (decode, drop what fails, stamp ids,
  newest first, keep the last good list across errors), `addBook`,
  `getMyAddress` and `getBook`;
- the discover feed (`filtered`, `categories`) and its view model state;
- the home feed (`filterBooks`, the highlighted strip,
  `calculateDistance`, the profile location and name) and its view model;
- the add-book and edit-book form state machines;
- the closed category list;
- WhatsApp phone normalisation and the contact-button conditions;
- the city search of the map picker: the query gate, the suggestion
  labels and the geocoding rule.

Modules, one per core file plus shared helpers:

| file | module | models |
|---|---|---|
| `wrappers.dfy` | `Wrappers` | `Option`, `Result` |
| `text.dfy` | `Text` | Kotlin string operations: `isBlank`, `trim`, `lowercase`, `contains`, `split(",").first`, `replace`, `joinToString`, `compareTo` |
| `seqs.dfy` | `Seqs` | `filter`, `take`, `distinct`, and a stable sort with its sortedness and permutation lemmas |
| `books.dfy` | `Books` | the `Book` record, the exception type, the abstract distance, newest-first order |
| `repository.dfy` | `Repository` | `BooksRepositoryImpl` |
| `categories.dfy` | `Categories` | `BookCategories` |
| `discover.dfy` | `Discover` | `DiscoverViewModel` |
| `home.dfy` | `Home` | `HomeViewModel` and `HomeState.calculateDistance` |
| `add_book.dfy` | `AddBookForm` | `AddBookViewModel`, with Kotlin's `toLongOrNull` |
| `edit_book.dfy` | `EditBookForm` | `EditBookViewModel` |
| `book_detail.dfy` | `BookDetail` | `openWhatsApp` and the owner-card and contact-button conditions |
| `map_picker.dfy` | `MapPicker` | the city search of `MapPickerScreen` |

The view models are classes whose methods change their fields the way the
Kotlin handlers do. A class invariant ties each derived list (`filtered`,
`categories`, `nearbyBooks`, `highlightedBooks`) to a pure function of the
inputs, and lemmas prove what those functions promise. Collaborators
outside the core take part as parameters. These are:

- the distance function;
- the uploader and the store's `add`;
- the repository calls of the view models;
- the Nominatim response;
- the clock, as `now`.

## Model

| member | source | states |
|---|---|---|
| Repository.DecodeAll | app/src/main/java/com/example/arsip/data/BooksRepositoryImpl.kt:36-39 | Decoding never yields more books than documents, and every book it yields is what some document decodes to, with `id` set to that document's id |
| Repository.DecodeAllComplete | app/src/main/java/com/example/arsip/data/BooksRepositoryImpl.kt:36-39 | No document that decodes is lost; when every document decodes, nothing is dropped |
| Repository.SnapshotBooks | app/src/main/java/com/example/arsip/data/BooksRepositoryImpl.kt:36-40 | The list of one data callback: no longer than the snapshot (a null snapshot gives the empty list), `createdAt` never increasing, every `id` set |
| Repository.Project | app/src/main/java/com/example/arsip/data/BooksRepositoryImpl.kt:31-44 | One callback: an error leaves `last` as it was, a snapshot replaces it with that snapshot's books |
| Repository.LastGood | app/src/main/java/com/example/arsip/data/BooksRepositoryImpl.kt:27-43 | `last` after a run of callbacks, starting from the empty list |
| Repository.Emissions | app/src/main/java/com/example/arsip/data/BooksRepositoryImpl.kt:27-43 | One list is sent per callback, the k-th being `last` after the first k+1 callbacks |
| Repository.EmissionIsLastGood | app/src/main/java/com/example/arsip/data/BooksRepositoryImpl.kt:27-43 | The k-th list sent is `last` as it stands after the k-th callback |
| Repository.ErrorResendsPrevious | app/src/main/java/com/example/arsip/data/BooksRepositoryImpl.kt:32-35 | An error re-sends the list sent just before it, or the empty list when it is the first callback |
| Repository.LastGoodWithoutSnapshot | app/src/main/java/com/example/arsip/data/BooksRepositoryImpl.kt:27-35 | Before any snapshot, `last` is empty however many errors came |
| Repository.LastGoodIsLatestSnapshot | app/src/main/java/com/example/arsip/data/BooksRepositoryImpl.kt:36-43 | After a snapshot followed only by errors, `last` is that snapshot's list: no later error blanks it |
| Repository.SnapshotListener.AllBooks | app/src/main/java/com/example/arsip/data/BooksRepositoryImpl.kt:48-49 | `allBooksFlow` starts open, with `last` empty and nothing sent |
| Repository.SnapshotListener.MyBooks | app/src/main/java/com/example/arsip/data/BooksRepositoryImpl.kt:20-27 | `myBooksFlow` with no signed-in user sends exactly one empty list and is closed; with a user it starts open and empty, scoped to that owner |
| Repository.SnapshotListener.OnEvent | app/src/main/java/com/example/arsip/data/BooksRepositoryImpl.kt:31-44 | An open listener sends `last` on an error (unchanged) and the decoded, newest-first list on a snapshot (which becomes `last`); the sent lists stay those of every callback so far; a closed flow does nothing |
| Repository.SnapshotListener.Cancel | app/src/main/java/com/example/arsip/data/BooksRepositoryImpl.kt:45 | Closing the flow keeps `last` and what was sent |
| Repository.UploadAll | app/src/main/java/com/example/arsip/data/BooksRepositoryImpl.kt:78 | Uploads succeed as a whole exactly when each image uploads; the URLs are in image order; a failure is the first image's failure in order |
| Repository.NewBook | app/src/main/java/com/example/arsip/data/BooksRepositoryImpl.kt:79-88 | The document `addBook` builds: the given title, author, description, URLs, owner, address and coordinates, with no id |
| Repository.AddBook | app/src/main/java/com/example/arsip/data/BooksRepositoryImpl.kt:76-90 | All or nothing: with no user the call fails and nothing is written; a failed upload is passed through and nothing is written; otherwise exactly one document, `NewBook` with the uploaded URLs in image order, is handed to `add`, and the call succeeds exactly when `add` does, returning that document |
| Repository.GetMyAddress | app/src/main/java/com/example/arsip/data/BooksRepositoryImpl.kt:113-120 | No user gives `("", null, null)`; a missing address becomes `""`; the coordinates are the document's; a failed read fails |
| Repository.GetBookEmission | app/src/main/java/com/example/arsip/data/BooksRepositoryImpl.kt:126-132 | A book is sent exactly when there is no error, the snapshot exists and decodes; it carries the snapshot's id |
| Books.NewestFirst | app/src/main/java/com/example/arsip/data/BooksRepositoryImpl.kt:40 | The same books (as a multiset), with `createdAt` never increasing |
| Books.NewestFirstIdempotent | app/src/main/java/com/example/arsip/ui/discover/DiscoverViewModel.kt:55 | Sorting an already newest-first list again changes nothing |
| Categories.IsValidCategory | app/src/main/java/com/example/arsip/data/BookCategories.kt:53-55 | A category is valid exactly when it equals an entry of the list |
| Categories.AllCategoriesDistinct | app/src/main/java/com/example/arsip/data/BookCategories.kt:28-50 | The list has 21 entries, no two equal |
| Categories.NamedConstantsValid | app/src/main/java/com/example/arsip/data/BookCategories.kt:5-50 | Each of the 21 named constants is a valid category |
| Categories.ValidCategoryShape | app/src/main/java/com/example/arsip/data/BookCategories.kt:28-50 | Every valid category starts with a capital letter followed by a lower-case one |
| Categories.RejectedExamples | app/src/main/java/com/example/arsip/data/BookCategories.kt:53-55 | The test is exact and case-sensitive: `""`, `"sejarah"` and `"SEJARAH"` are rejected, `"Sejarah"` is accepted |
| Discover.BookDistance | app/src/main/java/com/example/arsip/ui/discover/DiscoverViewModel.kt:62-68 | The distance is unknown exactly when a book or user coordinate is missing, and otherwise is the distance from the user to the book |
| Discover.CandidatesAreStagedFilters | app/src/main/java/com/example/arsip/ui/discover/DiscoverViewModel.kt:42-52 | The candidate list is the source's three `filter` stages in order: available, query, category |
| Discover.CandidatesCount | app/src/main/java/com/example/arsip/ui/discover/DiscoverViewModel.kt:42-52 | A book passing every stage keeps its number of occurrences; any other book is gone |
| Discover.FilteredContents | app/src/main/java/com/example/arsip/ui/discover/DiscoverViewModel.kt:41-59 | `filtered` is a reordering of exactly the books that pass every stage, each as often as in the input |
| Discover.Filtered | app/src/main/java/com/example/arsip/ui/discover/DiscoverViewModel.kt:41-59 | The `combine` pipeline: available books matching query and category, newest first or nearest first; its properties are the `Filtered…` lemmas |
| Discover.KeepsMeans | app/src/main/java/com/example/arsip/ui/discover/DiscoverViewModel.kt:43-52 | A kept book is available, matches a non-blank query in title or category, and equals a non-blank category ignoring case |
| Discover.MatchedQueryMeans | app/src/main/java/com/example/arsip/ui/discover/DiscoverViewModel.kt:45-47 | A non-blank query is matched only by a book whose lower-cased title or category contains the trimmed, lower-cased query |
| Discover.QueryNotBlank | app/src/main/java/com/example/arsip/ui/discover/DiscoverViewModel.kt:45-46 | A non-blank query stays non-blank once trimmed and lower-cased, so the query stage is not skipped |
| Discover.FilteredSound | app/src/main/java/com/example/arsip/ui/discover/DiscoverViewModel.kt:41-59 | Every book in `filtered` is available and satisfies the query and category stages, stated on the raw query and category |
| Discover.BlankFiltersKeepAvailable | app/src/main/java/com/example/arsip/ui/discover/DiscoverViewModel.kt:44-52 | A blank query and a blank category leave exactly the available books, as a multiset |
| Discover.BlankKeepsAvailable | app/src/main/java/com/example/arsip/ui/discover/DiscoverViewModel.kt:44-52 | With both blank, a book is kept exactly when it is available |
| Discover.NewestOrder | app/src/main/java/com/example/arsip/ui/discover/DiscoverViewModel.kt:55 | NEWEST: `createdAt` never increases along `filtered` |
| Discover.NearestOrder | app/src/main/java/com/example/arsip/ui/discover/DiscoverViewModel.kt:56 | NEAREST: books of known distance come before those of unknown distance, and known distances never decrease |
| Discover.FilteredIdempotent | app/src/main/java/com/example/arsip/ui/discover/DiscoverViewModel.kt:41-59 | Running the pipeline on its own output gives that output back |
| Discover.NonBlankCategoriesMember | app/src/main/java/com/example/arsip/ui/discover/DiscoverViewModel.kt:38 | A string is listed exactly when it is non-blank and the category of some book |
| Discover.CategoryListOrdered | app/src/main/java/com/example/arsip/ui/discover/DiscoverViewModel.kt:37-39 | `categories` is strictly increasing in string order, so it has no duplicates |
| Discover.CategoryList | app/src/main/java/com/example/arsip/ui/discover/DiscoverViewModel.kt:37-39 | The non-blank categories, without duplicates, sorted; its properties are the `CategoryList…` lemmas |
| Discover.CategoryListFromBooks | app/src/main/java/com/example/arsip/ui/discover/DiscoverViewModel.kt:37-39 | Every entry of `categories` is non-blank and some book's category |
| Discover.CategoryListComplete | app/src/main/java/com/example/arsip/ui/discover/DiscoverViewModel.kt:37-39 | Every non-blank book category appears in `categories` |
| Discover.DiscoverViewModel.constructor | app/src/main/java/com/example/arsip/ui/discover/DiscoverViewModel.kt:26-35 | Empty list, empty query and category, NEWEST, no location, and the derived lists in sync |
| Discover.DiscoverViewModel.Recompute | app/src/main/java/com/example/arsip/ui/discover/DiscoverViewModel.kt:41-60 | `filtered` becomes the pipeline of the current inputs at the current location |
| Discover.DiscoverViewModel.OnBooks | app/src/main/java/com/example/arsip/ui/discover/DiscoverViewModel.kt:37-41 | A new list recomputes `categories` and `filtered`; an equal list changes nothing |
| Discover.DiscoverViewModel.SetQuery | app/src/main/java/com/example/arsip/ui/discover/DiscoverViewModel.kt:29 | A new query recomputes `filtered` and leaves `categories` alone; an equal one changes nothing |
| Discover.DiscoverViewModel.SetCategory | app/src/main/java/com/example/arsip/ui/discover/DiscoverViewModel.kt:30 | A new category recomputes `filtered`; an equal one changes nothing |
| Discover.DiscoverViewModel.SetSort | app/src/main/java/com/example/arsip/ui/discover/DiscoverViewModel.kt:31 | A new sort recomputes `filtered`; an equal one changes nothing |
| Discover.DiscoverViewModel.OnMyAddress | app/src/main/java/com/example/arsip/ui/discover/DiscoverViewModel.kt:83-91 | A successful address read sets the location; a failure is ignored; `filtered` is not recomputed either way |
| Home.ProfileLocation | app/src/main/java/com/example/arsip/ui/home/HomeViewModel.kt:94-100 | The profile's coordinates when both are non-zero, else Jakarta (-6.2088, 106.8456) |
| Home.ProfileLocationNonZero | app/src/main/java/com/example/arsip/ui/home/HomeViewModel.kt:94-100 | The chosen location never has a 0.0 coordinate |
| Home.UserName | app/src/main/java/com/example/arsip/ui/home/HomeViewModel.kt:104 | The display name when it is not blank, else "User" |
| Home.UserNameNotBlank | app/src/main/java/com/example/arsip/ui/home/HomeViewModel.kt:104 | The name shown is never blank |
| Home.ToInt | app/src/main/java/com/example/arsip/ui/home/HomeViewModel.kt:45-47 | `Double.toInt()`: truncation toward zero within the `Int` range, saturating outside it |
| Home.DistanceKm | app/src/main/java/com/example/arsip/ui/home/HomeViewModel.kt:33-42 | The distance is known exactly when the user location and both book coordinates exist |
| Home.CalculateDistance | app/src/main/java/com/example/arsip/ui/home/HomeViewModel.kt:32-49 | Without a distance, the trimmed text before the address's first comma; otherwise meters below 1 km, one decimal below 10 km, whole km from 10 km |
| Home.FallbackForm | app/src/main/java/com/example/arsip/ui/home/HomeViewModel.kt:34 | The trimmed text before the address's first comma holds no comma and has no whitespace at either end |
| Home.CalculateDistanceForms | app/src/main/java/com/example/arsip/ui/home/HomeViewModel.kt:32-49 | The fallback text holds no comma and no surrounding whitespace; meters are 0 to 999; the one-decimal form lies in [1, 10); the whole-km form is at least 10 |
| Home.SearchedCount | app/src/main/java/com/example/arsip/ui/home/HomeViewModel.kt:208-219 | The search stage keeps each passing book as often as in the input, and no other book |
| Home.NearbyCount | app/src/main/java/com/example/arsip/ui/home/HomeViewModel.kt:224-235 | The radius stage keeps each book with coordinates within 25 km as often as in its input, and no other book |
| Home.SearchedIsStagedFilters | app/src/main/java/com/example/arsip/ui/home/HomeViewModel.kt:208-219 | The search stage is the availability filter, then the query filter only when the query is not blank |
| Home.SearchStageExact | app/src/main/java/com/example/arsip/ui/home/HomeViewModel.kt:211-219 | The search stage keeps exactly the available books matching the untrimmed, lower-cased query in title, author, category or description; a blank query keeps every available book |
| Home.FilterBooksSound | app/src/main/java/com/example/arsip/ui/home/HomeViewModel.kt:204-254 | `nearbyBooks` holds only available books, none more often than in `allBooks` |
| Home.FilterBooks | app/src/main/java/com/example/arsip/ui/home/HomeViewModel.kt:204-254 | The three stages of `filterBooks`: available and matching the query, then nearest within 25 km, newest first or as found; its properties are the `FilterBooks…` lemmas |
| Home.Searched | app/src/main/java/com/example/arsip/ui/home/HomeViewModel.kt:208-219 | Filters 1 and 2: the available books that match the query, in order |
| Home.Nearby | app/src/main/java/com/example/arsip/ui/home/HomeViewModel.kt:224-235 | The books with coordinates within 25 km, in order |
| Home.TerdekatOrder | app/src/main/java/com/example/arsip/ui/home/HomeViewModel.kt:222-248 | "terdekat" with a location: every result has coordinates within 25 km, distances never decrease, and the results are the searched books within reach |
| Home.TerbaruOrder | app/src/main/java/com/example/arsip/ui/home/HomeViewModel.kt:249-252 | "terbaru": newest first, a reordering of the searched books |
| Home.OtherFiltersKeepOrder | app/src/main/java/com/example/arsip/ui/home/HomeViewModel.kt:222-254 | "terdekat" without a location, or any other filter, returns the search stage unchanged |
| Home.HighlightedSpec | app/src/main/java/com/example/arsip/ui/home/HomeViewModel.kt:144 | At most five books, all available, the first available books in list order, five whenever five exist |
| Home.Highlighted | app/src/main/java/com/example/arsip/ui/home/HomeViewModel.kt:144 | The first five available books |
| Home.HomeViewModel.constructor | app/src/main/java/com/example/arsip/ui/home/HomeViewModel.kt:19-30 | The default `HomeState`: "User", "terdekat", 5 km, no location, empty lists, loading |
| Home.HomeViewModel.ApplyFilters | app/src/main/java/com/example/arsip/ui/home/HomeViewModel.kt:194-202 | `nearbyBooks` becomes `filterBooks` of the current state; nothing else changes |
| Home.HomeViewModel.OnProfile | app/src/main/java/com/example/arsip/ui/home/HomeViewModel.kt:92-111 | Name, photo and chosen location come from the profile (null after a failed flow), then the feed is refiltered at that location |
| Home.HomeViewModel.OnProfileFailure | app/src/main/java/com/example/arsip/ui/home/HomeViewModel.kt:113-122 | "User" at Jakarta; the feed stays in sync |
| Home.HomeViewModel.OnLoadStart | app/src/main/java/com/example/arsip/ui/home/HomeViewModel.kt:130 | Loading, with no error |
| Home.HomeViewModel.OnBooks | app/src/main/java/com/example/arsip/ui/home/HomeViewModel.kt:137-148 | The list, its filtered view and its highlighted strip, not loading, no error |
| Home.HomeViewModel.OnSearchQueryChange | app/src/main/java/com/example/arsip/ui/home/HomeViewModel.kt:173-176 | The query is stored and the feed refiltered with it |
| Home.HomeViewModel.OnFilterSelect | app/src/main/java/com/example/arsip/ui/home/HomeViewModel.kt:178-181 | The filter is stored and the feed refiltered with it |
| Home.HomeViewModel.OnRadiusChange | app/src/main/java/com/example/arsip/ui/home/HomeViewModel.kt:183-186 | The radius is stored but the feed does not change: `filterBooks` never reads it |
| Home.HomeViewModel.OnLocationPermissionGranted | app/src/main/java/com/example/arsip/ui/home/HomeViewModel.kt:188-192 | The location becomes Jakarta and the feed is refiltered there |
| AddBookForm.ParseLong | app/src/main/java/com/example/arsip/ui/books/AddBookViewModel.kt:48 | `toLongOrNull`: a value only inside the `Long` range; the empty string and a bare sign are null; a parsed string is digits after an optional sign |
| AddBookForm.ParseShowAny | app/src/main/java/com/example/arsip/ui/books/AddBookViewModel.kt:48 | Parsing a printed integer gives it back when it fits a `Long`, else null |
| AddBookForm.ParseShow | app/src/main/java/com/example/arsip/ui/books/AddBookViewModel.kt:48 | Every `Long` survives printing and parsing |
| AddBookForm.PriceOf | app/src/main/java/com/example/arsip/ui/books/AddBookViewModel.kt:48 | The price sent is a `Long`, and 0 when the text does not parse |
| AddBookForm.PriceOfSpec | app/src/main/java/com/example/arsip/ui/books/AddBookViewModel.kt:48 | A printed `Long` is sent as itself; text that is not a number, or an out-of-range number, is sent as 0 |
| AddBookForm.AddBookViewModel.constructor | app/src/main/java/com/example/arsip/ui/books/AddBookViewModel.kt:16-27 | An empty form using the profile address, not busy, no message |
| AddBookForm.AddBookViewModel.LoadProfileAddress | app/src/main/java/com/example/arsip/ui/books/AddBookViewModel.kt:29-33 | A profile read that succeeds fills the address and coordinates; a failed read leaves them as they were |
| AddBookForm.AddBookViewModel.OnImagesSelected | app/src/main/java/com/example/arsip/ui/books/AddBookViewModel.kt:36 | The selection replaces the previous one wholesale |
| AddBookForm.AddBookViewModel.ToggleUseProfileAddr | app/src/main/java/com/example/arsip/ui/books/AddBookViewModel.kt:37-43 | The flag becomes the new value; enabling with a successful read loads address and coordinates, and disabling or a failed read leaves them unchanged |
| AddBookForm.AddBookViewModel.SetManualAddress | app/src/main/java/com/example/arsip/ui/books/AddBookViewModel.kt:44 | Ignored while the profile address is in use, else sets the address only |
| AddBookForm.AddBookViewModel.SetManualLatLng | app/src/main/java/com/example/arsip/ui/books/AddBookViewModel.kt:45 | Ignored while the profile address is in use, else sets both coordinates together |
| AddBookForm.AddBookViewModel.Request | app/src/main/java/com/example/arsip/ui/books/AddBookViewModel.kt:48-50 | Trimmed title, description and address, the parsed price, images and coordinates unchanged |
| AddBookForm.AddBookViewModel.AddBook | app/src/main/java/com/example/arsip/ui/books/AddBookViewModel.kt:47-54 | Sends the request, is not busy afterwards; success keeps the message, failure shows the error's text or "Gagal menyimpan buku" |
| EditBookForm.EditBookViewModel.constructor | app/src/main/java/com/example/arsip/ui/books/EditBookViewModel.kt:21-31 | No book, empty fields, no coordinates, not busy, no message |
| EditBookForm.EditBookViewModel.OnBookLoaded | app/src/main/java/com/example/arsip/ui/books/EditBookViewModel.kt:37-53 | A fetched book fills every form field; a missing one leaves the form as it was |
| EditBookForm.EditBookViewModel.OnAddressUpdate | app/src/main/java/com/example/arsip/ui/books/EditBookViewModel.kt:59-63 | Sets exactly the address and coordinates |
| EditBookForm.EditBookViewModel.Request | app/src/main/java/com/example/arsip/ui/books/EditBookViewModel.kt:75-84 | Every text field trimmed, the coordinates as they are; a form passing the check sends a non-empty title and author |
| EditBookForm.EditBookViewModel.SaveBook | app/src/main/java/com/example/arsip/ui/books/EditBookViewModel.kt:68-87 | A blank title or author only sets "Judul dan Penulis tidak boleh kosong."; otherwise the trimmed request is sent, and success clears `busy` and runs `onSuccess` once |
| EditBookForm.RequestIsTrimmed | app/src/main/java/com/example/arsip/ui/books/EditBookViewModel.kt:75-84 | Trimming the sent fields again changes nothing; a valid title and author start with a non-blank character |
| BookDetail.StripPhone | app/src/main/java/com/example/arsip/ui/books/BookDetailScreen.kt:48 | The stripped number holds no '+', '-' or ' ' |
| BookDetail.StripKeepsOrder | app/src/main/java/com/example/arsip/ui/books/BookDetailScreen.kt:48 | Stripping keeps exactly the other characters, in their original order |
| BookDetail.StripClean | app/src/main/java/com/example/arsip/ui/books/BookDetailScreen.kt:48 | A number without those characters is left as it is |
| BookDetail.NormalizePhone | app/src/main/java/com/example/arsip/ui/books/BookDetailScreen.kt:50-54 | A stripped number starting "08" becomes "62" and the number without its first character; any other stays as stripped |
| BookDetail.NormalizeIdempotent | app/src/main/java/com/example/arsip/ui/books/BookDetailScreen.kt:48-54 | The result holds no '+', '-' or ' ', never starts with "08", and normalising it again changes nothing |
| BookDetail.WhatsAppUrl | app/src/main/java/com/example/arsip/ui/books/BookDetailScreen.kt:56 | The link is "https://wa.me/", the normalised number, "?text=" and the encoded message |
| BookDetail.Message | app/src/main/java/com/example/arsip/ui/books/BookDetailScreen.kt:46 | The greeting that names the book title in quotes |
| BookDetail.ShowOwnerCard | app/src/main/java/com/example/arsip/ui/books/BookDetailScreen.kt:315 | The owner card shows for a viewer who is not the owner once the owner's profile is loaded |
| BookDetail.ShowContactButton | app/src/main/java/com/example/arsip/ui/books/BookDetailScreen.kt:371 | The button shows inside the owner card for an available book and a non-blank phone number |
| BookDetail.ContactButtonSpec | app/src/main/java/com/example/arsip/ui/books/BookDetailScreen.kt:371 | The button shows exactly for a non-owner viewer with the owner loaded, an available book and a phone holding a non-whitespace character |
| MapPicker.SecondaryParts | app/src/main/java/com/example/arsip/ui/map/MapPickerScreen.kt:315-318 | No part of the secondary line is blank |
| MapPicker.CityLike | app/src/main/java/com/example/arsip/ui/map/MapPickerScreen.kt:305-308 | The `city` field, or "" when there is no address |
| MapPicker.Primary | app/src/main/java/com/example/arsip/ui/map/MapPickerScreen.kt:311-314 | The city when not blank, else the trimmed first segment of the display name |
| MapPicker.Secondary | app/src/main/java/com/example/arsip/ui/map/MapPickerScreen.kt:315-319 | The non-blank county, state and country joined by " · " |
| MapPicker.Suggestions | app/src/main/java/com/example/arsip/ui/map/MapPickerScreen.kt:301-329 | One suggestion per element, in response order |
| MapPicker.TryMap | app/src/main/java/com/example/arsip/ui/map/MapPickerScreen.kt:297-329 | The `buildList` loop in `runCatching`: a result exactly when every element converts, and then one result per element in order |
| MapPicker.BuildSuggestions | app/src/main/java/com/example/arsip/ui/map/MapPickerScreen.kt:301-329 | The loop yields one suggestion per element when every element has coordinates, and abandons the list when one does not |
| MapPicker.FetchCitySuggestions | app/src/main/java/com/example/arsip/ui/map/MapPickerScreen.kt:297-332 | A non-success response, or any element without coordinates, gives no suggestions at all; otherwise one per element |
| MapPicker.FirstSegmentNoComma | app/src/main/java/com/example/arsip/ui/map/MapPickerScreen.kt:313 | The first segment of the display name holds no comma |
| MapPicker.FirstSegmentPiece | app/src/main/java/com/example/arsip/ui/map/MapPickerScreen.kt:313 | The first segment is a contiguous piece of the display name |
| MapPicker.PrimarySpec | app/src/main/java/com/example/arsip/ui/map/MapPickerScreen.kt:305-314 | The city when not blank, else the trimmed first segment of the display name; blank only when both are |
| MapPicker.SecondaryEmpty | app/src/main/java/com/example/arsip/ui/map/MapPickerScreen.kt:315-319 | The secondary line is empty exactly when county, state and country are all blank |
| MapPicker.GeocodeCity | app/src/main/java/com/example/arsip/ui/map/MapPickerScreen.kt:361-370 | A point exactly for a successful, non-empty response whose first element has coordinates; it is that element's point |
| MapPicker.SearchQuery | app/src/main/java/com/example/arsip/ui/map/MapPickerScreen.kt:147-148 | The button geocodes the trimmed query, and does nothing exactly when the query is blank |
| MapPicker.CitySearch.constructor | app/src/main/java/com/example/arsip/ui/map/MapPickerScreen.kt:53-55 | No suggestions, not loading, nothing fetched |
| MapPicker.CitySearch.OnQueryChanged | app/src/main/java/com/example/arsip/ui/map/MapPickerScreen.kt:58-68 | A trimmed query shorter than 2 UTF-16 units clears the suggestions and fetches nothing; a longer one is fetched once and its suggestions (or none on failure) replace the old ones |
| MapPicker.Utf16Length | app/src/main/java/com/example/arsip/ui/map/MapPickerScreen.kt:60 | `String.length` counts between one and two units per character |
| MapPicker.QueryGate | app/src/main/java/com/example/arsip/ui/map/MapPickerScreen.kt:59-63 | A trimmed query is too short exactly when it is empty or a single character of the Basic Multilingual Plane |
| Text.Trim | app/src/main/java/com/example/arsip/ui/discover/DiscoverViewModel.kt:45 | `trim()` never lengthens, and is empty exactly for a blank string |
| Text.TrimEnds | app/src/main/java/com/example/arsip/ui/discover/DiscoverViewModel.kt:45 | A trimmed string neither starts nor ends with whitespace |
| Text.TrimInfix | app/src/main/java/com/example/arsip/ui/home/HomeViewModel.kt:34 | A trimmed string is a contiguous piece of the original |
| Text.TrimIdempotent | app/src/main/java/com/example/arsip/ui/books/EditBookViewModel.kt:75-84 | Trimming twice is trimming once |
| Text.BeforeFirst | app/src/main/java/com/example/arsip/ui/home/HomeViewModel.kt:34 | `split(",").first()` is the prefix before the first comma, and holds no comma |
| Text.Remove | app/src/main/java/com/example/arsip/ui/books/BookDetailScreen.kt:48 | `replace(c, "")` removes every `c` and keeps the count of every other character |
| Text.JoinEmpty | app/src/main/java/com/example/arsip/ui/map/MapPickerScreen.kt:319 | Joining non-empty parts is empty only when there are no parts |

## Where the code and its written description differ

The model follows the code in each case:

- Discover does not exclude the viewer's own books; nothing in `DiscoverViewModel` filters by owner.
- The user location is not an input of the discover `combine`. Setting it does not re-rank `filtered`; the new location is used at the next recomputation.
- `AddBookViewModel.addBook` passes the parsed price as the second argument, where `BooksRepository.addBook` declares `author`. `AddBookForm.AddBookRequest` models the call as the view model makes it.
- `EditBookViewModel.saveBook` passes a `category` that `BooksRepository.updateBook` does not declare. `EditBookForm.UpdateBookRequest` models the call as the view model makes it.
- `Book.kt` lacks most of the fields the logic reads. `Books.Book` has the fields the logic reads.
- `addBook` sets neither `category` nor `isAvailable`, and `Book.kt` declares neither. `Repository.NewBook` writes them as `""` and `true`; these two values are assumptions of the model, not taken from the code.
- In the map picker, `optString` never yields null. So the `town` and `village` alternatives of `cityLike` are never consulted, and `cityLike` is the city or "".
- `saveBook` has no `try`. When the update throws, `busy` stays true and `onSuccess` does not run. `EditBookForm.EditBookViewModel.SaveBook` states exactly that.

## Left out

- Haversine arithmetic: every distance is an abstract function parameter; only non-negativity and staying below `Double.MAX_VALUE` are assumed, by lemmas that need them.
- Home.CalculateDistance: the "%.1f km" and "$n m" texts are float formatting. The label keeps the form and the unrounded distance, not the text. The bound [1, 10) of `Home.CalculateDistanceForms` is on that raw value: a distance from 9.95 up to 10 km is shown as "10.0 km".
- Text.Lower: only the ASCII letters are lower-cased (Kotlin's `lowercase()` also maps non-ASCII letters).
- Text.LexLe: strings are ordered by Unicode code point; Kotlin compares UTF-16 code units, which differs only above U+FFFF.
- AddBookForm.ParseLong: only the ASCII digits are accepted; Kotlin's `toLongOrNull` also accepts other Unicode decimal digits.
- Firestore and Firebase Auth plumbing (`addSnapshotListener`, `await`, `add`, document reads) become events and function parameters; `awaitClose` is `Cancel`.
- `updateBook`, `updateAvailability` and `deleteBook` of the repository are single store writes with no logic of their own.
- Coroutines and state flows (`combine`, `stateIn`, `collectLatest`, `launch`) become explicit handler calls; scheduling and interleaving are not modelled.
- AddBookForm.AddBookViewModel.LoadProfileAddress: `getMyAddress` is called without `runCatching`, so a failure escapes the coroutine. The model keeps only that the fields stay unchanged; what the uncaught exception does to the app is not modelled. The same holds for `ToggleUseProfileAddr`.
- Home.HomeViewModel.OnBooks: the `catch` path of `loadBooks` (a `filterBooks` exception) is not modelled, because the modelled `filterBooks` cannot throw.
- MapPicker.CitySearch.OnQueryChanged: the 320 ms debounce and the cancellation of a running effect by the next query are not modelled; one call runs to completion.
- The Nominatim HTTP call, JSON parsing and `toDouble` become the `NominatimResponse` value; an element whose coordinate does not parse has no coordinate, and a missing body is an empty array.
- URL encoding of the message and launching the WhatsApp intent are left out; `BookDetail.WhatsAppUrl` takes the encoded message as given.
- The uploaders are one abstract, possibly failing `upload` function.
- Compose UI, navigation, dependency injection and the thin view models that only forward to Firebase are outside the core.
