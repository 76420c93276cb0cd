# Car inventory client: a verified model of its core

This project models the car-management browser client, a Next.js app that lists,
adds and deletes car listings. It reads from a remote JSON API and falls back on a
collection kept under one local-storage key. The model covers:

- the query engine that `fetchCars` runs on the collection. It applies a
  case-insensitive brand filter (skipped for `"all"`), then a case-insensitive
  substring search over model and brand, then counts the cars and pages and cuts
  out the requested page;
- the local collection store: `getCarsFromStorage`, `saveCarsToStorage`, `addCar`,
  `updateCar`, `deleteCar`, `getCar` and the mount effect that writes the built-in
  `mockCars` when the key is empty;
- the remote-then-local decisions: the hook's read (`fetchCars`), the home page's
  add (`handleAddCar`) and the car list's delete (`handleDelete`);
- the home page's distinct brand list and its page, search and brand state;
- the image slider's cyclic index;
- the add form's validation rules, its duplicate-free list of image URLs and its submit;
- the search worker's input check and filter.

Every network request, every JSON parse and every local-storage result is an input
to the model. A GET is `ListResponse`; a POST or DELETE is `Http.WriteResponse`.
The storage key's content is `Storage.Slot`: missing or empty, unparsable, not an
array, or an array of cars. A local write takes a flag `accepted`, because
`saveCarsToStorage` swallows errors, so no write is promised to last. Generated ids
are passed in as parameters. Strings the code tests for truthiness are
`seq<char>`; the empty string stands for a missing value.

Modules, one per source file plus shared helpers:

- `Cars`: the car record, the id-less input, partial updates and their merge, `mockCars`.
- `Text`: ASCII lower-casing and `includes`.
- `Seqs`: `filter`, subsequences, `[...new Set()]`, index removal and JavaScript `slice`.
- `Http`, `Wrappers`: response status and `Option`.
- `QueryEngine`, `Storage` and `UseCars`: hooks/use-cars.tsx.
- `ImageSliders`: components/image-slider.tsx.
- `AddCarForm`: components/add-car-modal.tsx.
- `SearchWorker`: workers/search-worker.ts.
- `Home`: app/page.tsx.
- `CarListing`: components/car-list.tsx.

Behaviours worth knowing, all modelled as the code has them:

- **An empty match has 0 pages.** `totalPages` is `Math.ceil(0 / limit) = 0`
  after a fetch that matches nothing, although the hook's initial state is 1.
- **Reading storage never writes the seed back.** `getCarsFromStorage` returns
  `mockCars` when nothing valid is stored, without storing it. Only the mount
  effect seeds the key, and only when it is absent or empty. A corrupt or
  non-array value stays as it is.
- **`updateCar` can change `mockCars` itself.** When storage holds no array, the
  array it edits is the module's `mockCars`, so the change reaches the fallback
  collection even if the write is refused. `Storage.CarStore.seed` models that array.
- **The two price rules differ.** The form rejects a price of 0. The schema
  declared in the hook accepts it, but nothing applies that schema.
- **Adding a car cannot fail.** The local `addCar` always returns a car, so the
  home page's "Failed to add car" branch cannot be reached.
- **The brand list reads the key without the fallback.** It stays unchanged
  when the key holds no array.

## Model

| member | source | states |
|---|---|---|
| Cars.WithId | hooks/use-cars.tsx:202-205 | the new car carries the supplied id, and without its id it is exactly the input |
| Cars.MergeFieldwise | hooks/use-cars.tsx:221 | each field of the merged car comes from the update when the update has that key, and from the old car otherwise |
| Cars.MergeNoChanges | hooks/use-cars.tsx:221 | an update with no keys leaves the car unchanged |
| Cars.MergeIdempotent | hooks/use-cars.tsx:221 | applying the same update twice gives the same car as applying it once |
| Cars.MergeThen | hooks/use-cars.tsx:221 | two successive updates give the same car as one update made of both, the later one's keys winning |
| Text.Lower | hooks/use-cars.tsx:165 | lower-casing keeps the length |
| Text.IncludesIff | hooks/use-cars.tsx:173-174 | `includes` holds exactly when the term occurs at some position of the string |
| Text.IncludesInEmpty | hooks/use-cars.tsx:173-174 | the empty string includes only the empty term |
| Text.IncludesSuffix | workers/search-worker.ts:15 | a message built as prefix + text includes that text |
| Text.NatToString | workers/search-worker.ts:15 | a status prints as a non-empty string of decimal digits that denotes it, with no leading zero |
| Seqs.Filter | hooks/use-cars.tsx:165 | the result is never longer than the input and holds exactly the input's elements that pass the test |
| Seqs.FilterCount | hooks/use-cars.tsx:165 | every copy of an element that passes is kept and every copy of one that fails is dropped |
| Seqs.SubsequenceOfItself | hooks/use-cars.tsx:163 | an unfiltered collection is an order-preserving subsequence of itself |
| Seqs.SubsequenceLength | hooks/use-cars.tsx:179 | a subsequence is never longer than what it came from |
| Seqs.FilterIsSubsequence | hooks/use-cars.tsx:165 | filtering keeps the surviving elements in their original order |
| Seqs.FilterConcat | hooks/use-cars.tsx:208 | filtering a concatenation filters each part |
| Seqs.FilterCommutes | hooks/use-cars.tsx:163-176 | two filters give the same result in either order |
| Seqs.FilterKeepsLength | hooks/use-cars.tsx:230-232 | a filter keeps the length exactly when every element passes |
| Seqs.FilterAll | hooks/use-cars.tsx:230-232 | a filter that every element passes returns the sequence itself |
| Seqs.FilterKeepsIncreasing | app/page.tsx:42 | filtering keeps elements in an order that is increasing by a key |
| Seqs.AppendFresh | components/add-car-modal.tsx:75-76 | appending an element not yet present keeps a list free of duplicates |
| Seqs.IndexOf | app/page.tsx:42 | the first position of an element, or the length when it is absent |
| Seqs.IndexOfInPrefix | app/page.tsx:42 | an element's first position in a prefix that contains it is its first position in the whole |
| Seqs.Distinct | app/page.tsx:42 | `[...new Set(s)]` has exactly the elements of `s`, each once |
| Seqs.IndexOfFreshLast | app/page.tsx:42 | a last element not seen before has its first occurrence at the end |
| Seqs.DistinctFirstOccurrenceOrder | app/page.tsx:42 | `[...new Set(s)]` lists the elements in the order of their first occurrence in `s` |
| Seqs.RemoveIndex | components/add-car-modal.tsx:82 | the element at the index is dropped and the rest keep their order; an index outside the list changes nothing |
| Seqs.RemoveIndexKeepsNoDuplicates | components/add-car-modal.tsx:81-83 | removing an element keeps a list free of duplicates |
| Seqs.SliceBound | hooks/use-cars.tsx:182 | a slice bound is clamped into the sequence, and a non-negative bound is kept when it fits |
| Seqs.JsSliceLength | hooks/use-cars.tsx:182 | a slice is never longer than the distance between its bounds |
| Seqs.JsSliceWindow | hooks/use-cars.tsx:182 | with non-negative bounds the slice is the window cut at the end, and empty from the end on |
| QueryEngine.BrandFilter | hooks/use-cars.tsx:162-166 | a brand other than "" and "all" keeps exactly the cars whose lower-cased brand equals it lower-cased; otherwise every car is kept; each kept car keeps all its copies; the result is an order-preserving subsequence |
| QueryEngine.MatchesSearchIff | hooks/use-cars.tsx:172-174 | for a non-empty term the truthiness guards change nothing: a car matches when its lower-cased model or brand contains the term |
| QueryEngine.SearchFilter | hooks/use-cars.tsx:168-176 | a non-empty term keeps exactly the cars whose lower-cased model or brand contains the lower-cased term; each kept car keeps all its copies; an empty term keeps all; the result is an order-preserving subsequence |
| QueryEngine.FiltersCommute | hooks/use-cars.tsx:162-176 | running the search filter before the brand filter gives the same cars |
| QueryEngine.BrandFilterAppend | hooks/use-cars.tsx:162-166 | a car appended to the collection ends the brand-filtered list exactly when it passes the brand filter |
| QueryEngine.SearchFilterAppend | hooks/use-cars.tsx:168-176 | a car appended to the list ends the searched list exactly when it matches the term |
| QueryEngine.AppendedCarFilteredLast | hooks/use-cars.tsx:162-176 | after a car is appended, as `addCar` does at line 208, the filtered list is the old one followed by that car exactly when it passes both filters |
| QueryEngine.TotalPages | hooks/use-cars.tsx:180 | there are 0 pages exactly when there are 0 cars, and never more pages than cars |
| QueryEngine.TotalPagesBounds | hooks/use-cars.tsx:180 | for a non-empty result the page count is the ceiling of count / limit: `(n - 1) * limit < count <= n * limit` |
| QueryEngine.PageStart | hooks/use-cars.tsx:181 | from page 1 on, a page starts at a non-negative index |
| QueryEngine.PageStartIsOffset | hooks/use-cars.tsx:181 | the page start is `(page - 1) * limit` |
| QueryEngine.RunQuery | hooks/use-cars.tsx:178-186 | the page holds at most `limit` cars, the count never exceeds the collection, and an empty match gives an empty page and 0 pages; RunQueryMeaning states the exact page count |
| QueryEngine.WindowAt | hooks/use-cars.tsx:182 | the slice from a non-negative start holds at most `limit` cars; it is the window cut at the end, and empty exactly from the end on |
| QueryEngine.PageWindow | hooks/use-cars.tsx:181-182 | for a page from 1 on, the page is the filtered cars from the page start, at most `limit` of them; it is empty exactly when the start is past the end |
| QueryEngine.PagesUpToPrefix | hooks/use-cars.tsx:181-182 | pages 1 to n together are exactly the filtered cars before page n + 1 starts |
| QueryEngine.AllPagesReassemble | hooks/use-cars.tsx:179-182 | concatenating pages 1 to totalPages gives back exactly the filtered cars |
| QueryEngine.RunQueryMeaning | hooks/use-cars.tsx:178-186 | totalCars is the number of filtered cars; totalPages is `TotalPages` of that number, that is `Math.ceil(totalCars / limit)`, the least n with `(n - 1) * limit < totalCars <= n * limit`; the page is their window from `(page - 1) * limit`: empty when that is past the end |
| QueryEngine.MoreThanOnePage | hooks/use-cars.tsx:180 | there is more than one page exactly when more cars match than fit on one page |
| QueryEngine.PaginationShown | app/page.tsx:203-205 | the pagination control is shown exactly when more cars match than fit on one page |
| QueryEngine.TwoCarsOnePage | hooks/use-cars.tsx:178-186 | two cars on page 1 of size 5: both are shown, 2 cars and 1 page in all |
| QueryEngine.SevenCarsSecondPage | hooks/use-cars.tsx:178-186 | seven cars on page 2 of size 5: the last two are shown, 7 cars and 2 pages in all |
| Storage.ReadSlotCases | hooks/use-cars.tsx:102-115 | a stored array is returned as is; a missing, unparsable or non-array value yields `mockCars` |
| Storage.ReadAfterSave | hooks/use-cars.tsx:118-126 | after an accepted write, a read returns exactly what was written |
| Storage.SaveWhatWasReadIsIdempotent | hooks/use-cars.tsx:102-126 | writing back what was read leaves the next read unchanged, whether or not the write is accepted |
| Storage.FirstIndex | hooks/use-cars.tsx:217 | -1 exactly when no car has the id; otherwise the first index holding it |
| Storage.FindCar | hooks/use-cars.tsx:239-242 | no car exactly when none has the id; otherwise the first car with that id |
| Storage.WithoutId | hooks/use-cars.tsx:230 | keeps, in order, every copy of each car with another id and nothing else; the length is kept exactly when no car had the id, and then the collection is unchanged |
| Storage.UpdateFirst | hooks/use-cars.tsx:216-222 | keeps the length; with no car having the id nothing changes; otherwise only the first index with the id is replaced, by the merge |
| Storage.CarStore.constructor | hooks/use-cars.tsx:33-92 | the store holds the given slot and the five example cars as the fallback |
| Storage.CarStore.Save | hooks/use-cars.tsx:118-126 | an accepted write stores the collection; a refused one leaves the slot as it was |
| Storage.CarStore.AddCar | hooks/use-cars.tsx:201-212 | returns the input with the supplied id; an accepted write makes the collection one longer, with the old cars unchanged and the new car last |
| Storage.CarStore.UpdateCar | hooks/use-cars.tsx:215-225 | false, with no write, exactly when no car has the id; otherwise the merged collection is written, and when it came from `mockCars` that array is changed too |
| Storage.CarStore.DeleteCar | hooks/use-cars.tsx:228-236 | true exactly when some car had the id; then every car with it is removed and the rest written; otherwise no write |
| Storage.CarStore.GetCar | hooks/use-cars.tsx:239-242 | no car exactly when none in the current collection has the id; otherwise the first car of the collection with that id |
| Storage.CarStore.SeedIfEmpty | hooks/use-cars.tsx:248-256 | only an absent or empty key is written, with `mockCars` |
| UseCars.ApiCollection | hooks/use-cars.tsx:145-160 | the API serves exactly when the request completed with a 2xx status and a JSON body; a non-array body counts as `[]` |
| UseCars.HttpErrorIsNetworkError | hooks/use-cars.tsx:153-156 | a non-2xx status is handled exactly like a network error |
| UseCars.CarsHook.constructor | hooks/use-cars.tsx:95-99 | no cars, loading, 1 page, 0 cars, not using local storage |
| UseCars.CarsHook.FetchCars | hooks/use-cars.tsx:128-198 | on API success the collection is cached and the flag cleared; on failure storage is untouched and the flag set; either way the exposed cars, count and pages are the query over the collection that served, and loading ends |
| ImageSliders.MovesStayInRange | components/image-slider.tsx:15-25 | both moves keep a valid index within the images |
| ImageSliders.MovesAreInverse | components/image-slider.tsx:15-25 | next undoes previous and previous undoes next |
| ImageSliders.AdvanceIsModular | components/image-slider.tsx:21-25 | pressing next k times moves k slides on, modulo the number of images |
| ImageSliders.Render | components/image-slider.tsx:31-84 | no images gives the empty state; otherwise a slide with position index + 1 and total the count, whose controls and `position / total` counter are shown only for more than one image, and a missing URL shows the placeholder |
| ImageSliders.ValidIndexShowsSlide | components/image-slider.tsx:39-84 | from a valid index a slide is shown, never the empty state, with its position between 1 and the count, controls and counter exactly when there is more than one image, and the current URL as its picture, or the placeholder for an empty one |
| ImageSliders.CounterAfterNextPresses | components/image-slider.tsx:21-25 | after k presses of next from a valid index the slide's position is `(i + k) % n + 1`, shown as the counter exactly when n > 1 |
| ImageSliders.CounterAfterPrevious | components/image-slider.tsx:15-19 | one press of previous moves the slide's position one back, from 1 round to n, shown as the counter exactly when n > 1 |
| ImageSliders.ImageSlider.constructor | components/image-slider.tsx:13 | the slider starts at index 0, which is valid when there is an image |
| ImageSliders.ImageSlider.GoToPrevious | components/image-slider.tsx:15-19 | from 0 to the last index, otherwise one back; a valid index stays valid and keeps a slide shown |
| ImageSliders.ImageSlider.GoToNext | components/image-slider.tsx:21-25 | from the last index to 0, otherwise one on; a valid index stays valid and keeps a slide shown |
| ImageSliders.ImageSlider.GoToSlide | components/image-slider.tsx:27-29 | the index becomes exactly the given one, with no bounds check |
| AddCarForm.FormSchemaIsStricter | components/add-car-modal.tsx:14-27 | every value the form accepts passes the hook's schema, and the two disagree exactly on a price of 0 |
| AddCarForm.FreeCarOnlyPassesHookSchema | hooks/use-cars.tsx:26 | a car with price 0 passes the hook's schema and fails the form's |
| AddCarForm.DefaultValues | components/add-car-modal.tsx:44-54 | the default values cannot be submitted |
| AddCarForm.Submitted | components/add-car-modal.tsx:59 | the values passed on have the URL list as thumbnails and are otherwise the entered ones |
| AddCarForm.AddCarModal.constructor | components/add-car-modal.tsx:38-54 | no URLs, empty input, not submitting, default values; the list is free of duplicates |
| AddCarForm.AddCarModal.SetImageUrl | components/add-car-modal.tsx:206 | the input holds the typed text and nothing else changes |
| AddCarForm.AddCarModal.HandleAddImage | components/add-car-modal.tsx:74-79 | a non-empty URL not yet listed is appended and the input cleared; otherwise nothing changes; the list stays free of duplicates |
| AddCarForm.AddCarModal.HandleRemoveImage | components/add-car-modal.tsx:81-83 | the URL at the index is removed and the order kept; the list stays free of duplicates |
| AddCarForm.AddCarModal.Submit | components/add-car-modal.tsx:56-72 | rejected values change nothing; accepted ones are passed on with the URL list as thumbnails; unless adding throws, the form, list and input are reset and the dialog closes; submitting ends |
| SearchWorker.FailedToFetch | workers/search-worker.ts:14-16 | for a non-negative status the message is the fixed start followed by decimal digits that denote the status |
| SearchWorker.OnMessage | workers/search-worker.ts:1-31 | a missing term or endpoint gives the input error and no fetch; a non-2xx status or a thrown error gives an error; results come only from a 2xx fetch and are, in order, exactly the cars whose lower-cased model or brand contains the lower-cased term, every copy of each |
| SearchWorker.OkFetchYieldsResults | workers/search-worker.ts:14-27 | a 2xx fetch for a valid message gives results |
| SearchWorker.NamelessCarNeverFound | workers/search-worker.ts:23 | a car without model and brand is never in the results |
| Home.BrandsOf | app/page.tsx:42 | one brand per car, in order |
| Home.AllBrandsOf | app/page.tsx:42 | exactly the non-empty brands of the cars, each once, in the order of first occurrence |
| Home.HomePage.constructor | app/page.tsx:18-34 | page 1, empty search, brand "all", refresh key 0, no brands |
| Home.HomePage.FetchAllBrands | app/page.tsx:36-50 | a stored array sets the brand list to its distinct brands; anything else leaves the list as it was |
| Home.HomePage.HandleRefresh | app/page.tsx:106-109 | the refresh key goes up by one and the current query is fetched again |
| Home.HomePage.HandlePageChange | app/page.tsx:111-113 | the page becomes the given one and nothing else changes |
| Home.HomePage.HandleSearchChange | app/page.tsx:115-118 | the term is set and the page goes back to 1 |
| Home.HomePage.HandleBrandChange | app/page.tsx:120-123 | the brand is set and the page goes back to 1 |
| Home.HomePage.HandleAddCar | app/page.tsx:52-104 | a 2xx POST succeeds via the API without a local write; otherwise the local add stores the car with the supplied id; either way the refresh key goes up by one and the current query is re-fetched over the resulting store |
| CarListing.CarList.constructor | components/car-list.tsx:29-33 | no deletion reported yet |
| CarListing.CarList.HandleDelete | components/car-list.tsx:35-85 | a 2xx DELETE succeeds without a local write; otherwise the local delete runs and succeeds exactly when the id is stored; both sources failing gives "Failed to delete car"; `onCarDeleted` runs once on success and never on failure |

## Left out

- HTTP requests, `JSON.parse`/`JSON.stringify` and the local-storage API: these are foreign I/O. Their outcomes are inputs to the model.
- Id generation with `Date.now()` and `Math.random()`: it is non-deterministic, so the id is a parameter. Nothing about uniqueness is claimed, because the code guarantees none.
- Full Unicode `toLowerCase`: `Text.Lower` maps only A to Z.
- JavaScript numbers: price, year and page are integers, not floats.
- QueryEngine.TotalPages: models `Math.ceil(count / limit)` by counting pages block by block, and `QueryEngine.TotalPagesBounds` proves that count is the ceiling.
- Zod internals: only the predicates the schemas express are modelled.
- Array items that are not car objects, such as `[null]` from the API or in storage: the model has only well-formed cars. In the code such an item makes an active filter throw into the outer `catch` of `fetchCars` (hooks/use-cars.tsx:187-194), which then shows the first `limit` cars of the local read, unfiltered, with `usingLocalStorage` set; that path is not modelled.
- QueryEngine.RunQuery and UseCars.CarsHook.FetchCars require a positive page size. Every caller passes 5; Home.HomePage passes the constant PageSize = 5 and needs no such requires.
- The `typeof window === "undefined"` branches used for server rendering.
- React rendering, toasts, console logging, and when effects re-run on dependency changes. The effects are modelled as methods a caller invokes.
- Concurrency: stale responses and the worker's message passing. The code does not handle them.
- components/api-status.tsx: an online probe and badges, with no logic of its own.
- The edit dialog and the car detail page: edit-car-modal is not part of this model, and the detail page only calls `getCar`.
- ImageSliders.Render: does not model the image `onError` handler that swaps in the placeholder at run time.
