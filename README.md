# Greenspace favorites and dispensary lookup, modelled in Dafny

Greenspace is a small web application for tracking cannabis strains. Signed-in
users keep a personal list of favorite strains. Each favorite can record a
preferred consumption type and a dispensary. This project models and verifies
four pieces of its sequential logic:

- **The favorites endpoint** (`src/pages/api/favorites.ts`). It checks the
  session and dispatches on the HTTP verb over the `favorites` collection.
  The collection is a `map` from `_id` to record, held by the class
  `FavoritesCollection`. Its `Find`, `InsertOne`, `DeleteOne` and `UpdateOne`
  methods stand for the driver calls. `Handle` is the handler, written as a
  method with early returns. The pure function `Reply` states what `Handle`
  answers and what the collection holds afterwards. The lemmas about `Reply`
  prove the per-verb behaviour, idempotent deletes and ownership isolation:
  no request ever adds, removes or changes another user's record.
- **The dispensary lookup** (`src/pages/api/places.ts`). `Validate` holds the
  checks made before the upstream request and builds that request.
  `Complete` turns the upstream reply into the answer. The classifier
  `IsDispensaryCandidate` is the keyword and type-tag test, and the result is
  cut to its first ten entries.
- **The favorites view** (`src/app/greenspace/page.tsx`). The class
  `GreenspacePage` holds the `favorites`, `showForm` and `editingId` state.
  After a successful request, the view patches its local list by appending
  an entry, filtering one out by id or replacing one by id. These are the
  functions `Appended`, `Removed` and `Replaced`.
- **The add-favorite form** (`src/components/StrainForm.tsx`). The class
  `StrainFormState` holds the form's state. Its methods are the event
  handlers and the two effects. `Suggestions` is the case-insensitive strain
  filter, capped at ten.

The JavaScript string operations used by the core are `toLowerCase`,
`includes` and `trim` (module `Text`). The array operations are `filter` and
`slice(0, n)` (module `Seqs`). Each is defined once and proved against an
independent characterisation:
- `ContainsIff` relates `includes` to substring occurrence.
- `TrimIsSlice` and `TrimEmptyIff` relate `trim` to the white space around a slice.
- `FilterIsSubsequence` and `FilterMultiplicity` pin `filter` down to the in-order selection of the accepted elements, each as often as it occurs.

Three observations came out of the proofs. None is claimed as a defect.

- `Places.EstablishmentsAlwaysKept`: the upstream request asks for
  `type=establishment`. Every result tagged "establishment" passes the
  classifier. So, against an upstream that honours that parameter, the
  filter removes nothing.
- `Greenspace.AppendedEntryMatchesStoredRecord`: after an add, the view's
  local entry keeps an empty consumption type or dispensary as `""`. The
  endpoint stores it as `null`. The two agree up to JavaScript truthiness,
  which is all the view's rendering tests.
- `StrainForm.SelectDispensaryThenEffect`: choosing a dispensary writes its
  name into the search input. When that changes the input, the dispensary
  effect runs again. For a name of three or more characters that is not
  blank, a new search follows, and an ok answer shows the result list that
  the selection had just hidden. When the input already held exactly that
  name, the effect does not run and the list stays hidden.

## Model

| member | source | states |
|---|---|---|
| `Text.LowerChar` | src/pages/api/places.ts:46 | lower-casing leaves no ASCII capital, moves each capital down by 32 and keeps every other character |
| `Text.Lower` | src/components/StrainForm.tsx:35 | the model's lower-casing keeps the length and lower-cases each character in place |
| `Text.Contains` | src/pages/api/places.ts:50-54 | `includes` of the empty string always holds, and a longer pattern than the string never occurs |
| `Text.ContainsIff` | src/pages/api/places.ts:50-54 | `includes` holds exactly when the pattern occurs at some index (both directions) |
| `Text.TrimStart` | src/components/StrainForm.tsx:42 | the result is the suffix left after dropping only white space, and does not start with white space |
| `Text.TrimEnd` | src/components/StrainForm.tsx:42 | the result is the prefix left after dropping only trailing white space, and does not end with white space |
| `Text.Trim` | src/components/StrainForm.tsx:42 | `trim` never grows the string, and a non-empty result starts and ends with a non-white-space character |
| `Text.TrimIsSlice` | src/components/StrainForm.tsx:42 | `trim` yields the slice of the input at some index with only white space before it and only white space after it |
| `Text.TrimEmptyIff` | src/components/StrainForm.tsx:42 | `query.trim()` is empty exactly when the query is all white space |
| `Seqs.Filter` | src/components/StrainForm.tsx:34-36 | `filter` keeps exactly the elements its test accepts and never grows the list |
| `Seqs.FilterMultiplicity` | src/components/StrainForm.tsx:34-36 | `filter` keeps each accepted element exactly as many times as it occurs, and no rejected one |
| `Seqs.FilterAppend` | src/app/greenspace/page.tsx:80 | filtering a list with one more element at the end filters the list, then keeps or drops that element |
| `Seqs.FilterIsSubsequence` | src/pages/api/places.ts:45-60 | `filter` keeps the surviving elements in their original order |
| `Seqs.Take` | src/pages/api/places.ts:63 | `slice(0, n)` is a prefix of length min(n, length) |
| `Seqs.FilterTakeIsSubsequence` | src/pages/api/places.ts:45-63 | `filter(...).slice(0, n)` is an order-preserving selection from the input |
| `Places.NameMatches` | src/pages/api/places.ts:46-54 | the name test looks for the keywords in the lower-cased name, so a name shorter than the shortest keyword ("pot") never matches |
| `Places.TypeMatches` | src/pages/api/places.ts:47-58 | absent `types` never match, and a match needs a tag at least as long as "store" |
| `Places.KeywordOccurs` | src/pages/api/places.ts:46-54 | the name test holds iff one of the five keywords occurs in the lower-cased name |
| `Places.TagOccurs` | src/pages/api/places.ts:47-58 | the type test holds iff some tag (none when `types` is absent) contains "store" or "establishment" |
| `Places.IsDispensaryCandidate` | src/pages/api/places.ts:45-59 | a place is a candidate iff a keyword occurs in its lower-cased name or a tag contains "store" or "establishment" |
| `Places.FilterPlaces` | src/pages/api/places.ts:45-60 | a place is kept iff it is among the raw results and passes the keyword/type classifier; missing `results` gives [] |
| `Places.Validate` | src/pages/api/places.ts:10-32 | the upstream request is made iff the verb is GET, `query` is one non-empty string and the key is non-empty; it searches for the query followed by " dispensary" with that key |
| `Places.Complete` | src/pages/api/places.ts:34-65 | 200 iff the reply decoded with status OK or ZERO_RESULTS, and then the first min(10, n) candidates with the status echoed; every other reply is the 500 error answer |
| `Places.Handle` | src/pages/api/places.ts:9-73 | 405 iff the verb is not GET, 400 iff GET with a bad `query`, 200 iff the request was made and the upstream answered OK/ZERO_RESULTS; an early rejection is the answer whatever the upstream says |
| `Places.NonGetRejected` | src/pages/api/places.ts:10-13 | any verb but GET gets 405 with Allow = [GET] |
| `Places.BadQueryRejected` | src/pages/api/places.ts:15-19 | a missing, empty or repeated `query` gets 400 |
| `Places.MissingKeyNoRequest` | src/pages/api/places.ts:22-25 | without an API key the answer is 500, no upstream request is built, and the answer does not depend on the upstream |
| `Places.SearchText` | src/pages/api/places.ts:28-32 | the upstream search text is the user's query followed by " dispensary" |
| `Places.UpstreamFailureIs500` | src/pages/api/places.ts:34-42 | an HTTP failure, an undecodable body or a status other than OK/ZERO_RESULTS gives the 500 error answer |
| `Places.SuccessfulAnswer` | src/pages/api/places.ts:45-65 | on success: the first min(10, n) of the n candidates (a prefix of the filtered list), all candidates, in upstream order, and the status echoed |
| `Places.ClassifierExample` | src/pages/api/places.ts:45-59 | "Green Leaf Dispensary" is kept and "Joe's Hardware" without a store/establishment tag is dropped |
| `Places.EstablishmentsAlwaysKept` | src/pages/api/places.ts:31-59 | results tagged "establishment" (the type the request asks for) are all kept |
| `FavoritesApi.CallerEmail` | src/pages/api/favorites.ts:8-12 | the caller is known iff session, user and a non-empty e-mail are all present |
| `FavoritesApi.OrNull` | src/pages/api/favorites.ts:33-34 | `v \|\| null` keeps a truthy value and maps every falsy one to null |
| `FavoritesApi.OwnedBy` | src/pages/api/favorites.ts:19 | `find({ userEmail })` yields exactly the records whose owner is the caller, unchanged |
| `FavoritesApi.NewFavorite` | src/pages/api/favorites.ts:29-35 | the inserted record is owned by the caller, carries the strain, and stores falsy optional fields as null |
| `FavoritesApi.ChangesFrom` | src/pages/api/favorites.ts:55-60 | the `$set` document carries the strain and stores falsy optional fields as null |
| `FavoritesApi.Rewrite` | src/pages/api/favorites.ts:55-60 | `$set` replaces the four mutable fields and never the owner |
| `FavoritesApi.DeleteOwned` | src/pages/api/favorites.ts:43 | `deleteOne` removes the record only if both id and owner match; every other record stays identical |
| `FavoritesApi.UpdateOwned` | src/pages/api/favorites.ts:53-61 | `updateOne` keeps the key set, rewrites only the record whose id and owner match, and leaves all others identical |
| `FavoritesApi.FavoritesCollection.constructor` | src/pages/api/favorites.ts:15 | the collection starts with the given records |
| `FavoritesApi.FavoritesCollection.Find` | src/pages/api/favorites.ts:19 | returns the caller's records and changes nothing |
| `FavoritesApi.FavoritesCollection.InsertOne` | src/pages/api/favorites.ts:29-35 | adds the record under an identifier not yet in use, and nothing else |
| `FavoritesApi.FavoritesCollection.DeleteOne` | src/pages/api/favorites.ts:43 | the new collection is `DeleteOwned` of the old; the count is 1 iff a record matched |
| `FavoritesApi.FavoritesCollection.UpdateOne` | src/pages/api/favorites.ts:53-61 | the new collection is `UpdateOwned` of the old; matched and modified counts as the driver reports them |
| `FavoritesApi.Reply` | src/pages/api/favorites.ts:7-66 | 401 exactly when there is no caller; only a 201 adds a key, the new id; every other answer adds none; only an authenticated POST, DELETE or PUT changes the collection; 405 exactly for an authenticated request with another verb |
| `FavoritesApi.Handle` | src/pages/api/favorites.ts:7-66 | the response and the new collection are exactly `Reply` of the old collection, with a fresh id for an insert |
| `FavoritesApi.UnauthenticatedRejected` | src/pages/api/favorites.ts:8-11 | without a session, user or e-mail every verb gets 401 and the collection is untouched |
| `FavoritesApi.ListIsCallersRecords` | src/pages/api/favorites.ts:17-21 | GET lists exactly the caller's records and changes nothing |
| `FavoritesApi.PostNeedsStrain` | src/pages/api/favorites.ts:25-28 | POST with a falsy strainId or strainName gets 400 and changes nothing |
| `FavoritesApi.PostAddsOne` | src/pages/api/favorites.ts:29-36 | a valid POST gets 201 and adds exactly one record owned by the caller, holding the strain and the optional fields as `\|\| null` gives them; earlier records are untouched and the caller's list gains exactly that record |
| `FavoritesApi.DeleteNeedsId` | src/pages/api/favorites.ts:41-42 | DELETE without an id gets 400 and changes nothing |
| `FavoritesApi.DeleteRemovesAtMostOwned` | src/pages/api/favorites.ts:43-44 | DELETE removes at most one record, one whose id and owner match; the deleted count is the number removed; all other records are identical |
| `FavoritesApi.DeleteIdempotent` | src/pages/api/favorites.ts:43-44 | repeating a DELETE changes nothing more and answers deletedCount 0 |
| `FavoritesApi.PutNeedsFields` | src/pages/api/favorites.ts:49-52 | PUT without id, strainId or strainName gets 400 and changes nothing |
| `FavoritesApi.PutRewritesOnlyOwned` | src/pages/api/favorites.ts:53-62 | a valid PUT rewrites the four fields of the matching owned record only, keeps its owner, and is a no-op (0 matched) on a record that is not the caller's |
| `FavoritesApi.OtherVerbsNotAllowed` | src/pages/api/favorites.ts:65-66 | any other verb gets 405 with Allow = [GET, POST, DELETE, PUT] |
| `FavoritesApi.OthersUntouched` | src/pages/api/favorites.ts:43-61 | for every request, another user's records are exactly as before and no record changes owner |
| `FavoritesApi.InsertOwned` | src/pages/api/favorites.ts:29-35 | inserting under a new key adds exactly that record to its owner's list |
| `FavoritesApi.InsertKeepsOthers` | src/pages/api/favorites.ts:29-35 | inserting a caller's record leaves every other user's records as they were |
| `FavoritesApi.DeleteKeepsOthers` | src/pages/api/favorites.ts:43 | a delete filtered on the caller's e-mail leaves every other user's records as they were |
| `FavoritesApi.UpdateKeepsOthers` | src/pages/api/favorites.ts:53-61 | an update filtered on the caller's e-mail changes no owner and leaves every other user's records as they were |
| `FavoritesApi.CreateThenList` | src/pages/api/favorites.ts:17-36 | creating "Blue Dream" without optional fields, then listing, shows that one record with null type and dispensary |
| `Greenspace.Appended` | src/app/greenspace/page.tsx:66-72 | the new entry comes after all existing entries, which are unchanged |
| `Greenspace.Removed` | src/app/greenspace/page.tsx:80 | exactly the entries with a different id survive |
| `Greenspace.Edited` | src/app/greenspace/page.tsx:99 | the edit keeps `_id` and replaces strainId, strainName, consumptionType and dispensary |
| `Greenspace.Replaced` | src/app/greenspace/page.tsx:97-101 | the list keeps its length; each entry with the id is edited and every other entry is unchanged |
| `Greenspace.RemovedKeepsOrder` | src/app/greenspace/page.tsx:80 | every entry with another id survives as often as it occurred, in its original order, and none with the id does |
| `Greenspace.RemoveUndoesAppend` | src/app/greenspace/page.tsx:66-80 | deleting a just-added entry whose id was new restores the list |
| `Greenspace.RemoveAfterReplace` | src/app/greenspace/page.tsx:80-101 | an edit touches no entry with another id: removing the id afterwards equals removing it before |
| `Greenspace.ReplaceIdempotent` | src/app/greenspace/page.tsx:97-101 | applying the same edit twice equals applying it once |
| `Greenspace.AppendedEntryMatchesStoredRecord` | src/app/greenspace/page.tsx:57-72 | the appended entry agrees with the stored record on the strain, and on the optional fields up to `\|\| null` |
| `Greenspace.GreenspacePage.constructor` | src/app/greenspace/page.tsx:25-28 | an empty list, the form closed and nothing being edited |
| `Greenspace.GreenspacePage.Load` | src/app/greenspace/page.tsx:42-48 | the list becomes the fetched favorites |
| `Greenspace.GreenspacePage.AddFavorite` | src/app/greenspace/page.tsx:53-75 | posts the strain, type and dispensary; on success appends the entry with the inserted id and closes the form, otherwise changes nothing |
| `Greenspace.GreenspacePage.DeleteFavorite` | src/app/greenspace/page.tsx:77-82 | on success the list is `Removed` of the old one, otherwise unchanged |
| `Greenspace.GreenspacePage.UpdateFavorite` | src/app/greenspace/page.tsx:84-104 | sends id and fields; on success the list is `Replaced` of the old one and editing ends, otherwise nothing changes |
| `Greenspace.GreenspacePage.ToggleForm` | src/app/greenspace/page.tsx:124 | the form's visibility flips |
| `Greenspace.GreenspacePage.CloseForm` | src/app/greenspace/page.tsx:135 | the form is closed |
| `Greenspace.GreenspacePage.StartEditing` | src/app/greenspace/page.tsx:181 | the entry with that id is being edited |
| `Greenspace.GreenspacePage.CancelEditing` | src/app/greenspace/page.tsx:161 | nothing is being edited |
| `StrainForm.NameMatches` | src/components/StrainForm.tsx:35 | a strain matches iff the lower-cased term occurs in its lower-cased name |
| `StrainForm.Suggestions` | src/components/StrainForm.tsx:33-38 | the first min(10, n) of the n matching strains (a prefix of the filtered catalogue), each in the catalogue and matching the term case-insensitively |
| `StrainForm.SuggestionsComplete` | src/components/StrainForm.tsx:34-37 | the suggestions keep catalogue order, and with at most ten matches every match is suggested |
| `StrainForm.MatchIgnoresCase` | src/components/StrainForm.tsx:35 | lower-casing the term or the name does not change whether a strain matches |
| `StrainForm.EmptyTermSuggestsFirstTen` | src/components/StrainForm.tsx:34-37 | an empty term suggests the first min(10, n) strains |
| `StrainForm.SelectedStrainMatchesItsName` | src/components/StrainForm.tsx:113 | a selected strain matches its own name, so the suggestion list is hidden by the `!selectedStrain` test, not by emptiness |
| `StrainForm.StrainFormState.constructor` | src/components/StrainForm.tsx:21-30 | every field starts empty, unselected or hidden |
| `StrainForm.StrainFormState.SetSearchTerm` | src/components/StrainForm.tsx:110 | the search term becomes the input's value |
| `StrainForm.StrainFormState.SetConsumptionType` | src/components/StrainForm.tsx:165 | the consumption type becomes the selected option |
| `StrainForm.StrainFormState.SetDispensarySearch` | src/components/StrainForm.tsx:187 | the dispensary search becomes the input's value |
| `StrainForm.StrainFormState.FilterStrainsEffect` | src/components/StrainForm.tsx:33-38 | the suggestion list becomes `Suggestions` of the catalogue for the current term |
| `StrainForm.StrainFormState.SearchDispensaries` | src/components/StrainForm.tsx:41-61 | a blank query clears and hides the results without a request; otherwise a request is made, an ok answer shows its results (or []), and a failure leaves them unchanged |
| `StrainForm.StrainFormState.DispensarySearchEffect` | src/components/StrainForm.tsx:64-75 | a search is made iff there are at least 3 characters and they are not all white space; without a search the results are cleared and hidden; an ok answer shows its results; a failed request leaves them as they were |
| `StrainForm.StrainFormState.SubmitEnabled` | src/components/StrainForm.tsx:225 | the submit button is enabled exactly when a strain is selected |
| `StrainForm.StrainFormState.HandleSubmit` | src/components/StrainForm.tsx:77-81 | `onAddFavorite` is called iff a strain is selected (the button's enabled state), with the current type and dispensary |
| `StrainForm.StrainFormState.HandleStrainSelect` | src/components/StrainForm.tsx:83-87 | the strain becomes selected, the search term becomes its name and the suggestions are cleared |
| `StrainForm.StrainFormState.HandleDispensarySelect` | src/components/StrainForm.tsx:89-93 | the selected dispensary and the search text both become the place's name and the results are hidden |
| `StrainForm.SelectDispensaryThenEffect` | src/components/StrainForm.tsx:64-93 | choosing a place sets the selection and the input to its name and leaves the strain fields alone; a search is made iff the name differs from the typed text and has 3 or more characters, not all blank; an ok answer then shows the hidden list again; in every other case the list stays hidden, with the results kept (same name, failed request) or cleared (short or blank name) |
| `StrainForm.SelectedStrainListedAgain` | src/components/StrainForm.tsx:33-38 | re-running the suggestion effect on a catalogue strain's own name gives a non-empty list that holds that strain unless ten earlier matches fill it |
| `StrainForm.SelectThenSubmit` | src/components/StrainForm.tsx:77-87 | selecting a strain and submitting hands exactly that strain, type and dispensary to the parent; the strain is selected and the term is its name; when that changed the term, the suggestion effect (lines 33-38) has already run before the click, so the suggestions are `Suggestions` of the name and, for a catalogue strain, non-empty; otherwise they stay cleared; every dispensary field and the type are unchanged |

## Left out

- Network calls are not modelled: the upstream places search, the strain catalogue fetch and the view's `/api/*` fetches. Their outcomes are inputs (`Upstream`, `AddOutcome`, the `ok` flags, `SearchOutcome`, `Load`'s argument).
- The session lookup is an input: an optional session holding an optional user with an optional e-mail.
- The database client and driver are an in-memory map. `insertOne` picks any unused identifier. Parsing `new ObjectId(id)` is not modelled: in the source a malformed id throws, while in the model it matches no record.
- JSON body members that are not strings (numbers, booleans, objects) are not modelled. A repeated `id` query parameter on DELETE is not modelled either. The model admits absent, null or string values only.
- `Text.Lower`: lower-cases ASCII letters only and maps one character to one. JavaScript's `toLowerCase` also maps non-ASCII capitals, and some of them ("İ", U+0130) become two code units, so it does not always keep the length.
- `Text.LowerChar`: has the same ASCII-only gap, since `Text.Lower` maps it over the string.
- `StrainForm.StrainFormState.DispensarySearchEffect`: counts code points. JavaScript's `length` counts UTF-16 units, which differ for characters outside the Basic Multilingual Plane.
- `Places.UpstreamFailureIs500`: states the 500 answer and its fixed message. The `error` detail string (the upstream status or exception text) and the `console.error` log are not modelled.
- The 405 responses are modelled as the `Allow` list. Their text body, "Method X Not Allowed", is not modelled.
- The URL encoding of the upstream request is not modelled (`encodeURIComponent`, the `type=establishment` and `key` parameters). Only the search text and the key are kept.
- GET returns its records as a map, so the driver's cursor order is not modelled.
- `Types.Place` always has a `name` and its tags are always strings. In the source a result without a `name` or with a non-string tag throws inside the filter (src/pages/api/places.ts:46 and 56), and the catch turns the whole answer into the 500 error. The model cannot produce that path.
- `Types.Place` leaves out the optional `rating` that `src/types.ts` declares, and any other upstream field the endpoint passes through. The form only renders the rating. The classifier reads `name` and `types` only.
- The strain `description`, `image_url` and `updated_at` fields are carried but only rendered.
- `Greenspace.GreenspacePage.Load`: takes a list of favorites. The source's load effect never checks `response.ok`, so it also stores a non-list body such as the 401 `{ message }` object. The model does not capture that.
- Timing and concurrency are not modelled: the 500 ms debounce and its cancellation, the `searchingDispensary` loading flag, and overlapping requests. The page's handlers read the `favorites` of the render that created them, so two requests in flight can lose an update. The model runs one handler at a time.
- The strain-details popup (`showStrainInfo`) only renders, and calls `handleStrainSelect`, which is modelled.
- Out of scope:
  - `src/app/page.tsx`: its recent-strains sort compares parsed dates, and its comparator returns 0 when either date is missing, so it is not a total order.
  - `src/app/settings/page.tsx`: local storage and DOM theme toggling.
  - `src/app/layout.tsx` and `tailwind.config.mjs`: presentation.
  - The NextAuth configuration.
- `src/types.ts` holds declarations only. They appear as the datatypes `Types.Strain` and `Types.Place`.
