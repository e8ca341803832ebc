# GreaseMeter mobile client: screen logic in Dafny

This project models the logic of the GreaseMeter mobile app, a client for a
place-review service. The app has a map screen and a bookmarks screen. Each
screen calls the service's HTTP API and shows the JSON it gets back. The model
covers the rules those screens apply between a response arriving and the
screen state changing:

- the URL join of the API base and a path (`Api`);
- JSON values and the JavaScript operators the screens apply to them:
  property access that throws on `null`, optional chaining, `??`, `||`,
  `Array.prototype.map` with a callback that may throw (`JsValues`), and
  `String.prototype.trim` (`JsStrings`);
- the review record both screens build, with its field fallbacks, and the two
  ways they find the review list in a response (`Reviews`);
- the map screen (`PlaceMap`): the bottom sheet's drag and snap rules over
  three abstract, ordered snap points FULL < HALF < CLOSED, the place list,
  the details sheet and the review form, as the class `PlaceMap.MapScreen`;
- the bookmarks screen (`Bookmarks`): loading the list, deleting by id, the
  details modal and the "recommend a place" form, as the class
  `Bookmarks.BookmarksScreen`.

Network results are inputs. A `Response` is either `Failed` (the fetch
rejected) or `Received(ok, body)`. A `Body` is the empty text, a text that
parses to a `Json` value, or a text that does not parse. The token read from
storage is an `Option<string>`. Only a present, non-empty token counts, because
`!token` also treats `""` as missing. Each `Alert.alert` is left out, except in
the recommendation form: there the alert becomes the returned `RecommendNotice`.
An expression that throws gives `Outcome.Thrown`, and each handler's
`try`/`catch` becomes the branch that handles `Thrown`.

Some behaviours the model keeps as the code has them:

- The drag handler adds the event's `dy` to the sheet's current position on
  every move event. `dy` is the gesture's total travel so far, not the travel
  since the previous event. `PlaceMap.MapScreen.Drag` takes the `dy` each event
  carries.
- `fetchPlaces` does not check `response.ok`. Any response whose body is an
  array with no null element replaces the places.
- The two screens unwrap the review list differently (`data.items ?? data`
  against "array, else `items ?? []`"). `Reviews.ScreensAgreeOnReviews` proves
  that they still show the same reviews for every response.

## Model

| member | source | states |
|---|---|---|
| `Api.ApiUrl` | constants/api.ts:3-6 | The URL starts with the base followed by `/`, ends with the path unchanged, and its length is base plus path, plus one exactly when the path has no leading slash |
| `Api.ApiUrlCases` | constants/api.ts:4-5 | A path with a leading slash is appended as is, and extra slashes are kept. Any other path, the empty one included, gets one `/` in front |
| `Api.ApiUrlSlashOptional` | constants/api.ts:4-5 | For a path without a leading slash, `apiUrl(p) == apiUrl("/" + p)` |
| `Api.ApiUrlIsBasePlusRooted` | constants/api.ts:3-6 | Every URL is the base followed by the path with exactly one leading slash guaranteed |
| `Api.ApiUrlInjective` | constants/api.ts:3-6 | Two paths give the same URL if and only if they are equal or differ by one added leading slash |
| `JsValues.ParseJson` | app/index.tsx:98 | `response.json()` and `JSON.parse` succeed if and only if the body is JSON text, and then give that value. The empty text throws too |
| `JsValues.HasToken` | app/bookmarks.tsx:45 | The `!token` guard (also at app/bookmarks.tsx:78 and 178 and app/index.tsx:187 and 227) passes exactly when the stored token is truthy as a JavaScript string: present and not `""` |
| `JsValues.Truthy` | app/bookmarks.tsx:198 | A value is truthy if and only if it is neither `undefined` nor `null`, and not `false`, `0` or `""` |
| `JsValues.Property` | app/index.tsx:101-102 | A property read gives a value if and only if the receiver is an object that has that key, and that value is the key's entry. Otherwise it gives `undefined` |
| `JsValues.Member` | app/index.tsx:126 | `v.key` throws if and only if `v` is `null`, and otherwise gives the property read of `key` |
| `JsValues.OptMember` | app/index.tsx:103 | `o?.key` on `undefined` or `null` gives `undefined` without throwing, and on any other value gives the property read of `key` |
| `JsValues.DecimalDigitsSpellsValue` | app/index.tsx:103 | The key that `o?.[i]` reads on an object is the decimal spelling of `i`: its digits spell the value `i`, with no leading zero unless `i` is 0 |
| `JsValues.OptIndex` | app/index.tsx:103-104 | `o?.[i]` on `undefined` or `null` gives `undefined`. On an array it gives element `i` when `i` is within its length and `undefined` otherwise. On a string it gives the one-character string at `i`, on an object the property spelled `i` in decimal, and on a number or boolean `undefined` |
| `JsValues.Coalesce` | app/index.tsx:128-130 | `a ?? b` is `a` unless `a` is `undefined` or `null`, and is then `b`, which may itself be `undefined` |
| `JsValues.CoalesceOr` | app/index.tsx:105 | `a ?? d` with a literal `d` is `a` when `a` is present and not null, and `d` otherwise |
| `JsValues.OrElse` | app/bookmarks.tsx:198 | JavaScript's logical or of `a` and `d` is `a` when `a` is truthy, and `d` otherwise |
| `JsValues.CoalesceVersusOr` | app/bookmarks.tsx:198 | The nullish operator `??` and the logical or give different results exactly for a present, non-null, falsy value that differs from the default. `??` keeps such a value |
| `JsValues.MapFrom` | app/index.tsx:100 | `map` succeeds if and only if every callback call succeeds. It then gives one result per element, in order, each the callback's value at that element and index |
| `JsValues.ArrayMap` | app/index.tsx:127 | `v.map(f)` throws when `v` is not an array. Otherwise it behaves as `MapFrom` from index 0 |
| `JsStrings.TrimStart` | app/bookmarks.tsx:168 | The result is the suffix of the input that starts at its first non-whitespace character. Everything before it is whitespace |
| `JsStrings.TrimEnd` | app/bookmarks.tsx:168 | The result is the prefix of the input that ends at its last non-whitespace character. Everything after it is whitespace |
| `JsStrings.Trim` | app/bookmarks.tsx:168-170 | The trimmed text is empty if and only if the input is all whitespace. A non-empty result neither starts nor ends with whitespace |
| `JsStrings.TrimIsTrimEndOfTrimStart` | app/bookmarks.tsx:168 | `trim` equals dropping the leading whitespace and then the trailing whitespace |
| `JsStrings.TrimRemovesPadding` | app/bookmarks.tsx:168-169 | Trimming whitespace-padded text `x`, where `x` has no whitespace at either end, gives back exactly `x` |
| `JsStrings.TrimIdempotent` | app/bookmarks.tsx:168-169 | Trimming twice is the same as trimming once |
| `Reviews.NormalizeReview` | app/bookmarks.tsx:122-126 | The review callback throws if and only if the element is `null`. Every field of the record it builds is present and not null |
| `Reviews.ReviewFallbacks` | app/index.tsx:127-131 | `id` is the first present, non-null of `id`, `review_id`, else the position. `text` falls back from `text` to `comment` to `""`. `rating` falls back from `rating` to `stars` to `0` |
| `Reviews.MapReviews` | app/index.tsx:127-131 | Mapping succeeds if and only if the value is an array with no null element. It then gives one record per element, in order, each normalised at its own index |
| `Reviews.PositionalIdsDistinct` | app/index.tsx:128 | Two reviews that have neither `id` nor `review_id` get different ids |
| `Reviews.MapScreenEnvelope` | app/index.tsx:126-131 | An array body is mapped as is, and an object with a non-null `items` has that value mapped. A `null` body, an object without `items`, and a number, string or boolean body throw |
| `Reviews.BookmarksEnvelope` | app/bookmarks.tsx:120-126 | An empty body and a number, string or boolean body give `[]`. A body that does not parse, and `null`, throw. An array is mapped as is, and an object has `items ?? []` mapped |
| `Reviews.MapScreenReviews` | app/index.tsx:115-137 | A rejected fetch, a non-ok status or a body that is not JSON leaves the map screen's reviews empty. Otherwise they are the mapped list, or empty when the mapping throws |
| `Reviews.BookmarksReviews` | app/bookmarks.tsx:107-133 | A rejected fetch, a non-ok status or an unparsable body leaves the bookmarks screen's reviews empty. Otherwise they are the mapped list, or empty when the mapping throws |
| `Reviews.EnvelopeTolerance` | app/bookmarks.tsx:121 | A bare array and the same array under `items` (next to any other fields) give the same reviews, on both screens |
| `Reviews.ScreensAgreeOnReviews` | app/bookmarks.tsx:113-128 | For every response, the bookmarks screen's `fetchReviews` ends with the same review list as the map screen's `fetchReviews` (app/index.tsx:115-137) |
| `PlaceMap.Abs` | app/index.tsx:71-73 | `Math.abs` is non-negative and equals its argument or its negation |
| `PlaceMap.DragTarget` | app/index.tsx:58-62 | The sheet moves by `dy` if and only if the new position lies in [FULL, CLOSED]. Otherwise it stays put, so a position in range stays in range |
| `PlaceMap.ClaimsGesture` | app/index.tsx:57 | The sheet takes over a gesture if and only if its vertical travel is more than 5 in either direction |
| `PlaceMap.Candidates` | app/index.tsx:70-74 | The distance table has three entries, for FULL, HALF and CLOSED in that order, each holding its distance from the current position |
| `PlaceMap.InsertByDist` | app/index.tsx:75 | Inserting keeps every entry (the same multiset plus the new one) and puts the new entry first when it is no farther than the current head |
| `PlaceMap.InsertKeepsSorted` | app/index.tsx:75 | Inserting into a list sorted by distance keeps it sorted |
| `PlaceMap.SortByDist` | app/index.tsx:75 | The sort gives a permutation of the distance table, sorted by distance |
| `PlaceMap.SortHeadIsEarliestNearest` | app/index.tsx:75-76 | After the sort, the first entry is the earliest entry at the smallest distance, so ties keep table order |
| `PlaceMap.NearestSnap` | app/index.tsx:69-76 | The chosen position is always FULL, HALF or CLOSED |
| `PlaceMap.EarliestNearestOfThree` | app/index.tsx:70-76 | For three entries, the earliest nearest is the first one no farther than both later ones, else the nearer of the last two with ties to the second |
| `PlaceMap.ThresholdIsEarliestNearest` | app/index.tsx:70-76 | With FULL < HALF < CLOSED, the midpoint rule picks the same point as "earliest at the smallest distance" |
| `PlaceMap.NearestSnapIsThreshold` | app/index.tsx:68-77 | The snap chosen without a fling is FULL up to the FULL-HALF midpoint, HALF up to the HALF-CLOSED midpoint, and CLOSED beyond. It is at least as close as every snap point, and an equally close earlier point wins |
| `PlaceMap.ReleaseTarget` | app/index.tsx:64-77 | A release lands on a snap point. `dy > 100` gives CLOSED, `dy < -100` gives FULL, and the target lies in [FULL, CLOSED] |
| `PlaceMap.ReleaseWithoutFling` | app/index.tsx:68-77 | A release with `-100 <= dy <= 100` lands on the midpoint-rule snap point |
| `PlaceMap.Coordinates` | app/index.tsx:103-104 | `p.point?.coordinates` is `undefined` when `point` is missing or null. It is present if and only if `point` is an object that has `coordinates`, and is then that value |
| `PlaceMap.NormalizePlace` | app/index.tsx:100-106 | The place callback throws if and only if the element is `null`. `id` and `name` are copied. Latitude, longitude and address are never null. A present, non-null address is kept as it is, and a missing or null one becomes `""` |
| `PlaceMap.MapPlaces` | app/index.tsx:99-107 | Mapping places succeeds if and only if the body is an array with no null element. It then gives one place per element, in order |
| `PlaceMap.PlaceCoordinates` | app/index.tsx:103-104 | Latitude is `point.coordinates[1]` and longitude is `point.coordinates[0]`, each `0` when missing or null |
| `PlaceMap.PlaceWithoutCoordinates` | app/index.tsx:103-104 | A place whose `point` is missing or null, or has no `coordinates` or null ones, sits at (0, 0) |
| `PlaceMap.LoadedPlaces` | app/index.tsx:93-111 | The places are replaced if and only if a response arrived whose body parses and maps without a throw, whatever the status. The new list is the mapped body, one place per element in order |
| `PlaceMap.MapScreen.constructor` | app/index.tsx:36-53 | The screen starts with the sheet CLOSED, empty lists, no selection and a review rating of "5" |
| `PlaceMap.MapScreen.Drag` | app/index.tsx:58-62 | A move event sets the sheet to `DragTarget` of the old position and keeps it in [FULL, CLOSED] |
| `PlaceMap.MapScreen.Release` | app/index.tsx:64-87 | The sheet settles on `ReleaseTarget`. Settling at CLOSED clears the selected place and the reviews, and any other target leaves them unchanged |
| `PlaceMap.MapScreen.CloseDetails` | app/index.tsx:172-180 | The sheet goes CLOSED, and the selected place and the reviews are cleared |
| `PlaceMap.MapScreen.FetchPlaces` | app/index.tsx:93-111 | The places become `LoadedPlaces` of the response when there is one, and otherwise stay as they were |
| `PlaceMap.MapScreen.FetchReviews` | app/index.tsx:115-137 | The reviews become `MapScreenReviews` of the response |
| `PlaceMap.MapScreen.OpenPlaceDetails` | app/index.tsx:162-170 | The place is selected, its reviews are loaded, and the sheet goes to HALF |
| `PlaceMap.MapScreen.HandleSearch` | app/index.tsx:139-140 | Geocoding is requested if and only if the search text holds a character that is not whitespace |
| `PlaceMap.MapScreen.HandleAddBookmark` | app/index.tsx:183-201 | The bookmark POST is made if and only if a place is selected and a token is stored. It is made for that place's id |
| `PlaceMap.MapScreen.HandleAddReview` | app/index.tsx:217 | The review modal opens |
| `PlaceMap.MapScreen.SubmitReview` | app/index.tsx:219-260 | The POST is sent if and only if the text is not blank, a place is selected and a token is stored, and it carries the trimmed text. Only an ok POST reloads the reviews and resets the form to text "" and rating "5" with the modal closed. Otherwise the form is unchanged |
| `Bookmarks.BookmarkList` | app/bookmarks.tsx:67-68 | The stored list is `items` when present and not null. Otherwise it is the whole body, whether an array, an object or a number, string or boolean. A `null` body throws |
| `Bookmarks.StoredBookmarks` | app/bookmarks.tsx:54-68 | The list is replaced if and only if an ok response's body parses to a value other than `null`. The new list is `data.items ?? data` |
| `Bookmarks.Keeps` | app/bookmarks.tsx:98 | An entry with an `id` is kept if and only if that id differs from the one deleted. An entry without `id` is kept unless the deleted id is itself `undefined` |
| `Bookmarks.RemoveById` | app/bookmarks.tsx:98 | The filter throws if and only if some entry is `null`. Otherwise it keeps exactly the entries whose id differs, every one of them, in their original order |
| `Bookmarks.RemoveAbsentId` | app/bookmarks.tsx:98 | Deleting an id that no entry carries leaves the list unchanged |
| `Bookmarks.RemoveByIdIdempotent` | app/bookmarks.tsx:98 | Deleting the same id twice removes nothing more the second time |
| `Bookmarks.FilterBookmarks` | app/bookmarks.tsx:98 | The updater succeeds if and only if the stored list is an array with no null entry, and then gives the filtered array |
| `Bookmarks.ErrorMessage` | app/bookmarks.tsx:195-199 | The message is `error` if truthy, else `message` if truthy, else the default. A body that does not parse keeps the default, and the message is never falsy |
| `Bookmarks.EmptyErrorFallsThrough` | app/bookmarks.tsx:198 | An empty `error` falls through to `message`, where `??` would have kept `""` |
| `Bookmarks.BookmarksScreen.constructor` | app/bookmarks.tsx:29-37 | The screen starts with an empty list, no selection, and both modals closed with empty fields |
| `Bookmarks.BookmarksScreen.FetchBookmarks` | app/bookmarks.tsx:42-72 | With no token, the list, the selection and the reviews are cleared. With a token, only `StoredBookmarks` of an ok response replaces the list, and the selection and reviews are unchanged |
| `Bookmarks.BookmarksScreen.OnRefresh` | app/bookmarks.tsx:149-153 | A refresh does what `FetchBookmarks` does and ends with the refresh indicator off |
| `Bookmarks.BookmarksScreen.HandleDeleteBookmark` | app/bookmarks.tsx:75-104 | The DELETE is sent if and only if a token is stored. Only an ok response replaces the list with the filtered list, and otherwise the list is unchanged |
| `Bookmarks.BookmarksScreen.FetchReviews` | app/bookmarks.tsx:107-133 | The reviews become `BookmarksReviews` of the response |
| `Bookmarks.BookmarksScreen.OpenBookmarkDetails` | app/bookmarks.tsx:136-140 | The bookmark is selected, its reviews are loaded, and the modal opens |
| `Bookmarks.BookmarksScreen.CloseModal` | app/bookmarks.tsx:142-146 | The modal closes, and the selection and the reviews are cleared |
| `Bookmarks.BookmarksScreen.OpenRecommendModal` | app/bookmarks.tsx:246 | The recommendation form opens |
| `Bookmarks.BookmarksScreen.CancelRecommendation` | app/bookmarks.tsx:306-310 | Cancelling closes the form and clears both fields |
| `Bookmarks.BookmarksScreen.HandleSubmitRecommendation` | app/bookmarks.tsx:167-214 | A blank name or address gives "missing info" and changes nothing. Otherwise `submittingRec` ends false on every path. The trimmed fields are sent if and only if a token is stored. A missing token gives the "must be logged in" notice. A rejected response shows `ErrorMessage` of its body. Only success closes the form and clears its fields |

## Left out

- HTTP, `AsyncStorage`, `Alert` (except the recommendation form's notice), `console` and the request URLs: they are I/O. Responses and the stored token are inputs.
- `JSON.parse` and the text of bodies: a body is already classified as empty, parsed, or unparsable. JSON numbers are reals that the model only passes on, and duplicate object keys are resolved before the model sees them.
- Reference equality: `b.id !== bookmarkId` compares object and array ids by reference in JavaScript. The model compares all ids by value.
- `Animated.spring` and its timing. A spring is an instantaneous move to its target, followed by its completion callback. The model never sees the intermediate or overshooting values that `__getValue()` would return mid-animation, or an interrupted spring.
- The snap points' screen-height products (`0.1`, `0.5` and `1.0` of the window height): they are abstract reals with FULL < HALF < CLOSED.
- `PlaceMap.ClaimsGesture` decides whether React Native's gesture system delivers move events at all. `PlaceMap.MapScreen.Drag` does not consult it: the model takes every move event it receives to belong to a gesture the sheet has claimed.
- The geocoding request of `handleSearch`: a call to an external service plus `parseFloat`. Only the empty-input guard is modelled.
- `parseInt(reviewRating)`: the review POST carries the rating text as typed.
- Strings are sequences of Unicode scalar values, not UTF-16 code units.
- `PlaceMap.SortByDist`: ECMAScript requires only that `Array.prototype.sort` be stable and fixes no algorithm. The model uses an insertion sort, and only the properties the screen depends on are proved: a sorted permutation whose head is the earliest nearest entry.
- `Bookmarks.BookmarksScreen.HandleDeleteBookmark`: the JavaScript `filter` updater runs at render time, where a throw (a non-array list or a `null` entry) crashes the screen. The model instead leaves the list unchanged.
- Concurrency between overlapping async handlers: every handler runs to completion before the next one starts.
- app/_layout.tsx (navigation chrome) and app/account.tsx (a display-only toggle).
- Marker declustering, the metadata enrichment cache, debounced search and search sequence numbers: none of these appear in the modelled source files.
